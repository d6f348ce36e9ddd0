/** Client transactions over whole runs: the timers that each state keeps, the single outcome, and when a CANCEL
    leaves. */
module ClientRuns {
  import opened Basics
  import opened TwoGeneration
  import opened SipTransactions

  // ----- What every reachable state satisfies -----

  ghost predicate ClientTable(s: State) {
    && (forall k :: k in s.tclient ==>
          s.tclient[k] < |s.cobjs| && s.cobjs[s.tclient[k]].live && s.cobjs[s.tclient[k]].key == k)
    && (forall h :: 0 <= h < |s.cobjs| && s.cobjs[h].live ==>
          s.cobjs[h].key in s.tclient && s.tclient[s.cobjs[h].key] == h)
  }

  /** The armed timers are fixed by the state: A and B in TRYING, B in RINGING, C in TERMINATED; but in the first two
      none is, once a callback has raised on a final response. */
  predicate TimersFit(t: ClientTxn) {
    match t.state
    case CTrying => t.teA.Some? == t.teB.Some? && t.teC.None? && t.teG.None? && t.rung.None?
    case CRinging => t.teA.None? && t.teC.None? && t.teG.None? && t.rung.Some?
    case CTerminated => t.teA.None? && t.teB.None? && t.teC.Some? && t.teG.None?
    case CUack => t.teA.None? && t.teB.None? && t.teC.None? && t.key.verb == INVITE && t.ackSum.Some?
  }

  ghost predicate Resending(t: ClientTxn) {
    && |t.sends| >= 1
    && t.teB == Some(t.sends[0] + 32.0)
    && t.tout == 0.5 * Pow2(|t.sends| - 1) as real
    && t.teA.Some? && t.teA.value >= t.sends[0] + Backoff(|t.sends|)
  }

  predicate NothingArmed(t: ClientTxn) {
    t.teA.None? && t.teB.None? && t.teC.None? && t.teG.None?
  }

  /** When an undecided transaction gives up: 32 seconds after the request, or `expires` after the last provisional
      response. */
  function GivesUp(t: ClientTxn): real
    requires t.sends != []
  {
    if t.rung.Some? then t.rung.value + t.expires else t.sends[0] + 32.0
  }

  ghost predicate ClientTxnOk(t: ClientTxn) {
    && t.sends != []
    && (t.live ==> TimersFit(t))
    && (t.live && t.state == CTrying && t.teB.Some? ==> Resending(t))
    && (t.live && t.state == CRinging && t.teB.Some? ==> t.teB == Some(GivesUp(t)))
    && (!t.live ==> NothingArmed(t) && !t.hasCb)
    && Spaced(t.sends) && t.expires >= 1.0
    && (t.ackSum.Some? ==> t.ackSum.value.Response?)
    && (t.cancelPending ==> t.key.verb == INVITE)
  }

  ghost predicate TxnsOk(s: State) {
    forall h :: 0 <= h < |s.cobjs| ==> ClientTxnOk(s.cobjs[h])
  }

  /** No provisional response has come for the transaction. */
  predicate Unrung(t: ClientTxn) {
    t.live && t.state == CTrying
  }

  /** No response at all has come for it. */
  predicate Unheard(t: ClientTxn) {
    Unrung(t) && t.teB.Some?
  }

  /** The TU's callback has raised on a final response, and no provisional response came since. */
  predicate Stuck(t: ClientTxn) {
    Undecided(t) && t.teB.None?
  }

  predicate Undecided(t: ClientTxn) {
    t.live && (t.state == CTrying || t.state == CRinging)
  }

  /** Branches are fresh, and a CANCEL shares the branch of the one transaction it cancels, which has been heard
      from. */
  ghost predicate Branches(s: State) {
    && (forall i, j :: 0 <= i < j < |s.cobjs| && s.cobjs[i].key.verb != CANCEL && s.cobjs[j].key.verb != CANCEL ==>
          s.cobjs[i].key.branch != s.cobjs[j].key.branch)
    && (forall i :: 0 <= i < |s.cobjs| && s.cobjs[i].key.verb == CANCEL ==> HasParent(s, i))
  }

  ghost predicate HasParent(s: State, i: nat)
    requires i < |s.cobjs|
  {
    && s.cobjs[i].parent.Some? && s.cobjs[i].parent.value < |s.cobjs|
    && s.cobjs[s.cobjs[i].parent.value].key.verb == INVITE
    && s.cobjs[i].key == CancelKey(s.cobjs[s.cobjs[i].parent.value].key)
    && !Unrung(s.cobjs[s.cobjs[i].parent.value])
  }

  // ----- What an observer counts -----

  function Outcomes(trace: seq<ClientEvent>, w: nat): nat {
    if trace == [] then 0
    else
      var e := trace[|trace| - 1];
      Outcomes(trace[..|trace| - 1], w) + if e.Told? && e.h == w && e.code >= 200 then 1 else 0
  }

  function Provisionals(trace: seq<ClientEvent>, w: nat): nat {
    if trace == [] then 0
    else Provisionals(trace[..|trace| - 1], w) + if trace[|trace| - 1] == Provisional(w) then 1 else 0
  }

  function Deferred(trace: seq<ClientEvent>, w: nat): nat {
    if trace == [] then 0
    else Deferred(trace[..|trace| - 1], w) + if trace[|trace| - 1] == CancelSent(w, true) then 1 else 0
  }

  /** The outcomes on which the callback raised, so that the transaction stayed. */
  function Swallowed(trace: seq<ClientEvent>, w: nat): nat {
    if trace == [] then 0
    else
      var e := trace[|trace| - 1];
      Swallowed(trace[..|trace| - 1], w) + if e.Told? && e.h == w && e.code >= 200 && e.raised then 1 else 0
  }

  /** The last that was heard for `w` is such an outcome. */
  predicate StuckIn(trace: seq<ClientEvent>, w: nat) {
    trace != [] &&
    (var e := trace[|trace| - 1];
     if e.Told? && e.h == w && e.code >= 200 then e.raised
     else e != Provisional(w) && StuckIn(trace[..|trace| - 1], w))
  }

  predicate IsOutcome(e: ClientEvent, w: nat) {
    e.Told? && e.h == w && e.code >= 200
  }

  /** Before each outcome of `w`, every earlier one was swallowed. */
  predicate OutcomesFollow(trace: seq<ClientEvent>, w: nat) {
    trace == [] ||
    (var was := trace[..|trace| - 1];
     OutcomesFollow(was, w) && (IsOutcome(trace[|trace| - 1], w) ==> Outcomes(was, w) == Swallowed(was, w)))
  }

  /** Every CANCEL of `w` left after a provisional response for `w`. */
  predicate CancelsFollow(trace: seq<ClientEvent>, w: nat) {
    trace == [] ||
    (var e := trace[|trace| - 1];
     && CancelsFollow(trace[..|trace| - 1], w)
     && (e.CancelSent? && e.h == w ==> Provisionals(trace[..|trace| - 1], w) >= 1))
  }

  lemma ClientTraceSnoc(trace: seq<ClientEvent>, e: ClientEvent, w: nat)
    ensures Outcomes(trace + [e], w) == Outcomes(trace, w) + (if e.Told? && e.h == w && e.code >= 200 then 1 else 0)
    ensures Provisionals(trace + [e], w) == Provisionals(trace, w) + (if e == Provisional(w) then 1 else 0)
    ensures Swallowed(trace + [e], w)
            == Swallowed(trace, w) + (if e.Told? && e.h == w && e.code >= 200 && e.raised then 1 else 0)
    ensures StuckIn(trace + [e], w)
            == (if e.Told? && e.h == w && e.code >= 200 then e.raised else e != Provisional(w) && StuckIn(trace, w))
    ensures Deferred(trace + [e], w) == Deferred(trace, w) + (if e == CancelSent(w, true) then 1 else 0)
    ensures OutcomesFollow(trace + [e], w) ==
            (OutcomesFollow(trace, w) && (IsOutcome(e, w) ==> Outcomes(trace, w) == Swallowed(trace, w)))
    ensures CancelsFollow(trace + [e], w) ==
            (CancelsFollow(trace, w) && (e.CancelSent? && e.h == w ==> Provisionals(trace, w) >= 1))
  {
    assert (trace + [e])[..|trace|] == trace;
  }

  ghost predicate Story(s: State, w: nat) {
    && CancelsFollow(s.ctrace, w) && OutcomesFollow(s.ctrace, w)
    && if w >= |s.cobjs| then
         && Outcomes(s.ctrace, w) == 0 && Deferred(s.ctrace, w) == 0 && Provisionals(s.ctrace, w) == 0
         && Swallowed(s.ctrace, w) == 0 && !StuckIn(s.ctrace, w)
       else
         && Swallowed(s.ctrace, w) <= Outcomes(s.ctrace, w)
         && Outcomes(s.ctrace, w) <= Swallowed(s.ctrace, w) + (if Undecided(s.cobjs[w]) then 0 else 1)
         && (Undecided(s.cobjs[w]) ==> (Stuck(s.cobjs[w]) <==> StuckIn(s.ctrace, w)))
         && Deferred(s.ctrace, w) <= (if Unrung(s.cobjs[w]) then 0 else 1)
         && (Unrung(s.cobjs[w]) ==> Provisionals(s.ctrace, w) == 0)
         && (s.cobjs[w].live && s.cobjs[w].state == CRinging ==> Provisionals(s.ctrace, w) >= 1)
  }

  ghost predicate Inv(s: State, w: nat) {
    ClientTable(s) && TxnsOk(s) && Branches(s) && Story(s, w)
  }

  // ----- When the TU is told twice -----

  ghost predicate ToldAfterRaise(trace: seq<ClientEvent>, w: nat) {
    exists i, j :: 0 <= i < j < |trace| && IsOutcome(trace[i], w) && trace[i].raised && IsOutcome(trace[j], w)
  }

  lemma {:induction false} OutcomeCounts(trace: seq<ClientEvent>, w: nat, i: nat)
    requires i < |trace| && IsOutcome(trace[i], w)
    ensures Outcomes(trace, w) >= 1
    ensures Outcomes(trace, w) == Swallowed(trace, w) ==> trace[i].raised
    ensures Swallowed(trace, w) <= Outcomes(trace, w)
    decreases |trace|
  {
    var was := trace[..|trace| - 1];
    SwallowedWithin(was, w);
    if i < |trace| - 1 {
      OutcomeCounts(was, w, i);
    }
  }

  lemma {:induction false} SwallowedWithin(trace: seq<ClientEvent>, w: nat)
    ensures Swallowed(trace, w) <= Outcomes(trace, w)
    decreases |trace|
  {
    if trace != [] {
      SwallowedWithin(trace[..|trace| - 1], w);
    }
  }

  lemma {:induction false} OutcomePlace(trace: seq<ClientEvent>, w: nat) returns (i: nat)
    requires Outcomes(trace, w) >= 1
    ensures i < |trace| && IsOutcome(trace[i], w)
    decreases |trace|
  {
    i := |trace| - 1;
    if !IsOutcome(trace[i], w) {
      i := OutcomePlace(trace[..|trace| - 1], w);
    }
  }

  /** More than one outcome means that one came after another on which the callback had raised. */
  lemma {:induction false} TwoOutcomes(trace: seq<ClientEvent>, w: nat)
    requires OutcomesFollow(trace, w)
    ensures Outcomes(trace, w) > 1 <==> ToldAfterRaise(trace, w)
    decreases |trace|
  {
    if trace != [] {
      var n := |trace| - 1;
      var was := trace[..n];
      TwoOutcomes(was, w);
      assert forall i :: 0 <= i < n ==> was[i] == trace[i];
      hide Outcomes, Swallowed, OutcomesFollow;
      OutcomesSnoc(trace, w);
      if IsOutcome(trace[n], w) && Outcomes(was, w) >= 1 {
        var i := OutcomePlace(was, w);
        OutcomeCounts(was, w, i);
        assert IsOutcome(trace[i], w) && trace[i].raised;
      }
      if ToldAfterRaise(trace, w) && !ToldAfterRaise(was, w) {
        var i, j :| 0 <= i < j < |trace| && IsOutcome(trace[i], w) && trace[i].raised && IsOutcome(trace[j], w);
        OutcomeCounts(was, w, i);
      }
    }
  }

  lemma OutcomesSnoc(trace: seq<ClientEvent>, w: nat)
    requires trace != [] && OutcomesFollow(trace, w)
    ensures var was, e := trace[..|trace| - 1], trace[|trace| - 1];
            && Outcomes(trace, w) == Outcomes(was, w) + (if IsOutcome(e, w) then 1 else 0)
            && (IsOutcome(e, w) ==> Outcomes(was, w) == Swallowed(was, w))
  {
  }

  lemma InitInv(provRetr: real, clock: real, w: nat)
    ensures Inv(Init(provRetr, clock), w)
  {
  }

  // ----- Each operation keeps it -----

  /** One transaction changes; it may leave the table, and once heard from it stays heard from. */
  ghost predicate Changes(s: State, s': State, h: nat) {
    && h < |s.cobjs| && |s'.cobjs| == |s.cobjs| && s'.cobjs == s.cobjs[h := s'.cobjs[h]]
    && s.cobjs[h].live
    && s'.cobjs[h].key == s.cobjs[h].key && s'.cobjs[h].parent == s.cobjs[h].parent
    && (Unrung(s'.cobjs[h]) ==> Unrung(s.cobjs[h]))
    && s'.tclient == (if s'.cobjs[h].live then s.tclient else s.tclient - {s.cobjs[h].key})
  }

  lemma ChangeTable(s: State, s': State, h: nat)
    requires Changes(s, s', h) && ClientTable(s)
    ensures ClientTable(s')
  {
  }

  lemma ChangeTxns(s: State, s': State, h: nat)
    requires Changes(s, s', h) && TxnsOk(s) && ClientTxnOk(s'.cobjs[h])
    ensures TxnsOk(s')
  {
    hide ClientTxnOk, Unrung;
  }

  lemma ChangeBranches(s: State, s': State, h: nat)
    requires Changes(s, s', h) && Branches(s)
    ensures Branches(s')
  {
    forall i | 0 <= i < |s'.cobjs| && s'.cobjs[i].key.verb == CANCEL ensures HasParent(s', i) {
      assert HasParent(s, i);
    }
  }

  lemma ChangeInv(s: State, s': State, h: nat, w: nat)
    requires Inv(s, w) && Changes(s, s', h) && ClientTxnOk(s'.cobjs[h]) && Story(s', w)
    ensures Inv(s', w)
  {
    hide ClientTable, TxnsOk, Branches, Story, ClientTxnOk, Changes;
    ChangeTable(s, s', h);
    ChangeTxns(s, s', h);
    ChangeBranches(s, s', h);
  }

  /** A new transaction under a key that the table does not hold. */
  lemma AddTable(s: State, t: ClientTxn, s': State)
    requires ClientTable(s) && t.live && t.key !in s.tclient
    requires s'.tclient == s.tclient[t.key := |s.cobjs|] && s'.cobjs == s.cobjs + [t]
    ensures ClientTable(s')
  {
  }

  lemma AddTxns(s: State, key: ClientKey, expires: Option<int>, hasCb: bool, now: real, parent: Option<nat>, s': State)
    requires TxnsOk(s) && s'.cobjs == s.cobjs + [NewClientTxn(key, expires, hasCb, now, parent)]
    ensures TxnsOk(s')
  {
    assert Pow2(0) == 1 && Pow2(1) == 2;
    assert ClientTxnOk(NewClientTxn(key, expires, hasCb, now, parent));
    hide ClientTxnOk;
  }

  lemma AddBranches(s: State, t: ClientTxn, s': State)
    requires Branches(s) && s'.cobjs == s.cobjs + [t]
    requires t.key.verb != CANCEL ==> forall i :: 0 <= i < |s.cobjs| ==> s.cobjs[i].key.branch != t.key.branch
    requires t.key.verb == CANCEL ==> HasParent(s', |s.cobjs|)
    ensures Branches(s')
  {
    forall i | 0 <= i < |s'.cobjs| && s'.cobjs[i].key.verb == CANCEL ensures HasParent(s', i) {
      if i < |s.cobjs| {
        assert HasParent(s, i);
      }
    }
  }

  ghost predicate FreshBranch(s: State, key: ClientKey) {
    key.verb != CANCEL && forall i :: 0 <= i < |s.cobjs| ==> s.cobjs[i].key.branch != key.branch
  }

  lemma NewClientInv(s: State, key: ClientKey, expires: Option<int>, hasCb: bool, now: real, w: nat)
    requires Inv(s, w) && FreshBranch(s, key)
    ensures Inv(NewClient(s, key, expires, hasCb, now, None), w)
    ensures key !in s.tclient
  {
    hide TxnsOk, Branches;
    assert key !in s.tclient;
    var t := NewClientTxn(key, expires, hasCb, now, None);
    var s' := NewClient(s, key, expires, hasCb, now, None);
    AddTable(s, t, s');
    AddTxns(s, key, expires, hasCb, now, None, s');
    AddBranches(s, t, s');
  }

  /** A CANCEL exists only for an INVITE that has been heard from. */
  lemma CancelledIsHeard(s: State, h: nat)
    requires ClientTable(s) && Branches(s) && h < |s.cobjs| && s.cobjs[h].key.verb == INVITE
    ensures CancelKey(s.cobjs[h].key) in s.tclient ==> !Unrung(s.cobjs[h])
  {
    var k := CancelKey(s.cobjs[h].key);
    if k in s.tclient {
      assert HasParent(s, s.tclient[k]);
      assert s.cobjs[s.tclient[k]].parent == Some(h);
    }
  }

  lemma StartCancelStory(s: State, h: nat, now: real, deferred: bool, w: nat)
    requires Story(s, w) && h < |s.cobjs| && CancelKey(s.cobjs[h].key) !in s.tclient && !Unrung(s.cobjs[h])
    requires h == w ==> Provisionals(s.ctrace, w) >= 1 && (deferred ==> Deferred(s.ctrace, w) == 0)
    ensures Story(StartCancel(s, h, now, deferred), w)
  {
    ClientTraceSnoc(s.ctrace, CancelSent(h, deferred), w);
  }

  lemma StartCancelInv(s: State, h: nat, now: real, deferred: bool, w: nat)
    requires Inv(s, w) && h < |s.cobjs| && s.cobjs[h].key.verb == INVITE && !Unrung(s.cobjs[h])
    requires h == w ==> Provisionals(s.ctrace, w) >= 1 && (deferred ==> Deferred(s.ctrace, w) == 0)
    ensures Inv(StartCancel(s, h, now, deferred), w)
  {
    hide TxnsOk, ClientTable, Branches, Story, Unrung;
    var key := CancelKey(s.cobjs[h].key);
    if key !in s.tclient {
      var s' := StartCancel(s, h, now, deferred);
      var t := NewClientTxn(key, None, false, now, Some(h));
      StartCancelStory(s, h, now, deferred, w);
      AddTable(s, t, s');
      AddTxns(s, key, None, false, now, Some(h), s');
      AddBranches(s, t, s');
    }
  }

  lemma PendingStory(s: State, h: nat, pending: bool, w: nat)
    requires Story(s, w) && h < |s.cobjs|
    ensures Story(s.(cobjs := s.cobjs[h := s.cobjs[h].(cancelPending := pending)]), w)
  {
  }

  lemma CancelInv(s: State, h: nat, now: real, w: nat)
    requires Inv(s, w) && h < |s.cobjs| && s.cobjs[h].live && s.cobjs[h].key.verb == INVITE
    ensures Inv(CancelClient(s, h, now), w)
  {
    var t := s.cobjs[h];
    if t.state == CRinging {
      StartCancelInv(s, h, now, false, w);
    } else {
      PendingStory(s, h, true, w);
      FlagsOk(t, t.uack, true);
      hide ClientTable, Branches, Story, ClientTxnOk;
      ChangeInv(s, CancelClient(s, h, now), h, w);
    }
  }

  // ----- Responses -----

  /** A first or later provisional response, before a deferred CANCEL leaves. */
  function Ring(s: State, h: nat, now: real): State
    requires h < |s.cobjs|
  {
    var t := s.cobjs[h];
    LogClient(s.(cobjs := s.cobjs[h := Stopped(t).(state := CRinging, rung := Some(now), teB := Some(now + t.expires),
                                                   cancelPending := t.cancelPending && t.state != CTrying)]),
              Provisional(h))
  }

  lemma RingStory(s: State, h: nat, now: real, w: nat)
    requires Story(s, w) && h < |s.cobjs| && Undecided(s.cobjs[h])
    ensures Story(Ring(s, h, now), w)
    ensures Provisionals(Ring(s, h, now).ctrace, h) >= 1
    ensures h == w && Unrung(s.cobjs[h]) ==> Deferred(Ring(s, h, now).ctrace, w) == 0
  {
    ClientTraceSnoc(s.ctrace, Provisional(h), w);
    ClientTraceSnoc(s.ctrace, Provisional(h), h);
  }

  lemma RingInv(s: State, h: nat, now: real, w: nat)
    requires Inv(s, w) && h < |s.cobjs| && Undecided(s.cobjs[h])
    ensures Inv(Ring(s, h, now), w)
  {
    RingStory(s, h, now, w);
    assert ClientTxnOk(s.cobjs[h]);
    hide ClientTable, Branches, Story;
    ChangeInv(s, Ring(s, h, now), h, w);
  }

  lemma ProvisionalIsRing(s: State, h: nat, d: Datagram, now: real)
    requires h < |s.cobjs| && d.Response?
    requires Unrung(s.cobjs[h]) && s.cobjs[h].cancelPending ==> CancelKey(s.cobjs[h].key) !in s.tclient
    requires s.cobjs[h].live
    ensures var s1 := Ring(s, h, now);
            var s2 := if s.cobjs[h].state == CTrying && s.cobjs[h].cancelPending then StartCancel(s1, h, now, true)
                      else s1;
            ProvisionalResponse(s, h, d, now) == Tell(Remember(s2, d, None), h, d.code, false)
  {
    var t := s.cobjs[h];
    var s0 := LogClient(s.(cobjs := s.cobjs[h := Stopped(t).(state := CRinging, rung := Some(now))]), Provisional(h));
    var s1 := Ring(s, h, now);
    if t.state == CTrying && t.cancelPending {
      var n := NewClientTxn(CancelKey(t.key), None, false, now, Some(h));
      assert (s0.cobjs + [n])[h := s1.cobjs[h]] == s1.cobjs + [n];
    } else {
      assert s0.cobjs[h := s1.cobjs[h]] == s1.cobjs;
    }
  }

  lemma SameBranches(s: State, s': State)
    requires Branches(s) && s'.cobjs == s.cobjs
    ensures Branches(s')
  {
    forall i | 0 <= i < |s'.cobjs| && s'.cobjs[i].key.verb == CANCEL ensures HasParent(s', i) {
      assert HasParent(s, i);
    }
  }

  /** What leaves the client table and objects alone only has to account for the trace. */
  lemma SameClientsInv(s: State, s': State, w: nat)
    requires Inv(s, w) && s'.cobjs == s.cobjs && s'.tclient == s.tclient && Story(s', w)
    ensures Inv(s', w)
  {
    SameBranches(s, s');
    assert ClientTable(s') == ClientTable(s) && TxnsOk(s') == TxnsOk(s);
    hide ClientTable, TxnsOk, Branches, Story;
  }

  lemma TellStory(s: State, d: Datagram, h: nat, code: int, w: nat)
    requires Story(s, w) && h < |s.cobjs| && code < 200
    ensures Story(Tell(Remember(s, d, None), h, code, false), w)
  {
    ClientTraceSnoc(s.ctrace, Told(h, code, false), w);
  }

  lemma StoryOf(s: State, w: nat)
    ensures Inv(s, w) ==> Story(s, w)
  {
  }

  lemma ProvisionalInv(s: State, h: nat, d: Datagram, now: real, w: nat)
    requires Inv(s, w) && h < |s.cobjs| && Undecided(s.cobjs[h]) && d.Response? && d.code < 200
    ensures Inv(ProvisionalResponse(s, h, d, now), w)
  {
    var t := s.cobjs[h];
    assert ClientTxnOk(t);
    if t.state == CTrying && t.cancelPending {
      CancelledIsHeard(s, h);
    }
    ProvisionalIsRing(s, h, d, now);
    RingInv(s, h, now, w);
    RingStory(s, h, now, w);
    var s1 := Ring(s, h, now);
    var s2 := if t.state == CTrying && t.cancelPending then StartCancel(s1, h, now, true) else s1;
    hide Inv, StartCancel, Story, ProvisionalResponse;
    if t.state == CTrying && t.cancelPending {
      StartCancelInv(s1, h, now, true, w);
    }
    assert Inv(s2, w) ==> Story(s2, w) by { StoryOf(s2, w); }
    TellStory(s2, d, h, d.code, w);
    SameClientsInv(s2, Tell(Remember(s2, d, None), h, d.code, false), w);
  }

  /** A transaction is decided, and the TU is told at most this once. */
  lemma DecidedStory(s: State, s': State, h: nat, code: int, w: nat)
    requires Story(s, w) && h < |s.cobjs| && Undecided(s.cobjs[h])
    requires |s'.cobjs| == |s.cobjs| && s'.cobjs == s.cobjs[h := s'.cobjs[h]] && !Undecided(s'.cobjs[h])
    requires s'.ctrace == s.ctrace || s'.ctrace == s.ctrace + [Told(h, code, false)]
    ensures Story(s', w)
  {
    ClientTraceSnoc(s.ctrace, Told(h, code, false), w);
    hide Outcomes, Provisionals, Deferred, CancelsFollow, OutcomesFollow, Swallowed, StuckIn;
  }

  /** The TU is told, but its callback raises: nothing is decided, and no timer is left. */
  lemma StuckStory(s: State, s': State, h: nat, code: int, w: nat)
    requires Story(s, w) && h < |s.cobjs| && Undecided(s.cobjs[h]) && code >= 200
    requires |s'.cobjs| == |s.cobjs| && s'.cobjs == s.cobjs[h := Stopped(s.cobjs[h])]
    requires s'.ctrace == s.ctrace + [Told(h, code, true)]
    ensures Story(s', w)
  {
    ClientTraceSnoc(s.ctrace, Told(h, code, true), w);
    hide Outcomes, Provisionals, Deferred, CancelsFollow, OutcomesFollow, Swallowed, StuckIn;
  }

  predicate Keeps(t: ClientTxn, raises: bool) {
    t.hasCb && raises && !(t.key.verb == INVITE && t.uack)
  }

  lemma FinalChanges(s: State, h: nat, d: Datagram, raises: bool, now: real)
    requires h < |s.cobjs| && Undecided(s.cobjs[h]) && d.Response?
    ensures var s' := FinalResponse(s, h, d, raises, now);
            var t := s.cobjs[h];
            && Changes(s, s', h)
            && s'.cobjs[h] == (if t.key.verb == INVITE && t.uack then UackTxn(t, d, now)
                               else if Keeps(t, raises) then Stopped(t) else Dropped(Stopped(t)))
            && s'.ctrace == s.ctrace + (if t.hasCb then [Told(h, d.code, Keeps(t, raises))] else [])
  {
    var s' := FinalResponse(s, h, d, raises, now);
    assert s'.cobjs == s.cobjs[h := s'.cobjs[h]];
    assert s.ctrace + [] == s.ctrace;
  }

  lemma FinalTxnOk(t: ClientTxn, d: Datagram, now: real)
    requires ClientTxnOk(t) && d.Response? && Undecided(t)
    ensures t.key.verb == INVITE ==> ClientTxnOk(UackTxn(t, d, now)) && !Undecided(UackTxn(t, d, now))
    ensures ClientTxnOk(Stopped(t)) && ClientTxnOk(Dropped(Stopped(t))) && !Undecided(Dropped(Stopped(t)))
  {
    hide Spaced, Pow2, Backoff;
  }

  lemma FinalInv(s: State, h: nat, d: Datagram, raises: bool, now: real, w: nat)
    requires Inv(s, w) && h < |s.cobjs| && Undecided(s.cobjs[h]) && d.Response? && d.code >= 200
    ensures Inv(FinalResponse(s, h, d, raises, now), w)
  {
    FinalChanges(s, h, d, raises, now);
    FinalTxnOk(s.cobjs[h], d, now);
    var s' := FinalResponse(s, h, d, raises, now);
    assert s'.cobjs == s.cobjs[h := s'.cobjs[h]] && s.ctrace + [] == s.ctrace;
    hide ClientTable, Branches, Story, FinalResponse, ClientTxnOk, Undecided, UackTxn, Dropped, Stopped;
    if Keeps(s.cobjs[h], raises) {
      StuckStory(s, s', h, d.code, w);
    } else {
      DecidedStory(s, s', h, d.code, w);
    }
    ChangeInv(s, s', h, w);
  }

  lemma ResponseInv(s: State, h: nat, d: Datagram, raises: bool, now: real, w: nat)
    requires Inv(s, w) && h < |s.cobjs| && s.cobjs[h].live && d.Response?
    ensures Inv(IncomingResponse(s, h, d, raises, now), w)
  {
    hide Inv, ProvisionalResponse, FinalResponse;
    if s.cobjs[h].state == CTrying || s.cobjs[h].state == CRinging {
      if d.code < 200 {
        ProvisionalInv(s, h, d, now, w);
      } else {
        FinalInv(s, h, d, raises, now, w);
      }
    }
  }

  // ----- Timers -----

  /** Timer A may run when it is due and, since the dispatcher runs timers in due order, not after timer B. */
  ghost predicate TimerEnabled(s: State, h: nat, timer: ClientTimer, now: real) {
    h < |s.cobjs| &&
    var t := s.cobjs[h];
    match timer
    case TA => t.teA.Some? && t.teA.value <= now && (t.teB.Some? ==> t.teA.value <= t.teB.value)
    case TB => t.teB.Some? && t.teB.value <= now
    case TC => t.teC.Some? && t.teC.value <= now
    case TG => t.teG.Some? && t.teG.value <= now
  }

  /** Which timer is armed tells the state. */
  lemma TimerTells(t: ClientTxn)
    requires ClientTxnOk(t)
    ensures t.teA.Some? ==> Unheard(t)
    ensures t.teB.Some? ==> Undecided(t)
    ensures t.teC.Some? ==> t.live && t.state == CTerminated
    ensures t.teG.Some? ==> t.live && t.state == CUack
  {
  }

  lemma ResendOk(t: ClientTxn, now: real)
    requires ClientTxnOk(t) && Unrung(t) && t.teA.Some? && t.teB.Some?
    requires t.teA.value <= now && t.teA.value <= t.teB.value
    ensures ClientTxnOk(t.(tout := 2.0 * t.tout, teA := Some(now + 2.0 * t.tout), sends := t.sends + [now]))
  {
    BackoffWithin32(|t.sends|);
    assert Pow2(|t.sends| + 1) == 2 * Pow2(|t.sends|) && Pow2(|t.sends|) == 2 * Pow2(|t.sends| - 1);
    var t' := t.(tout := 2.0 * t.tout, teA := Some(now + 2.0 * t.tout), sends := t.sends + [now]);
    assert Resending(t');
    assert Spaced(t'.sends);
  }

  lemma TimerAInv(s: State, h: nat, now: real, w: nat)
    requires Inv(s, w) && TimerEnabled(s, h, TA, now)
    ensures Inv(ClientTimerA(s, h, now), w)
  {
    hide ClientTable, Branches, ClientTxnOk, Outcomes, Provisionals, Deferred, CancelsFollow;
    TimerTells(s.cobjs[h]);
    ResendOk(s.cobjs[h], now);
    ChangeInv(s, ClientTimerA(s, h, now), h, w);
  }

  lemma TimerBInv(s: State, h: nat, now: real, w: nat)
    requires Inv(s, w) && TimerEnabled(s, h, TB, now)
    ensures Inv(TimerB(s, h, now), w)
  {
    TimerTells(s.cobjs[h]);
    hide ClientTable, Branches, Story, Resending, Spaced;
    DecidedStory(s, TimerB(s, h, now), h, 408, w);
    ChangeInv(s, TimerB(s, h, now), h, w);
  }

  /** A transaction whose user has been told is removed when none of its timers is armed. */
  lemma DropInv(s: State, s': State, h: nat, w: nat)
    requires Inv(s, w) && h < |s.cobjs| && s.cobjs[h].live && !Undecided(s.cobjs[h])
    requires s'.tclient == s.tclient - {s.cobjs[h].key} && s'.ctrace == s.ctrace
    requires |s'.cobjs| == |s.cobjs| && s'.cobjs == s.cobjs[h := s'.cobjs[h]]
    requires NothingArmed(s'.cobjs[h])
    requires s'.cobjs[h] == Dropped(s.cobjs[h]).(teC := s'.cobjs[h].teC, teG := s'.cobjs[h].teG)
    ensures Inv(s', w)
  {
    assert ClientTxnOk(s.cobjs[h]);
    hide ClientTable, Branches, Spaced, Outcomes, Provisionals, Deferred, CancelsFollow, OutcomesFollow, Swallowed,
         StuckIn;
    ChangeInv(s, s', h, w);
  }

  lemma TimerCInv(s: State, h: nat, now: real, w: nat)
    requires Inv(s, w) && TimerEnabled(s, h, TC, now)
    ensures Inv(TimerC(s, h), w)
  {
    assert ClientTxnOk(s.cobjs[h]);
    TimerTells(s.cobjs[h]);
    hide Inv, ClientTxnOk;
    DropInv(s, TimerC(s, h), h, w);
  }

  lemma TimerGInv(s: State, h: nat, now: real, w: nat)
    requires Inv(s, w) && TimerEnabled(s, h, TG, now)
    ensures Inv(TimerG(s, h), w)
  {
    TimerTells(s.cobjs[h]);
    assert ClientTxnOk(s.cobjs[h]);
    hide ClientTable, Branches;
    ChangeInv(s, TimerG(s, h), h, w);
  }

  lemma SendAckInv(s: State, h: nat, w: nat)
    requires Inv(s, w) && h < |s.cobjs| && s.cobjs[h].live && s.cobjs[h].state == CUack
    ensures Inv(SendAck(s, h), w)
  {
    assert ClientTxnOk(s.cobjs[h]);
    hide Inv, ClientTxnOk;
    DropInv(s, SendAck(s, h), h, w);
  }

  /** The TU's two marks on a transaction do not matter to its timers. */
  lemma FlagsOk(t: ClientTxn, uack: bool, pending: bool)
    requires ClientTxnOk(t) && (pending ==> t.key.verb == INVITE)
    ensures ClientTxnOk(t.(uack := uack, cancelPending := pending))
  {
  }

  lemma SetUackInv(s: State, h: nat, w: nat)
    requires Inv(s, w) && h < |s.cobjs| && s.cobjs[h].live
    ensures Inv(s.(cobjs := s.cobjs[h := s.cobjs[h].(uack := true)]), w)
  {
    FlagsOk(s.cobjs[h], true, s.cobjs[h].cancelPending);
    var s' := s.(cobjs := s.cobjs[h := s.cobjs[h].(uack := true)]);
    hide ClientTable, Branches, ClientTxnOk, Outcomes, Swallowed, Provisionals, Deferred, CancelsFollow, OutcomesFollow,
         StuckIn;
    assert Story(s', w);
    hide Story;
    ChangeInv(s, s', h, w);
  }
}
