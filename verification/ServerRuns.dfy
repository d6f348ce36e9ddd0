/** Server transactions over whole runs: the table, the final response, the callbacks, the timers, and the promise
    that a repeated INVITE datagram reaches the TU once. */
module ServerRuns {
  import opened Basics
  import opened TwoGeneration
  import opened SipTransactions

  // ----- What every reachable state satisfies -----

  /** Every key of the table leads to the live transaction that carries this key. */
  ghost predicate ServerTable(s: State) {
    && (forall k :: k in s.tserver ==>
          s.tserver[k] < |s.sobjs| && s.sobjs[s.tserver[k]].live && s.sobjs[s.tserver[k]].key == k)
    && (forall h :: 0 <= h < |s.sobjs| && s.sobjs[h].live ==>
          s.sobjs[h].key in s.tserver && s.tserver[s.sobjs[h].key] == h)
  }

  /** An INVITE whose final response waits for its ACK. */
  ghost predicate AwaitsAck(t: ServerTxn) {
    && IsInvite(t) && t.state == SCompleted && t.data.Some?
    && t.teE.None? && t.teF.None? && t.teA.Some?
    && |t.sends| >= 1 && t.teD == Some(t.sends[0] + 32.0)
    && t.tout == 0.5 * Pow2(|t.sends| - 1) as real
    && t.teA.value >= t.sends[0] + Backoff(|t.sends|)
  }

  /** An answered INVITE without a timer: its `noack_cb` has raised, and nothing will remove it. */
  predicate Abandoned(t: ServerTxn) {
    t.live && IsInvite(t) && !Open(t) && t.teD.None?
  }

  ghost predicate AwaitsTu(t: ServerTxn) {
    && t.origin.Request? && t.key == BranchKey(t.origin) && t.sends == []
    && t.teA.None? && t.teD.None?
    && t.teE == (if IsInvite(t) then Some(t.born + Expiry(t.origin.expires)) else None)
  }

  ghost predicate ServerTxnOk(t: ServerTxn) {
    && t.origin.Request? && t.origin.verb != ACK && t.origin.verb != CANCEL
    && (t.live ==> if Open(t) then AwaitsTu(t) else AwaitsAck(t) || Abandoned(t))
    && (!t.live || Abandoned(t) ==> NothingArmed(t))
    && (IsInvite(t) && Open(t) ==> t.live)
    && Spaced(t.sends)
  }

  predicate NothingArmed(t: ServerTxn) {
    t.teA.None? && t.teD.None? && t.teE.None? && t.teF.None?
  }

  ghost predicate TxnsOk(s: State) {
    forall h :: 0 <= h < |s.sobjs| ==> ServerTxnOk(s.sobjs[h])
  }

  /** How many final responses the transaction `w` sent, and how often its ACK callbacks ran. */
  function Finals(trace: seq<ServerEvent>, w: nat): nat {
    if trace == [] then 0
    else Finals(trace[..|trace| - 1], w) + if trace[|trace| - 1].Final? && trace[|trace| - 1].h == w then 1 else 0
  }

  function AckCalls(trace: seq<ServerEvent>, w: nat): nat {
    if trace == [] then 0
    else AckCalls(trace[..|trace| - 1], w)
         + if trace[|trace| - 1] == AckCb(w) || trace[|trace| - 1] == NoAckCb(w) then 1 else 0
  }

  /** How many responses went past the transaction `w`. */
  function Refusals(trace: seq<ServerEvent>, w: nat): nat {
    if trace == [] then 0
    else Refusals(trace[..|trace| - 1], w) + if trace[|trace| - 1] == Refused(w) then 1 else 0
  }

  /** One final response once the transaction has left Trying and Ringing, at most one that went past it, and at most
      one of the two ACK callbacks, only when it is gone or abandoned. */
  ghost predicate Calls(s: State, w: nat) {
    && Finals(s.strace, w) == (if w < |s.sobjs| && !Open(s.sobjs[w]) then 1 else 0)
    && Refusals(s.strace, w) <= (if w < |s.sobjs| then 1 else 0)
    && AckCalls(s.strace, w) <= (if w < |s.sobjs| && (!s.sobjs[w].live || Abandoned(s.sobjs[w])) then 1 else 0)
    && (w < |s.sobjs| && Abandoned(s.sobjs[w]) ==> AckCalls(s.strace, w) == 1)
  }

  /** No other live transaction holds the To-tag key that a final response to INVITE moves to. */
  ghost predicate TagFree(s: State, h: nat, r: Reply)
    requires h < |s.sobjs|
  {
    var t := s.sobjs[h];
    r.code >= 200 && IsInvite(t) && NewKey(t, r) in s.tserver ==> NewKey(t, r) == t.key
  }

  // ----- The history of one datagram -----

  datatype Status = Never | Pending | Answered(purges: nat)

  /** Where a datagram stands after a trace: with the TU, or answered and this many purges old. */
  function StatusOf(trace: seq<ServerEvent>, d: Datagram): Status {
    if trace == [] then Never
    else
      NextStatus(StatusOf(trace[..|trace| - 1], d), trace[|trace| - 1], d)
  }

  function NextStatus(was: Status, e: ServerEvent, d: Datagram): Status {
    match e
    case Handed(d') => if d' == d then Pending else was
    case Final(_, d') => if d' == d then Answered(0) else was
    case Purged => if was.Answered? then Answered(was.purges + 1) else was
    case _ => was
  }

  /** No handover of `d` happens while it is with the TU or answered less than two purges ago. */
  predicate HandoversOk(trace: seq<ServerEvent>, d: Datagram) {
    trace == [] ||
    (var was := trace[..|trace| - 1];
     && HandoversOk(was, d)
     && (trace[|trace| - 1] == Handed(d) ==> MayHandOver(StatusOf(was, d))))
  }

  predicate MayHandOver(was: Status) {
    was.Never? || (was.Answered? && was.purges >= 2)
  }

  lemma TraceSnoc(trace: seq<ServerEvent>, e: ServerEvent, w: nat, d: Datagram)
    ensures StatusOf(trace + [e], d) == NextStatus(StatusOf(trace, d), e, d)
    ensures HandoversOk(trace + [e], d)
            == (HandoversOk(trace, d) && (e == Handed(d) ==> MayHandOver(StatusOf(trace, d))))
    ensures Finals(trace + [e], w) == Finals(trace, w) + (if e.Final? && e.h == w then 1 else 0)
    ensures AckCalls(trace + [e], w) == AckCalls(trace, w) + (if e == AckCb(w) || e == NoAckCb(w) then 1 else 0)
    ensures Refusals(trace + [e], w) == Refusals(trace, w) + (if e == Refused(w) then 1 else 0)
  {
    assert (trace + [e])[..|trace|] == trace;
  }

  predicate OpenFor(s: State, d: Datagram)
    requires d.Request?
  {
    var k := BranchKey(d);
    k in s.tserver && s.tserver[k] < |s.sobjs| && s.sobjs[s.tserver[k]].origin == d && Open(s.sobjs[s.tserver[k]])
  }

  /** The reply cache holds a final response to `d`. */
  predicate FinalCached(s: State, d: Datagram) {
    match Lookup(s.cache, d)
    case Some(e) => e.Some? && e.value.Answer? && e.value.code >= 200 && e.value.request == d
    case None => false
  }

  /** How the manager keeps its promise about `d`: by the branch-keyed entry while the TU works on it, and by the
      two generations of the reply cache afterwards. */
  ghost predicate Tracked(s: State, d: Datagram)
    requires d.Request?
  {
    && HandoversOk(s.strace, d)
    && match StatusOf(s.strace, d)
       case Never => true
       case Pending => OpenFor(s, d)
       case Answered(n) =>
         n < 2 ==> !OpenFor(s, d) && FinalCached(s, d) && (n == 0 ==> d in s.cache.cur)
  }

  /** The invariant, as seen by one transaction `w` and one datagram `d`. */
  ghost predicate Inv(s: State, w: nat, d: Datagram) {
    && ServerTable(s) && TxnsOk(s) && Calls(s, w)
    && (Watched(d) ==> Tracked(s, d))
  }

  // ----- Each operation keeps it -----

  lemma InitInv(provRetr: real, clock: real, w: nat, d: Datagram)
    ensures Inv(Init(provRetr, clock), w, d)
  {
  }

  predicate Watched(d: Datagram) {
    d.Request? && d.verb == INVITE
  }

  predicate Guarded(trace: seq<ServerEvent>, d: Datagram) {
    StatusOf(trace, d).Answered? && StatusOf(trace, d).purges < 2
  }

  /** While an answered datagram is guarded by the reply cache, a step leaves its entry there. */
  ghost predicate CacheKeeps(s: State, s': State, d: Datagram) {
    Watched(d) && Guarded(s.strace, d) ==>
      (FinalCached(s, d) ==> FinalCached(s', d)) && (d in s.cache.cur ==> d in s'.cache.cur)
  }

  // A transaction changes, but not its key, its request or whether it has been answered.

  ghost predicate Keeps(s: State, s': State, h: nat) {
    && h < |s.sobjs| && |s'.sobjs| == |s.sobjs| && s'.sobjs == s.sobjs[h := s'.sobjs[h]]
    && s'.tserver == s.tserver
    && s'.sobjs[h].key == s.sobjs[h].key && s'.sobjs[h].origin == s.sobjs[h].origin
    && s'.sobjs[h].live == s.sobjs[h].live && Open(s'.sobjs[h]) == Open(s.sobjs[h])
  }

  /** It is not abandoned by this, and nobody is told. */
  ghost predicate Updates(s: State, s': State, h: nat) {
    && Keeps(s, s', h)
    && s'.strace == s.strace && s'.sobjs[h].teD.Some? == s.sobjs[h].teD.Some?
  }

  lemma UpdateTable(s: State, s': State, h: nat)
    requires Keeps(s, s', h) && ServerTable(s)
    ensures ServerTable(s')
  {
    hide Open;
  }

  lemma UpdateTxns(s: State, s': State, h: nat)
    requires TxnsOk(s) && h < |s.sobjs| && |s'.sobjs| == |s.sobjs|
    requires s'.sobjs == s.sobjs[h := s'.sobjs[h]] && ServerTxnOk(s'.sobjs[h])
    ensures TxnsOk(s')
  {
    hide ServerTxnOk;
  }

  lemma UpdateTracked(s: State, s': State, h: nat, d: Datagram)
    requires Keeps(s, s', h) && ServerTable(s) && Watched(d) && CacheKeeps(s, s', d) && Tracked(s, d)
    requires StatusOf(s'.strace, d) == StatusOf(s.strace, d) && HandoversOk(s'.strace, d) == HandoversOk(s.strace, d)
    ensures Tracked(s', d)
  {
    hide Open, FinalCached;
  }

  lemma KeepInv(s: State, s': State, h: nat, w: nat, d: Datagram)
    requires Inv(s, w, d) && Keeps(s, s', h) && ServerTxnOk(s'.sobjs[h]) && CacheKeeps(s, s', d) && Calls(s', w)
    requires Watched(d) ==>
               StatusOf(s'.strace, d) == StatusOf(s.strace, d) && HandoversOk(s'.strace, d) == HandoversOk(s.strace, d)
    ensures Inv(s', w, d)
  {
    hide ServerTable, TxnsOk, ServerTxnOk, Tracked, CacheKeeps, Open, Calls;
    UpdateTable(s, s', h);
    UpdateTxns(s, s', h);
    if Watched(d) {
      UpdateTracked(s, s', h, d);
    }
  }

  lemma UpdateInv(s: State, s': State, h: nat, w: nat, d: Datagram)
    requires Inv(s, w, d) && Updates(s, s', h) && ServerTxnOk(s'.sobjs[h]) && CacheKeeps(s, s', d)
    ensures Inv(s', w, d)
  {
    hide ServerTable, TxnsOk, ServerTxnOk, Tracked, CacheKeeps, Open;
    assert Calls(s', w);
    hide Calls, Keeps;
    KeepInv(s, s', h, w, d);
  }

  // A transaction that is not an unanswered INVITE leaves the table.

  ghost predicate Removes(s: State, s': State, h: nat) {
    && h < |s.sobjs| && |s'.sobjs| == |s.sobjs| && s'.sobjs == s.sobjs[h := s'.sobjs[h]]
    && s.sobjs[h].live && !s'.sobjs[h].live && s'.tserver == s.tserver - {s.sobjs[h].key}
    && s'.sobjs[h].origin == s.sobjs[h].origin
    && !(IsInvite(s.sobjs[h]) && Open(s.sobjs[h]))
  }

  lemma RemoveTable(s: State, s': State, h: nat)
    requires Removes(s, s', h) && ServerTable(s)
    ensures ServerTable(s')
  {
    hide Open, IsInvite;
  }

  lemma RemoveTracked(s: State, s': State, h: nat, d: Datagram)
    requires Removes(s, s', h) && ServerTable(s) && Watched(d)
    requires CacheKeeps(s, s', d) && Tracked(s, d)
    requires StatusOf(s'.strace, d) == StatusOf(s.strace, d) && HandoversOk(s'.strace, d) == HandoversOk(s.strace, d)
    ensures Tracked(s', d)
  {
    hide FinalCached;
  }

  lemma RemoveInv(s: State, s': State, h: nat, w: nat, d: Datagram)
    requires Inv(s, w, d) && Removes(s, s', h) && ServerTxnOk(s'.sobjs[h]) && CacheKeeps(s, s', d)
    requires Calls(s', w)
    requires Watched(d) ==>
               StatusOf(s'.strace, d) == StatusOf(s.strace, d) && HandoversOk(s'.strace, d) == HandoversOk(s.strace, d)
    ensures Inv(s', w, d)
  {
    hide ServerTable, TxnsOk, ServerTxnOk, Tracked, CacheKeeps, Open, Calls;
    RemoveTable(s, s', h);
    UpdateTxns(s, s', h);
    if Watched(d) {
      RemoveTracked(s, s', h, d);
    }
  }

  /** A transaction without timers, that is not an unanswered INVITE, may leave. */
  lemma GoneOk(t: ServerTxn, t': ServerTxn)
    requires ServerTxnOk(t) && t'.origin == t.origin && t'.sends == t.sends
    requires !t'.live && NothingArmed(t')
    requires !(IsInvite(t') && Open(t'))
    ensures ServerTxnOk(t')
  {
  }

  // ----- Responses -----

  lemma ProvisionalTxnOk(t: ServerTxn, pkt: Packet, code: int, provRetr: real, now: real)
    requires ServerTxnOk(t) && Open(t) && t.live
    ensures ServerTxnOk(ProvisionalTxn(t, pkt, code, provRetr, now))
  {
  }

  lemma CompletedTxnOk(t: ServerTxn, pkt: Packet, key: ServerKey, ackCb: bool, now: real)
    requires ServerTxnOk(t) && Open(t) && t.live && IsInvite(t)
    ensures ServerTxnOk(CompletedTxn(t, pkt, key, ackCb, now))
  {
    assert Pow2(0) == 1 && Pow2(1) == 2;
  }

  lemma RememberInv(s: State, d': Datagram, entry: Option<Packet>, w: nat, d: Datagram)
    requires Inv(s, w, d)
    requires d' == d ==> Lookup(s.cache, d).None?
    ensures Inv(Remember(s, d', entry), w, d)
  {
  }

  /** The transaction of an open INVITE is the one its branch key leads to. */
  lemma OpenIsTracked(s: State, h: nat, w: nat, d: Datagram)
    requires Inv(s, w, d) && h < |s.sobjs| && s.sobjs[h].live && Open(s.sobjs[h])
    requires s.sobjs[h].origin == d && Watched(d)
    ensures OpenFor(s, d) && !Guarded(s.strace, d)
  {
  }

  lemma ProvisionallyInv(s: State, h: nat, r: Reply, now: real, w: nat, d: Datagram)
    requires Inv(s, w, d) && h < |s.sobjs| && s.sobjs[h].live && Open(s.sobjs[h]) && r.code < 200
    ensures Inv(Provisionally(s, h, r, now), w, d)
  {
    hide ServerTable, Tracked, Calls, ServerTxnOk;
    if s.sobjs[h].origin == d && Watched(d) {
      OpenIsTracked(s, h, w, d);
    }
    var t := s.sobjs[h];
    ProvisionalTxnOk(t, Answer(r.code, t.origin, ToTag(r)), r.code, s.provRetr, now);
    UpdateInv(s, Provisionally(s, h, r, now), h, w, d);
  }

  lemma FinallyInviteTable(s: State, h: nat, r: Reply, now: real)
    requires ServerTable(s) && h < |s.sobjs| && s.sobjs[h].live
    requires NewKey(s.sobjs[h], r) in s.tserver ==> NewKey(s.sobjs[h], r) == s.sobjs[h].key
    ensures ServerTable(FinallyInvite(s, h, r, now))
  {
    hide Open, ToTag;
  }

  /** The move to the To-tag key keeps the table whole exactly when no other live transaction holds that key;
      otherwise the holder is left without an entry. */
  lemma TagMustBeFree(s: State, h: nat, r: Reply, now: real)
    requires ServerTable(s) && h < |s.sobjs| && s.sobjs[h].live && IsInvite(s.sobjs[h]) && r.code >= 200
    ensures ServerTable(FinallyInvite(s, h, r, now)) <==> TagFree(s, h, r)
  {
    hide Open, ToTag;
    var key := NewKey(s.sobjs[h], r);
    if TagFree(s, h, r) {
      FinallyInviteTable(s, h, r, now);
    } else {
      var g := s.tserver[key];
      var s' := FinallyInvite(s, h, r, now);
      assert s'.sobjs[g] == s.sobjs[g] && s'.tserver[s'.sobjs[g].key] == h;
    }
  }

  lemma FinallyInviteOther(s: State, h: nat, r: Reply, now: real, d: Datagram)
    requires ServerTable(s) && h < |s.sobjs| && s.sobjs[h].live && Watched(d) && s.sobjs[h].origin != d
    requires NewKey(s.sobjs[h], r) in s.tserver ==> NewKey(s.sobjs[h], r) == s.sobjs[h].key
    ensures var s' := FinallyInvite(s, h, r, now);
            && OpenFor(s', d) == OpenFor(s, d) && FinalCached(s', d) == FinalCached(s, d)
            && (d in s'.cache.cur <==> d in s.cache.cur)
  {
    hide ToTag;
  }

  lemma FinallyInviteTrace(s: State, h: nat, r: Reply, now: real)
    requires h < |s.sobjs|
    ensures FinallyInvite(s, h, r, now).strace == s.strace + [Final(h, s.sobjs[h].origin)]
  {
  }

  lemma FinallyInviteOwn(s: State, h: nat, r: Reply, now: real, d: Datagram)
    requires ServerTable(s) && h < |s.sobjs| && s.sobjs[h].live && Watched(d) && s.sobjs[h].origin == d
    requires s.sobjs[h].key == BranchKey(d) && r.code >= 200
    requires NewKey(s.sobjs[h], r) in s.tserver ==> NewKey(s.sobjs[h], r) == s.sobjs[h].key
    ensures var s' := FinallyInvite(s, h, r, now);
            !OpenFor(s', d) && FinalCached(s', d) && d in s'.cache.cur
  {
    hide ToTag;
  }

  /** A final response to another transaction, or the one that turns `d` from pending to answered. */
  lemma FinallyInviteTracked(s: State, h: nat, r: Reply, now: real, d: Datagram)
    requires ServerTable(s) && h < |s.sobjs| && s.sobjs[h].live && r.code >= 200
    requires NewKey(s.sobjs[h], r) in s.tserver ==> NewKey(s.sobjs[h], r) == s.sobjs[h].key
    requires Watched(d) && Tracked(s, d)
    requires s.sobjs[h].origin == d ==> s.sobjs[h].key == BranchKey(d)
    ensures Tracked(FinallyInvite(s, h, r, now), d)
  {
    hide FinallyInvite, OpenFor, FinalCached, NewKey, StatusOf, HandoversOk, ServerTable;
    FinallyInviteTrace(s, h, r, now);
    TraceSnoc(s.strace, Final(h, s.sobjs[h].origin), 0, d);
    if s.sobjs[h].origin == d {
      FinallyInviteOwn(s, h, r, now, d);
    } else {
      FinallyInviteOther(s, h, r, now, d);
    }
  }

  /** One final response more, of a transaction that was open. */
  lemma FinallyInviteCalls(s: State, h: nat, r: Reply, now: real, w: nat)
    requires h < |s.sobjs| && s.sobjs[h].live && Open(s.sobjs[h]) && Calls(s, w)
    ensures Calls(FinallyInvite(s, h, r, now), w)
  {
    hide ToTag;
    TraceSnoc(s.strace, Final(h, s.sobjs[h].origin), w, s.sobjs[h].origin);
  }

  lemma FinallyInviteInv(s: State, h: nat, r: Reply, now: real, w: nat, d: Datagram)
    requires Inv(s, w, d) && h < |s.sobjs| && s.sobjs[h].live && Open(s.sobjs[h]) && r.code >= 200
    requires IsInvite(s.sobjs[h]) && TagFree(s, h, r)
    ensures Inv(FinallyInvite(s, h, r, now), w, d)
  {
    hide ServerTable, Tracked, ServerTxnOk, ToTag, Calls, Open;
    var t := s.sobjs[h];
    CompletedTxnOk(t, Answer(r.code, t.origin, ToTag(r)), NewKey(t, r), r.ackCb, now);
    FinallyInviteTable(s, h, r, now);
    FinallyInviteCalls(s, h, r, now, w);
    UpdateTxns(s, FinallyInvite(s, h, r, now), h);
    if Watched(d) {
      OpenKey(t);
      FinallyInviteTracked(s, h, r, now, d);
    }
  }

  lemma OpenKey(t: ServerTxn)
    requires ServerTxnOk(t) && t.live && Open(t)
    ensures t.origin.Request? && t.key == BranchKey(t.origin)
  {
  }

  /** An unanswered transaction has timer E, if it is an INVITE, and perhaps F; nothing else is armed. */
  lemma OpenTimers(t: ServerTxn)
    requires ServerTxnOk(t) && t.live && Open(t)
    ensures t.teA.None? && t.teD.None? && (t.teE.Some? <==> IsInvite(t))
  {
  }

  lemma FinallyOtherInv(s: State, h: nat, r: Reply, w: nat, d: Datagram)
    requires Inv(s, w, d) && h < |s.sobjs| && s.sobjs[h].live && Open(s.sobjs[h]) && !IsInvite(s.sobjs[h])
    ensures Inv(FinallyOther(s, h, r), w, d)
  {
    OpenTimers(s.sobjs[h]);
    hide ServerTable, Tracked, ServerTxnOk, ToTag;
    var s' := FinallyOther(s, h, r);
    GoneOk(s.sobjs[h], s'.sobjs[h]);
    TraceSnoc(s.strace, Final(h, s.sobjs[h].origin), w, d);
    RemoveInv(s, s', h, w, d);
  }

  /** A response that the manager accepts. */
  lemma RespondInv(s: State, h: nat, r: Reply, retrans: bool, now: real, w: nat, d: Datagram)
    requires Inv(s, w, d) && h < |s.sobjs| && s.sobjs[h].live && Open(s.sobjs[h]) && TagFree(s, h, r)
    ensures Inv(Respond(s, h, r, retrans, now), w, d)
  {
    hide Inv;
    if r.code < 200 {
      ProvisionallyInv(s, h, r, now, w, d);
    } else if IsInvite(s.sobjs[h]) {
      FinallyInviteInv(s, h, r, now, w, d);
    } else {
      FinallyOtherInv(s, h, r, w, d);
    }
  }

  // ----- Requests -----

  lemma TuRespondInv(s: State, call: TuCall, now: real, w: nat, d: Datagram)
    requires Inv(s, w, d) && Shape(s)
    requires call.key in s.tserver ==> TagFree(s, s.tserver[call.key], call.reply)
    ensures Inv(TuRespond(s, call, now), w, d)
  {
    if call.key in s.tserver && Open(s.sobjs[s.tserver[call.key]]) {
      RespondInv(s, s.tserver[call.key], call.reply, false, now, w, d);
    }
  }

  ghost predicate CallsEnabled(s: State, calls: seq<TuCall>, now: real)
    requires Shape(s)
    decreases |calls|
  {
    calls == [] ||
    (&& (calls[0].key in s.tserver ==> TagFree(s, s.tserver[calls[0].key], calls[0].reply))
     && (RespondShape(s, calls[0], now); CallsEnabled(TuRespond(s, calls[0], now), calls[1..], now)))
  }

  /** The calls that the TU makes from inside its callback never discard a transaction. */
  lemma {:induction false} TuCallsInv(s: State, calls: seq<TuCall>, now: real, h: nat, w: nat, d: Datagram)
    requires Inv(s, w, d) && Shape(s) && CallsEnabled(s, calls, now)
    requires h < |s.sobjs| && (s.sobjs[h].live || !Open(s.sobjs[h]))
    ensures Inv(TuCalls(s, calls, now), w, d)
    ensures h < |TuCalls(s, calls, now).sobjs|
    ensures TuCalls(s, calls, now).sobjs[h].live || !Open(TuCalls(s, calls, now).sobjs[h])
    decreases |calls|
  {
    hide Inv, TagFree;
    if calls != [] {
      TuRespondInv(s, calls[0], now, w, d);
      RespondShape(s, calls[0], now);
      TuCallsInv(TuRespond(s, calls[0], now), calls[1..], now, h, w, d);
    }
  }

  lemma SetCallbacksInv(s: State, h: nat, cancelCb: bool, noackCb: bool, w: nat, d: Datagram)
    requires Inv(s, w, d) && h < |s.sobjs|
    ensures Inv(s.(sobjs := s.sobjs[h := s.sobjs[h].(cancelCb := cancelCb, noackCb := noackCb)]), w, d)
  {
    var s' := s.(sobjs := s.sobjs[h := s.sobjs[h].(cancelCb := cancelCb, noackCb := noackCb)]);
    assert ServerTxnOk(s.sobjs[h]);
    hide ServerTable, Tracked;
    UpdateInv(s, s', h, w, d);
  }

  lemma DropServerInv(s: State, h: nat, w: nat, d: Datagram)
    requires Inv(s, w, d) && h < |s.sobjs| && s.sobjs[h].live && !(IsInvite(s.sobjs[h]) && Open(s.sobjs[h]))
    requires NothingArmed(s.sobjs[h])
    ensures Inv(DropServer(s, h), w, d)
  {
    hide ServerTable, Tracked, ServerTxnOk;
    var s' := DropServer(s, h);
    GoneOk(s.sobjs[h], s'.sobjs[h]);
    RemoveInv(s, s', h, w, d);
  }

  lemma FinishHandoverInv(s: State, h: nat, ret: Option<TuReturn>, now: real, w: nat, d: Datagram)
    requires Inv(s, w, d) && h < |s.sobjs| && (s.sobjs[h].live || !Open(s.sobjs[h]))
    requires ret.Some? && ret.value.reply.Some? ==> TagFree(s, h, ret.value.reply.value)
    ensures Inv(FinishHandover(s, h, ret, now), w, d)
  {
    var t := s.sobjs[h];
    match ret
    case None =>
      assert ServerTxnOk(t);
      if !t.live {
        UpdateInv(s, s.(sobjs := s.sobjs[h := Cleaned(t)]), h, w, d);
      } else if NothingArmed(t) {
        DropServerInv(s, h, w, d);
      }
    case Some(r) =>
      SetCallbacksInv(s, h, r.cancelCb, r.noackCb, w, d);
      var s1 := s.(sobjs := s.sobjs[h := t.(cancelCb := r.cancelCb, noackCb := r.noackCb)]);
      hide Inv;
      if r.reply.Some? && Open(t) {
        RespondInv(s1, h, r.reply.value, false, now, w, d);
      }
  }

  lemma AddServerTable(s: State, d': Datagram, now: real)
    requires ServerTable(s) && d'.Request? && BranchKey(d') !in s.tserver
    ensures ServerTable(AddServer(s, d', now))
  {
  }

  lemma AddServerTxns(s: State, d': Datagram, now: real)
    requires TxnsOk(s) && d'.Request? && d'.verb != ACK && d'.verb != CANCEL
    ensures TxnsOk(AddServer(s, d', now))
  {
    assert ServerTxnOk(NewServerTxn(d', now));
    hide ServerTxnOk;
  }

  lemma AddServerTracked(s: State, d': Datagram, now: real, d: Datagram)
    requires ServerTable(s) && Watched(d) && Tracked(s, d)
    requires d'.Request? && BranchKey(d') !in s.tserver && Lookup(s.cache, d').None?
    ensures Tracked(AddServer(s, d', now), d)
    ensures Tracked(Log(AddServer(s, d', now), Handed(d')), d)
  {
    TraceSnoc(s.strace, Handed(d'), 0, d);
    var s' := AddServer(s, d', now);
    assert FinalCached(s', d) == FinalCached(s, d) && (OpenFor(s, d) ==> OpenFor(s', d));
    assert d != d' ==> OpenFor(s', d) == OpenFor(s, d);
    assert d == d' ==> OpenFor(s', d) && !OpenFor(s, d);
  }

  lemma AddServerCalls(s: State, d': Datagram, now: real, w: nat)
    requires Calls(s, w) && d'.Request?
    ensures Calls(AddServer(s, d', now), w)
    ensures Calls(Log(AddServer(s, d', now), Handed(d')), w)
  {
    TraceSnoc(s.strace, Handed(d'), w, d');
  }

  lemma AddServerInv(s: State, d': Datagram, now: real, w: nat, d: Datagram)
    requires Inv(s, w, d) && d'.Request? && d'.verb != ACK && d'.verb != CANCEL
    requires BranchKey(d') !in s.tserver && Lookup(s.cache, d').None?
    ensures Inv(AddServer(s, d', now), w, d)
    ensures Inv(Log(AddServer(s, d', now), Handed(d')), w, d)
  {
    AddServerTable(s, d', now);
    AddServerTxns(s, d', now);
    AddServerCalls(s, d', now, w);
    if Watched(d) {
      AddServerTracked(s, d', now, d);
    }
    var s1 := AddServer(s, d', now);
    var s2 := Log(s1, Handed(d'));
    assert ServerTable(s2) == ServerTable(s1) && TxnsOk(s2) == TxnsOk(s1);
    hide ServerTable, TxnsOk, Calls, Tracked;
  }

  /** The TU may only choose To tags that no live transaction holds; a refusal is a final response. */
  ghost predicate HandoverEnabled(s: State, d: Datagram, tu: TuReaction, now: real)
    requires d.Request? && Shape(s)
  {
    var s1 := Log(AddServer(s, d, now), Handed(d));
    match tu
    case NoTu => true
    case Raised(calls, refusal) => CallsEnabled(s1, calls, now) && (refusal.Some? ==> refusal.value >= 200)
    case Returned(calls, ret) =>
      && CallsEnabled(s1, calls, now)
      && (ret.Some? && ret.value.reply.Some? ==>
            (TuCallsShape(s1, calls, now); TagFree(TuCalls(s1, calls, now), |s.sobjs|, ret.value.reply.value)))
  }

  /** Responses that the TU makes go through transactions. */
  lemma {:induction false} TuCallsRefuseNothing(s: State, calls: seq<TuCall>, now: real, w: nat)
    requires Shape(s)
    ensures Refusals(TuCalls(s, calls, now).strace, w) == Refusals(s.strace, w)
    decreases |calls|
  {
    if calls != [] {
      var s1 := TuRespond(s, calls[0], now);
      RespondShape(s, calls[0], now);
      if calls[0].key in s.tserver {
        var h := s.tserver[calls[0].key];
        TraceSnoc(s.strace, Final(h, s.sobjs[h].origin), w, s.sobjs[h].origin);
      }
      assert Refusals(s1.strace, w) == Refusals(s.strace, w);
      hide TuRespond, Refusals;
      TuCallsRefuseNothing(s1, calls[1..], now, w);
    }
  }

  /** A refusal replaces a cached final response to the same request by another one. */
  lemma RefuseTracked(s: State, h: nat, d': Datagram, code: int, d: Datagram)
    requires Watched(d) && Tracked(s, d) && d'.Request? && code >= 200
    ensures Tracked(Refuse(s, h, d', Some(code)), d)
  {
    TraceSnoc(s.strace, Refused(h), 0, d);
    var s' := Refuse(s, h, d', Some(code));
    assert FinalCached(s, d) ==> FinalCached(s', d);
    assert OpenFor(s', d) == OpenFor(s, d);
    hide FinalCached, OpenFor, StatusOf, HandoversOk;
  }

  lemma RefuseCalls(s: State, h: nat, d': Datagram, code: int, w: nat)
    requires Calls(s, w) && d'.Request? && h < |s.sobjs| && (w == h ==> Refusals(s.strace, w) == 0)
    ensures Calls(Refuse(s, h, d', Some(code)), w)
  {
    TraceSnoc(s.strace, Refused(h), w, d');
    hide Finals, AckCalls, Refusals;
  }

  lemma RefuseInv(s: State, h: nat, d': Datagram, refusal: Option<int>, w: nat, d: Datagram)
    requires Inv(s, w, d) && d'.Request? && (refusal.Some? ==> refusal.value >= 200)
    requires h < |s.sobjs| && (w == h ==> Refusals(s.strace, w) == 0)
    ensures Inv(Refuse(s, h, d', refusal), w, d)
  {
    if refusal.Some? {
      var s' := Refuse(s, h, d', refusal);
      assert ServerTable(s') == ServerTable(s) && TxnsOk(s') == TxnsOk(s);
      hide ServerTable, TxnsOk, Calls, Tracked;
      RefuseCalls(s, h, d', refusal.value, w);
      if Watched(d) {
        RefuseTracked(s, h, d', refusal.value, d);
      }
    }
  }

  lemma HandOverInv(s: State, d': Datagram, tu: TuReaction, now: real, w: nat, d: Datagram)
    requires Inv(s, w, d) && Shape(s) && d'.Request? && d'.verb != ACK && d'.verb != CANCEL
    requires BranchKey(d') !in s.tserver && Lookup(s.cache, d').None? && HandoverEnabled(s, d', tu, now)
    ensures Inv(HandOver(s, d', tu, now), w, d)
  {
    var h := |s.sobjs|;
    AddServerInv(s, d', now, w, d);
    var s1 := Log(AddServer(s, d', now), Handed(d'));
    TraceSnoc(s.strace, Handed(d'), w, d);
    assert w == h ==> Refusals(s1.strace, w) == 0;
    hide Inv, TagFree, Refusals;
    match tu
    case NoTu => RememberInv(AddServer(s, d', now), d', None, w, d);
    case Raised(calls, refusal) =>
      TuCallsInv(s1, calls, now, h, w, d);
      TuCallsRefuseNothing(s1, calls, now, w);
      RefuseInv(TuCalls(s1, calls, now), h, d', refusal, w, d);
    case Returned(calls, ret) =>
      TuCallsInv(s1, calls, now, h, w, d);
      TuCallsShape(s1, calls, now);
      FinishHandoverInv(TuCalls(s1, calls, now), h, ret, now, w, d);
  }

  lemma LogOtherInv(s: State, e: ServerEvent, w: nat, d: Datagram)
    requires Inv(s, w, d) && e.CancelCb?
    ensures Inv(Log(s, e), w, d)
  {
    TraceSnoc(s.strace, e, w, d);
    var s' := Log(s, e);
    assert ServerTable(s') == ServerTable(s) && TxnsOk(s') == TxnsOk(s);
    hide ServerTable, TxnsOk;
  }

  function Reply487(d: Datagram, gen: string): Reply
    requires d.Request?
  {
    Reply(487, d.toTag, gen, false)
  }

  ghost predicate CancelEnabled(s: State, h: nat, gen: string)
    requires h < |s.sobjs|
  {
    s.sobjs[h].origin.Request? ==> TagFree(s, h, Reply487(s.sobjs[h].origin, gen))
  }

  lemma DoCancelInv(s: State, h: nat, gen: string, now: real, w: nat, d: Datagram)
    requires Inv(s, w, d) && h < |s.sobjs| && s.sobjs[h].live && Open(s.sobjs[h]) && CancelEnabled(s, h, gen)
    ensures Inv(DoCancel(s, h, gen, now), w, d)
  {
    var t := s.sobjs[h];
    var s1 := s;
    hide Inv, TagFree, Respond;
    if IsInvite(t) {
      RespondInv(s, h, Reply487(t.origin, gen), true, now, w, d);
      s1 := Respond(s, h, Reply487(t.origin, gen), true, now);
    }
    if t.cancelCb {
      LogOtherInv(s1, CancelCb(h), w, d);
    }
  }

  lemma SendInv(s: State, wire: seq<Packet>, clock: real, w: nat, d: Datagram)
    requires Inv(s, w, d)
    ensures Inv(s.(wire := wire, clock := clock), w, d)
  {
    var s' := s.(wire := wire, clock := clock);
    assert ServerTable(s') == ServerTable(s) && TxnsOk(s') == TxnsOk(s);
    hide ServerTable, TxnsOk;
  }

  lemma TransmitInv(s: State, p: Packet, d': Datagram, w: nat, d: Datagram)
    requires Inv(s, w, d)
    requires d' == d ==> Lookup(s.cache, d).None?
    ensures Inv(Transmit(s, p, d'), w, d)
  {
    hide Inv;
    SendInv(s, s.wire + [p], s.clock, w, d);
    RememberInv(Send(s, p), d', Some(p), w, d);
  }

  /** The ACK of an abandoned INVITE finds no timer D to cancel. */
  lemma AbandonedAckInv(s: State, h: nat, d': Datagram, raises: bool, w: nat, d: Datagram)
    requires Inv(s, w, d) && h < |s.sobjs| && s.sobjs[h].live && s.sobjs[h].state == SCompleted && s.sobjs[h].teD.None?
    ensures Inv(Acked(s, h, d', raises), w, d)
  {
    assert ServerTxnOk(s.sobjs[h]);
    hide ServerTable, Tracked;
    UpdateInv(s, Acked(s, h, d', raises), h, w, d);
  }

  /** What an ACK does before the cache is told. */
  function AckLeaves(s: State, h: nat, raises: bool): State
    requires h < |s.sobjs|
  {
    var t := s.sobjs[h].(state := SConfirmed, teA := None, teD := None, live := false);
    s.(tserver := s.tserver - {t.key}, strace := s.strace + (if t.ackCb then [AckCb(h)] else []),
       sobjs := s.sobjs[h := if t.ackCb && raises then t else Cleaned(t)])
  }

  lemma AckLeavesCalls(s: State, h: nat, raises: bool, w: nat, d: Datagram)
    requires h < |s.sobjs| && s.sobjs[h].live && !Open(s.sobjs[h]) && s.sobjs[h].teD.Some? && Calls(s, w)
    ensures var s' := AckLeaves(s, h, raises);
            && Calls(s', w) && StatusOf(s'.strace, d) == StatusOf(s.strace, d)
            && HandoversOk(s'.strace, d) == HandoversOk(s.strace, d)
  {
    TraceSnoc(s.strace, AckCb(h), w, d);
    assert s.strace + [] == s.strace;
    hide Finals, AckCalls, Refusals, StatusOf, HandoversOk;
  }

  lemma AckInvBeforeCache(s: State, h: nat, raises: bool, w: nat, d: Datagram)
    requires Inv(s, w, d) && h < |s.sobjs| && s.sobjs[h].live && s.sobjs[h].state == SCompleted && s.sobjs[h].teD.Some?
    ensures Inv(AckLeaves(s, h, raises), w, d)
  {
    AnsweredTimers(s.sobjs[h]);
    var s' := AckLeaves(s, h, raises);
    hide ServerTable, ServerTxnOk, Tracked, Calls;
    GoneOk(s.sobjs[h], s'.sobjs[h]);
    AckLeavesCalls(s, h, raises, w, d);
    RemoveInv(s, s', h, w, d);
  }

  lemma AckInv(s: State, h: nat, d': Datagram, raises: bool, w: nat, d: Datagram)
    requires Inv(s, w, d) && h < |s.sobjs| && s.sobjs[h].live && s.sobjs[h].state == SCompleted && s.sobjs[h].teD.Some?
    requires d'.Request? && d'.verb == ACK && Lookup(s.cache, d').None?
    ensures Inv(Acked(s, h, d', raises), w, d)
  {
    AnsweredTimers(s.sobjs[h]);
    AckInvBeforeCache(s, h, raises, w, d);
    hide Inv;
    RememberInv(AckLeaves(s, h, raises), d', None, w, d);
  }

  lemma AnsweredTimers(t: ServerTxn)
    requires ServerTxnOk(t) && t.live && !Open(t)
    ensures t.teE.None? && t.teF.None? && IsInvite(t)
  {
  }

  lemma MatchedInv(s: State, h: nat, d': Datagram, raises: bool, gen: string, now: real, w: nat, d: Datagram)
    requires Inv(s, w, d) && h < |s.sobjs| && s.sobjs[h].live && d'.Request? && Lookup(s.cache, d').None?
    requires d'.verb == CANCEL ==> CancelEnabled(Transmit(s, Answer(200, d', d'.toTag), d'), h, gen)
    ensures Inv(Matched(s, h, d', raises, gen, now), w, d)
  {
    var t := s.sobjs[h];
    hide Inv, TagFree, DoCancel, Transmit, Acked;
    if t.origin.Request? && d'.verb == t.origin.verb {
      if t.data.Some? {
        TransmitInv(s, t.data.value, d', w, d);
      }
    } else if d'.verb == CANCEL {
      TransmitInv(s, Answer(200, d', d'.toTag), d', w, d);
      var s1 := Transmit(s, Answer(200, d', d'.toTag), d');
      if Open(t) {
        DoCancelInv(s1, h, gen, now, w, d);
      }
    } else if d'.verb == ACK && t.state == SCompleted {
      if t.teD.Some? {
        AckInv(s, h, d', raises, w, d);
      } else {
        AbandonedAckInv(s, h, d', raises, w, d);
      }
    }
  }

  // ----- Timers and purges -----

  /** Timer A may run when it is due and, since the dispatcher runs timers in due order, not after timer D. */
  ghost predicate TimerEnabled(s: State, h: nat, timer: ServerTimer, gen: string, now: real) {
    h < |s.sobjs| &&
    var t := s.sobjs[h];
    match timer
    case A => t.teA.Some? && t.teA.value <= now && (t.teD.Some? ==> t.teA.value <= t.teD.value)
    case D(_) => t.teD.Some? && t.teD.value <= now
    case E => t.teE.Some? && t.teE.value <= now && CancelEnabled(s, h, gen)
    case F => t.teF.Some? && t.teF.value <= now
  }

  lemma ResendOk(t: ServerTxn, now: real)
    requires ServerTxnOk(t) && t.teA.Some? && t.teA.value <= now && (t.teD.Some? ==> t.teA.value <= t.teD.value)
    ensures ServerTxnOk(t.(tout := 2.0 * t.tout, teA := Some(now + 2.0 * t.tout), sends := t.sends + [now]))
  {
    BackoffWithin32(|t.sends|);
    assert Pow2(|t.sends| + 1) == 2 * Pow2(|t.sends|) && Pow2(|t.sends|) == 2 * Pow2(|t.sends| - 1);
    var t' := t.(tout := 2.0 * t.tout, teA := Some(now + 2.0 * t.tout), sends := t.sends + [now]);
    assert AwaitsAck(t');
    assert Spaced(t'.sends);
  }

  lemma TimerAInv(s: State, h: nat, now: real, w: nat, d: Datagram)
    requires Inv(s, w, d) && TimerEnabled(s, h, A, "", now)
    ensures Inv(ServerTimerA(s, h, now), w, d)
  {
    hide ServerTable, ServerTxnOk, Tracked, Calls;
    ResendOk(s.sobjs[h], now);
    UpdateInv(s, ServerTimerA(s, h, now), h, w, d);
  }

  lemma WaitingForAck(t: ServerTxn)
    requires ServerTxnOk(t)
    ensures t.teD.Some? ==> t.live && IsInvite(t) && !Open(t)
    ensures t.teE.Some? ==> t.live && IsInvite(t) && Open(t)
  {
  }

  lemma TimerDCalls(s: State, h: nat, raises: bool, w: nat, d: Datagram)
    requires h < |s.sobjs| && s.sobjs[h].live && IsInvite(s.sobjs[h]) && !Open(s.sobjs[h]) && s.sobjs[h].teD.Some?
    requires Calls(s, w)
    ensures var s' := TimerD(s, h, raises);
            && Calls(s', w) && StatusOf(s'.strace, d) == StatusOf(s.strace, d)
            && HandoversOk(s'.strace, d) == HandoversOk(s.strace, d)
  {
    TraceSnoc(s.strace, NoAckCb(h), w, d);
    assert s.strace + [] == s.strace;
    hide Finals, AckCalls, Refusals, StatusOf, HandoversOk;
  }

  lemma TimerDSo(s: State, h: nat, raises: bool)
    requires h < |s.sobjs| && ServerTxnOk(s.sobjs[h]) && s.sobjs[h].teD.Some?
    ensures var s' := TimerD(s, h, raises);
            && s'.cache == s.cache
            && (if s.sobjs[h].noackCb && raises then Keeps(s, s', h) && ServerTxnOk(s'.sobjs[h])
                else Removes(s, s', h) && NothingArmed(s'.sobjs[h]) && s'.sobjs[h].sends == s.sobjs[h].sends
                     && !Open(s'.sobjs[h]))
  {
    hide Spaced, Pow2, Backoff;
  }

  /** Timer D removes the transaction, or leaves it abandoned when `noack_cb` raises. */
  lemma TimerDInv(s: State, h: nat, raises: bool, now: real, w: nat, d: Datagram)
    requires Inv(s, w, d) && TimerEnabled(s, h, D(raises), "", now)
    ensures Inv(TimerD(s, h, raises), w, d)
  {
    var s' := TimerD(s, h, raises);
    assert ServerTxnOk(s.sobjs[h]);
    WaitingForAck(s.sobjs[h]);
    hide ServerTable, ServerTxnOk, Tracked, Calls, TimerD, Keeps;
    TimerDCalls(s, h, raises, w, d);
    TimerDSo(s, h, raises);
    if s.sobjs[h].noackCb && raises {
      KeepInv(s, s', h, w, d);
    } else {
      GoneOk(s.sobjs[h], s'.sobjs[h]);
      RemoveInv(s, s', h, w, d);
    }
  }

  /** When timer E fires, the INVITE is unanswered and gets its 487. */
  lemma TimerEInv(s: State, h: nat, gen: string, now: real, w: nat, d: Datagram)
    requires Inv(s, w, d) && TimerEnabled(s, h, E, gen, now)
    ensures Inv(TimerE(s, h, gen, now), w, d)
  {
    var t := s.sobjs[h];
    WaitingForAck(t);
    hide ServerTable, ServerTxnOk, Tracked, TxnsOk, Calls, TagFree;
    var s1 := s.(sobjs := s.sobjs[h := t.(teE := None, teF := None)]);
    assert s1.sobjs[h := CompletedTxn(s1.sobjs[h], Answer(487, t.origin, ToTag(Reply487(t.origin, gen))),
                                      NewKey(t, Reply487(t.origin, gen)), false, now)]
           == s.sobjs[h := CompletedTxn(t, Answer(487, t.origin, ToTag(Reply487(t.origin, gen))),
                                        NewKey(t, Reply487(t.origin, gen)), false, now)];
    assert DoCancel(s1, h, gen, now) == DoCancel(s, h, gen, now);
    DoCancelInv(s, h, gen, now, w, d);
  }

  lemma RingTimerOk(t: ServerTxn, teF: Option<real>)
    requires ServerTxnOk(t) && t.teF.Some?
    ensures ServerTxnOk(t.(teF := teF))
  {
  }

  lemma TimerFInv(s: State, h: nat, now: real, w: nat, d: Datagram)
    requires Inv(s, w, d) && TimerEnabled(s, h, F, "", now)
    ensures Inv(TimerF(s, h, now), w, d)
  {
    hide ServerTable, ServerTxnOk, Tracked, Calls;
    RingTimerOk(s.sobjs[h], TimerF(s, h, now).sobjs[h].teF);
    UpdateInv(s, TimerF(s, h, now), h, w, d);
  }

  lemma PurgeTracked(s: State, d: Datagram)
    requires Watched(d) && Tracked(s, d)
    ensures Tracked(Purge(s), d)
  {
    TraceSnoc(s.strace, Purged, 0, d);
    assert OpenFor(Purge(s), d) == OpenFor(s, d);
    assert d in s.cache.cur ==> FinalCached(Purge(s), d) == FinalCached(s, d);
  }

  lemma PurgeInv(s: State, w: nat, d: Datagram)
    requires Inv(s, w, d)
    ensures Inv(Purge(s), w, d)
  {
    TraceSnoc(s.strace, Purged, w, d);
    var s' := Purge(s);
    assert ServerTable(s') == ServerTable(s) && TxnsOk(s') == TxnsOk(s);
    hide ServerTable, TxnsOk, Tracked;
    if Watched(d) {
      PurgeTracked(s, d);
    }
  }

  // ----- Datagrams -----

  /** What the environment promises about a datagram's To tags. */
  ghost predicate ReceiveEnabled(s: State, d: Datagram, tu: TuReaction, gen: string, now: real)
    requires Shape(s)
  {
    d.Request? && Lookup(s.cache, d).None? && !LoopDetected(s, d) ==>
      if LookupKey(d) in s.tserver then
        d.verb == CANCEL ==> CancelEnabled(Transmit(s, Answer(200, d, d.toTag), d), s.tserver[LookupKey(d)], gen)
      else
        d.verb != ACK && d.verb != CANCEL ==> HandoverEnabled(s, d, tu, now)
  }

  lemma RequestInv(s: State, d': Datagram, tu: TuReaction, gen: string, now: real, w: nat, d: Datagram)
    requires Inv(s, w, d) && Shape(s) && d'.Request? && Lookup(s.cache, d').None? && ReceiveEnabled(s, d', tu, gen, now)
    ensures Inv(IncomingRequest(s, d', tu, gen, now), w, d)
  {
    hide HandoverEnabled, CancelEnabled, Transmit, HandOver, Matched, TxnsOk, Calls, Tracked;
    if LoopDetected(s, d') {
      TransmitInv(s, Answer(482, d', d'.toTag), d', w, d);
    } else if LookupKey(d') in s.tserver {
      MatchedInv(s, s.tserver[LookupKey(d')], d', tu.Raised?, gen, now, w, d);
    } else if d'.verb == ACK {
      RememberInv(s, d', None, w, d);
    } else if d'.verb == CANCEL {
      TransmitInv(s, Answer(481, d', d'.toTag), d', w, d);
    } else {
      HandOverInv(s, d', tu, now, w, d);
    }
  }

  /** The client side touches the server side only through the reply cache, under keys that are responses. */
  ghost predicate ServerUntouched(s: State, s': State) {
    && s'.tserver == s.tserver && s'.sobjs == s.sobjs && s'.strace == s.strace
    && (s'.cache == s.cache || exists k, v :: !Watched(k) && s'.cache == Store(s.cache, k, v))
  }

  lemma UntouchedInv(s: State, s': State, w: nat, d: Datagram)
    requires Inv(s, w, d) && ServerUntouched(s, s')
    ensures Inv(s', w, d)
  {
    assert ServerTable(s') == ServerTable(s) && TxnsOk(s') == TxnsOk(s);
    hide ServerTable, TxnsOk;
  }

  lemma CancelUntouched(s: State, h: nat, now: real, deferred: bool)
    requires h < |s.cobjs|
    ensures var s' := StartCancel(s, h, now, deferred);
            s'.tserver == s.tserver && s'.sobjs == s.sobjs && s'.strace == s.strace && s'.cache == s.cache
  {
  }

  lemma ProvisionalUntouched(s: State, h: nat, d: Datagram, now: real)
    requires h < |s.cobjs| && d.Response?
    ensures ServerUntouched(s, ProvisionalResponse(s, h, d, now))
  {
    var s1 := LogClient(s.(cobjs := s.cobjs[h := Stopped(s.cobjs[h]).(state := CRinging, rung := Some(now))]),
                        Provisional(h));
    CancelUntouched(s1, h, now, true);
    hide StartCancel;
    var s' := ProvisionalResponse(s, h, d, now);
    assert s'.cache == s.cache || s'.cache == Store(s.cache, d, None);
  }

  lemma FinalUntouched(s: State, h: nat, d: Datagram, raises: bool, now: real)
    requires h < |s.cobjs| && d.Response?
    ensures ServerUntouched(s, FinalResponse(s, h, d, raises, now))
  {
    var s' := FinalResponse(s, h, d, raises, now);
    assert s'.cache == Store(s.cache, d, None) || s'.cache == Store(s.cache, d, Some(Confirm(s.cobjs[h].key, d.toTag)));
  }

  lemma ResponseUntouched(s: State, h: nat, d: Datagram, raises: bool, now: real)
    requires h < |s.cobjs| && d.Response?
    ensures ServerUntouched(s, IncomingResponse(s, h, d, raises, now))
  {
    ProvisionalUntouched(s, h, d, now);
    FinalUntouched(s, h, d, raises, now);
    hide ProvisionalResponse, FinalResponse;
  }

  lemma DatagramInv(s: State, d': Datagram, tu: TuReaction, gen: string, now: real, w: nat, d: Datagram)
    requires Inv(s, w, d) && Shape(s) && ReceiveEnabled(s, d', tu, gen, now)
    ensures Inv(HandleIncoming(s, d', tu, gen, now), w, d)
  {
    var found := Lookup(s.cache, d');
    hide Inv, ReceiveEnabled, IncomingRequest, IncomingResponse, Lookup;
    if d'.Short? {
    } else if found.Some? {
      if found.value.Some? {
        SendInv(s, s.wire + [found.value.value], s.clock, w, d);
      }
    } else {
      match d'
      case Malformed(_, cut) => RememberInv(s, d', None, w, d);
      case Response(code, key, _, _) =>
        if code < 100 || code > 999 || key !in s.tclient {
          RememberInv(s, d', None, w, d);
        } else {
          ResponseUntouched(s, s.tclient[key], d', tu.Raised?, now);
          UntouchedInv(s, IncomingResponse(s, s.tclient[key], d', tu.Raised?, now), w, d);
        }
      case Request(_, _, _, _, _, _, _, _) => RequestInv(s, d', tu, gen, now, w, d);
    }
  }
}
