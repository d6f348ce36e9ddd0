/** What the client side puts on the wire and tells its user, input by input, in the states of runs. */
module SipPackets {
  import opened Basics
  import opened TwoGeneration
  import opened SipTransactions
  import opened SipRuns
  import Server = ServerRuns
  import Client = ClientRuns

  // ----- The response that waits for the TU's ACK -----

  /** A transaction that waits for the TU's ACK keeps the final response with its key; an undecided one has none. */
  predicate AckOk(t: ClientTxn) {
    && (Client.Undecided(t) ==> t.ackSum.None?)
    && (t.ackSum.Some? ==>
          var d := t.ackSum.value;
          d.Response? && d.key == t.key && d.code >= 200 && t.ackTag == d.toTag)
  }

  ghost predicate AcksOk(s: State) {
    forall h :: 0 <= h < |s.cobjs| ==> AckOk(s.cobjs[h])
  }

  lemma OneAckOk(s: State, s': State, h: nat)
    requires AcksOk(s) && h < |s.cobjs| && |s.cobjs| <= |s'.cobjs|
    requires forall g :: 0 <= g < |s.cobjs| && g != h ==> s'.cobjs[g] == s.cobjs[g]
    requires forall g :: |s.cobjs| <= g < |s'.cobjs| ==> s'.cobjs[g].ackSum.None?
    requires AckOk(s'.cobjs[h])
    ensures AcksOk(s')
  {
    hide Client.Undecided;
  }

  lemma ProvisionalAcks(s: State, h: nat, d: Datagram, now: real)
    requires AcksOk(s) && h < |s.cobjs| && d.Response? && Client.Undecided(s.cobjs[h])
    ensures AcksOk(ProvisionalResponse(s, h, d, now))
  {
    assert AckOk(s.cobjs[h]);
    hide AcksOk;
    OneAckOk(s, ProvisionalResponse(s, h, d, now), h);
  }

  lemma FinalAcks(s: State, h: nat, d: Datagram, raises: bool, now: real)
    requires AcksOk(s) && h < |s.cobjs| && d.Response? && d.key == s.cobjs[h].key && d.code >= 200
    requires Client.Undecided(s.cobjs[h])
    ensures AcksOk(FinalResponse(s, h, d, raises, now))
  {
    assert AckOk(s.cobjs[h]);
    Client.FinalChanges(s, h, d, raises, now);
    hide AcksOk, FinalResponse;
    OneAckOk(s, FinalResponse(s, h, d, raises, now), h);
  }

  lemma ResponseAcks(s: State, h: nat, d: Datagram, raises: bool, now: real)
    requires AcksOk(s) && h < |s.cobjs| && s.cobjs[h].live && d.Response? && d.key == s.cobjs[h].key
    ensures AcksOk(IncomingResponse(s, h, d, raises, now))
  {
    hide AcksOk, ProvisionalResponse, FinalResponse;
    if s.cobjs[h].state == CTrying || s.cobjs[h].state == CRinging {
      if d.code < 200 {
        ProvisionalAcks(s, h, d, now);
      } else {
        FinalAcks(s, h, d, raises, now);
      }
    }
  }

  lemma TimerAcks(s: State, h: nat, timer: ClientTimer, now: real)
    requires Shape(s) && AcksOk(s) && h < |s.cobjs|
    ensures AcksOk(StepAt(s, FireClient(h, timer), now))
  {
    assert AckOk(s.cobjs[h]);
    hide AcksOk;
    OneAckOk(s, StepAt(s, FireClient(h, timer), now), h);
  }

  lemma UserAcks(s: State, i: Input, now: real)
    requires Shape(s) && AcksOk(s) && (i.StartClient? || i.SetUack? || i.Cancel? || i.Acknowledge?)
    ensures AcksOk(StepAt(s, i, now))
  {
    if !i.StartClient? && i.ch < |s.cobjs| {
      assert AckOk(s.cobjs[i.ch]);
      hide AcksOk;
      OneAckOk(s, StepAt(s, i, now), i.ch);
    }
  }

  lemma StepAcks(s0: State, i: Input, now: real)
    requires Inv(s0, 0, 0, Short("")) && Shape(s0) && AcksOk(s0)
    ensures AcksOk(Step(s0, i, now))
  {
    var s := s0.(clock := now);
    assert Client.ClientTable(s) && AcksOk(s);
    hide Inv, HandleIncoming, Client.ClientTable, AckOk;
    match i {
      case Receive(d, tu, gen) => ReceiveAcks(s, d, tu, gen, now);
      case FireServer(h, timer, tag) => ServerTimerUntouched(s, h, timer, tag, now);
      case FireClient(h, timer) => if h < |s.cobjs| { TimerAcks(s, h, timer, now); }
      case TuSends(_) =>
      case PurgeCache =>
      case _ => UserAcks(s, i, now);
    }
  }

  lemma ReceiveAcks(s: State, d: Datagram, tu: TuReaction, gen: string, now: real)
    requires Shape(s) && AcksOk(s) && Client.ClientTable(s)
    ensures AcksOk(HandleIncoming(s, d, tu, gen, now))
  {
    hide IncomingRequest, IncomingResponse, Client.ClientTable, Lookup, AckOk;
    if d.Request? {
      RequestUntouched(s, d, tu, gen, now);
    } else if d.Response? && d.key in s.tclient {
      KeyOf(s, d.key);
      ResponseAcks(s, s.tclient[d.key], d, tu.Raised?, now);
    }
  }

  lemma KeyOf(s: State, key: ClientKey)
    requires Client.ClientTable(s) && key in s.tclient
    ensures s.tclient[key] < |s.cobjs| && s.cobjs[s.tclient[key]].key == key && s.cobjs[s.tclient[key]].live
  {
  }

  lemma {:induction false} RunAcks(states: seq<State>, inputs: seq<Input>, times: seq<real>, k: nat)
    requires IsRun(states, inputs, times) && k < |states|
    ensures AcksOk(states[k])
    decreases k
  {
    if k > 0 {
      RunAcks(states, inputs, times, k - 1);
      RunInv(states, inputs, times, k - 1, 0, 0, Short(""));
      InvShape(states[k - 1], 0, 0, Short(""));
      assert Next(states[k - 1], inputs[k - 1], times[k - 1], states[k]);
      StepAcks(states[k - 1], inputs[k - 1], times[k - 1]);
    }
  }

  // ----- Final responses -----

  /** The response `d` comes for the undecided transaction `h`, and the cache does not know it. */
  ghost predicate Arrives(s: State, i: Input, h: nat) {
    && i.Receive? && i.d.Response? && 100 <= i.d.code <= 999 && Lookup(s.cache, i.d).None?
    && h < |s.cobjs| && Client.Undecided(s.cobjs[h]) && i.d.key == s.cobjs[h].key
  }

  lemma ArrivesSo(states: seq<State>, inputs: seq<Input>, times: seq<real>, k: nat, h: nat)
    requires IsRun(states, inputs, times) && k < |inputs| && Arrives(states[k], inputs[k], h)
    ensures var s := states[k].(clock := times[k]);
            && h < |s.cobjs|
            && states[k + 1] == IncomingResponse(s, h, inputs[k].d, inputs[k].tu.Raised?, times[k])
  {
    RunInv(states, inputs, times, k, 0, h, Short(""));
    InvShape(states[k], 0, h, Short(""));
    assert Next(states[k], inputs[k], times[k], states[k + 1]);
    assert Client.ClientTable(states[k]);
    hide IsRun, Inv, IncomingResponse, Client.ClientTable, Lookup, Permits, HandleIncoming;
    SameTable(states[k], times[k]);
    ResponseReaches(states[k].(clock := times[k]), h, inputs[k].d, inputs[k].tu, inputs[k].gen, times[k]);
  }

  /** In every run, a final response to an INVITE is acknowledged at once, under its own To tag, unless the TU wants to
      do that itself; the ACK is also the reply to byte-identical datagrams. Nothing leaves for any other request. The
      TU is told; the transaction is over, unless it waits for the TU's ACK or the callback raised. */
  lemma FinalResponseIsAcked(states: seq<State>, inputs: seq<Input>, times: seq<real>, k: nat, h: nat)
    requires IsRun(states, inputs, times) && k < |inputs| && Arrives(states[k], inputs[k], h) && inputs[k].d.code >= 200
    ensures var (s, s', d, t) := (states[k], states[k + 1], inputs[k].d, states[k].cobjs[h]);
            && |s'.cobjs| == |s.cobjs|
            && (if t.key.verb == INVITE && !t.uack then
                  && s'.wire == s.wire + [Confirm(d.key, d.toTag)]
                  && d in s'.cache.cur && s'.cache.cur[d] == Some(Confirm(d.key, d.toTag))
                else s'.wire == s.wire && d in s'.cache.cur && s'.cache.cur[d] == None)
            && (if t.key.verb == INVITE && t.uack then
                  && s'.cobjs[h].live && s'.cobjs[h].state == CUack && s'.cobjs[h].ackSum == Some(d)
                  && s'.cobjs[h].teG == Some(times[k] + 64.0)
                  && s'.ctrace == s.ctrace + (if t.hasCb then [Told(h, d.code, false)] else [])
                else
                  && s'.cobjs[h].live == (t.hasCb && inputs[k].tu.Raised?)
                  && s'.ctrace == s.ctrace + (if t.hasCb then [Told(h, d.code, inputs[k].tu.Raised?)] else []))
  {
    ArrivesSo(states, inputs, times, k, h);
    hide IsRun, ProvisionalResponse;
    assert states[k].ctrace + [] == states[k].ctrace;
  }

  // ----- The cache keeps what was sent -----

  /** A step that neither purges the cache nor handles `d` leaves the reply to the response `d` where it is. */
  ghost predicate KeepsEntry(s: State, s': State, d: Datagram) {
    && (d in s.cache.cur ==> d in s'.cache.cur && s'.cache.cur[d] == s.cache.cur[d])
    && (d in s.cache.prev ==> d in s'.cache.prev && s'.cache.prev[d] == s.cache.prev[d])
    && (d !in s.cache.cur && d in s.cache.prev ==> d !in s'.cache.cur)
  }

  lemma RespondKeepsEntry(s: State, h: nat, r: Reply, retrans: bool, now: real, d: Datagram)
    requires h < |s.sobjs| && d.Response? && s.sobjs[h].origin.Request?
    ensures KeepsEntry(s, Respond(s, h, r, retrans, now), d)
  {
    hide ToTag, CompletedTxn, ProvisionalTxn, Cleaned;
  }

  ghost predicate FromRequests(s: State) {
    forall h :: 0 <= h < |s.sobjs| ==> s.sobjs[h].origin.Request?
  }

  lemma RespondOrigins(s: State, h: nat, r: Reply, retrans: bool, now: real)
    requires h < |s.sobjs| && FromRequests(s)
    ensures FromRequests(Respond(s, h, r, retrans, now)) && |Respond(s, h, r, retrans, now).sobjs| == |s.sobjs|
  {
    hide ToTag;
  }

  lemma {:induction false} TuCallsKeepEntry(s: State, calls: seq<TuCall>, now: real, d: Datagram)
    requires Shape(s) && FromRequests(s) && d.Response?
    ensures KeepsEntry(s, TuCalls(s, calls, now), d) && FromRequests(TuCalls(s, calls, now))
    decreases |calls|
  {
    if calls != [] {
      RespondShape(s, calls[0], now);
      if calls[0].key in s.tserver {
        RespondKeepsEntry(s, s.tserver[calls[0].key], calls[0].reply, false, now, d);
        RespondOrigins(s, s.tserver[calls[0].key], calls[0].reply, false, now);
      }
      hide Respond, FromRequests;
      TuCallsKeepEntry(TuRespond(s, calls[0], now), calls[1..], now, d);
    }
  }

  lemma FinishKeepsEntry(s: State, h: nat, ret: Option<TuReturn>, now: real, d: Datagram)
    requires h < |s.sobjs| && FromRequests(s) && d.Response?
    ensures KeepsEntry(s, FinishHandover(s, h, ret, now), d)
  {
    match ret
    case None =>
    case Some(r) =>
      if r.reply.Some? {
        var s1 := s.(sobjs := s.sobjs[h := s.sobjs[h].(cancelCb := r.cancelCb, noackCb := r.noackCb)]);
        RespondKeepsEntry(s1, h, r.reply.value, false, now, d);
        hide Respond;
      }
  }

  lemma RequestKeepsEntry(s: State, r: Datagram, tu: TuReaction, gen: string, now: real, d: Datagram)
    requires Shape(s) && FromRequests(s) && r.Request? && d.Response?
    ensures KeepsEntry(s, IncomingRequest(s, r, tu, gen, now), d)
  {
    var s1 := Log(AddServer(s, r, now), Handed(r));
    assert FromRequests(s1);
    if tu.Raised? || tu.Returned? {
      TuCallsKeepEntry(s1, tu.calls, now, d);
      TuCallsShape(s1, tu.calls, now);
      if tu.Returned? {
        FinishKeepsEntry(TuCalls(s1, tu.calls, now), |s.sobjs|, tu.ret, now, d);
      }
    }
    if LookupKey(r) in s.tserver {
      MatchedKeepsEntry(s, s.tserver[LookupKey(r)], r, tu.Raised?, gen, now, d);
    }
    hide TuCalls, FinishHandover, Matched, FromRequests;
  }

  lemma AckedKeepsEntry(s: State, h: nat, r: Datagram, raises: bool, d: Datagram)
    requires h < |s.sobjs| && r.Request? && d.Response?
    ensures KeepsEntry(s, Acked(s, h, r, raises), d)
  {
  }

  lemma MatchedKeepsEntry(s: State, h: nat, r: Datagram, raises: bool, gen: string, now: real, d: Datagram)
    requires h < |s.sobjs| && FromRequests(s) && r.Request? && d.Response?
    ensures KeepsEntry(s, Matched(s, h, r, raises, gen, now), d)
  {
    var s1 := Transmit(s, Answer(200, r, r.toTag), r);
    assert s1.sobjs[h].origin.Request?;
    RespondKeepsEntry(s1, h, Reply(487, s.sobjs[h].origin.toTag, gen, false), true, now, d);
    AckedKeepsEntry(s, h, r, raises, d);
    hide Respond, Acked, FromRequests;
  }

  lemma FinalKeepsEntry(s: State, h: nat, r: Datagram, raises: bool, now: real, d: Datagram)
    requires h < |s.cobjs| && r.Response? && d != r
    ensures KeepsEntry(s, FinalResponse(s, h, r, raises, now), d)
  {
    hide Stopped, UackTxn, Dropped, CancelKey;
  }

  lemma ResponseKeepsEntry(s: State, h: nat, r: Datagram, raises: bool, now: real, d: Datagram)
    requires h < |s.cobjs| && r.Response? && d != r
    ensures KeepsEntry(s, IncomingResponse(s, h, r, raises, now), d)
  {
    var s1 := LogClient(s.(cobjs := s.cobjs[h := Stopped(s.cobjs[h]).(state := CRinging, rung := Some(now))]),
                        Provisional(h));
    Server.CancelUntouched(s1, h, now, true);
    FinalKeepsEntry(s, h, r, raises, now, d);
    hide StartCancel, FinalResponse;
  }

  lemma ReceiveKeepsEntry(s: State, r: Datagram, tu: TuReaction, gen: string, now: real, d: Datagram)
    requires Shape(s) && FromRequests(s) && d.Response? && Lookup(s.cache, d).Some?
    ensures KeepsEntry(s, HandleIncoming(s, r, tu, gen, now), d)
  {
    hide IncomingRequest, IncomingResponse, FromRequests;
    if Lookup(s.cache, r).None? {
      if r.Request? {
        RequestKeepsEntry(s, r, tu, gen, now, d);
      } else if r.Response? && r.key in s.tclient {
        ResponseKeepsEntry(s, s.tclient[r.key], r, tu.Raised?, now, d);
      }
    }
  }

  lemma TimersKeepEntry(s: State, h: nat, timer: ServerTimer, tag: string, now: real, d: Datagram)
    requires Shape(s) && FromRequests(s) && d.Response?
    ensures KeepsEntry(s, StepAt(s, FireServer(h, timer, tag), now), d)
  {
    if h < |s.sobjs| && timer.E? {
      var s1 := s.(sobjs := s.sobjs[h := s.sobjs[h].(teE := None, teF := None)]);
      assert s1.sobjs[h].origin.Request?;
      RespondKeepsEntry(s1, h, Reply(487, s.sobjs[h].origin.toTag, tag, false), true, now, d);
    }
    hide Respond, FromRequests;
  }

  lemma UserKeepsEntry(s: State, i: Input, now: real, d: Datagram)
    requires Shape(s) && (i.StartClient? || i.SetUack? || i.Cancel? || i.Acknowledge? || i.FireClient?)
    requires i.Acknowledge? && i.ch < |s.cobjs| ==> s.cobjs[i.ch].ackSum != Some(d)
    ensures KeepsEntry(s, StepAt(s, i, now), d)
  {
  }

  lemma StepKeepsEntry(s0: State, i: Input, now: real, d: Datagram)
    requires Inv(s0, 0, 0, Short("")) && Shape(s0) && d.Response? && Lookup(s0.cache, d).Some? && !i.PurgeCache?
    requires i.Acknowledge? && i.ch < |s0.cobjs| ==> s0.cobjs[i.ch].ackSum != Some(d)
    ensures KeepsEntry(s0, Step(s0, i, now), d)
  {
    var s := s0.(clock := now);
    forall h | 0 <= h < |s.sobjs| ensures s.sobjs[h].origin.Request? {
      assert Server.ServerTxnOk(s0.sobjs[h]);
    }
    hide Inv, HandleIncoming, Respond;
    match i {
      case Receive(r, tu, gen) => ReceiveKeepsEntry(s, r, tu, gen, now, d);
      case TuSends(call) =>
        if call.key in s.tserver {
          RespondKeepsEntry(s, s.tserver[call.key], call.reply, false, now, d);
        }
      case FireServer(h, timer, tag) => TimersKeepEntry(s, h, timer, tag, now, d);
      case _ => UserKeepsEntry(s, i, now, d);
    }
  }

  /** No transaction waits with the final response `d`. */
  ghost predicate NotWaiting(s: State, d: Datagram) {
    forall g :: 0 <= g < |s.cobjs| ==> s.cobjs[g].ackSum != Some(d)
  }

  lemma StepNotWaiting(s: State, i: Input, now: real, d: Datagram)
    requires Inv(s, 0, 0, Short("")) && Shape(s) && NotWaiting(s, d) && Lookup(s.cache, d).Some?
    ensures NotWaiting(Step(s, i, now), d)
  {
    hide Inv, Step;
    forall g | 0 <= g < |Step(s, i, now).cobjs| ensures Step(s, i, now).cobjs[g].ackSum != Some(d) {
      AckSumComes(s, i, now, g);
    }
  }

  /** How many of the inputs purge the cache. */
  function Purges(inputs: seq<Input>): nat {
    if inputs == [] then 0
    else Purges(inputs[..|inputs| - 1]) + if inputs[|inputs| - 1].PurgeCache? then 1 else 0
  }

  /** The entry as it stands after this many purges. */
  ghost predicate Kept(s: State, d: Datagram, e: Option<Packet>, purges: nat) {
    if purges == 0 then d in s.cache.cur && s.cache.cur[d] == e
    else d !in s.cache.cur && d in s.cache.prev && s.cache.prev[d] == e
  }

  lemma StepKeeps(s: State, i: Input, now: real, d: Datagram, e: Option<Packet>, purges: nat)
    requires Inv(s, 0, 0, Short("")) && Shape(s) && d.Response? && NotWaiting(s, d) && Kept(s, d, e, purges)
    requires purges <= 1 && (i.PurgeCache? ==> purges == 0)
    ensures Kept(Step(s, i, now), d, e, if i.PurgeCache? then 1 else purges) && NotWaiting(Step(s, i, now), d)
  {
    StepNotWaiting(s, i, now, d);
    if !i.PurgeCache? {
      StepKeepsEntry(s, i, now, d);
      hide Step, Inv;
    }
  }

  lemma PurgesSnoc(inputs: seq<Input>, k: nat, m: nat)
    requires k < m <= |inputs|
    ensures Purges(inputs[k..m]) == Purges(inputs[k..m - 1]) + if inputs[m - 1].PurgeCache? then 1 else 0
  {
    assert inputs[k..m][..m - k - 1] == inputs[k..m - 1];
  }

  lemma {:induction false} EntryStays(states: seq<State>, inputs: seq<Input>, times: seq<real>, k: nat, m: nat,
                                      d: Datagram, e: Option<Packet>)
    requires IsRun(states, inputs, times) && k <= m <= |inputs| && d.Response?
    requires NotWaiting(states[k], d) && Kept(states[k], d, e, 0) && Purges(inputs[k..m]) <= 1
    ensures Kept(states[m], d, e, Purges(inputs[k..m])) && NotWaiting(states[m], d)
    decreases m - k
  {
    if k < m {
      hide Inv, Kept, NotWaiting, Step, Enabled, StepAt;
      PurgesSnoc(inputs, k, m);
      EntryStays(states, inputs, times, k, m - 1, d, e);
      RunInv(states, inputs, times, m - 1, 0, 0, Short(""));
      InvShape(states[m - 1], 0, 0, Short(""));
      assert Next(states[m - 1], inputs[m - 1], times[m - 1], states[m]);
      StepKeeps(states[m - 1], inputs[m - 1], times[m - 1], d, e, Purges(inputs[k..m - 1]));
    } else {
      assert inputs[k..m] == [];
    }
  }

  lemma NobodyWaits(states: seq<State>, inputs: seq<Input>, times: seq<real>, k: nat, h: nat)
    requires IsRun(states, inputs, times) && k < |inputs| && Arrives(states[k], inputs[k], h) && inputs[k].d.code >= 200
    requires states[k].cobjs[h].key.verb == INVITE && !states[k].cobjs[h].uack
    ensures NotWaiting(states[k + 1], inputs[k].d)
  {
    ArrivesSo(states, inputs, times, k, h);
    RunAcks(states, inputs, times, k);
    RunInv(states, inputs, times, k, 0, h, Short(""));
    var s, d := states[k], inputs[k].d;
    assert Client.Branches(s);
    Client.FinalChanges(s.(clock := times[k]), h, d, inputs[k].tu.Raised?, times[k]);
    hide IsRun, Inv, FinalResponse, ProvisionalResponse, Client.Branches;
    forall g | 0 <= g < |s.cobjs| ensures s.cobjs[g].ackSum != Some(d) {
      assert AckOk(s.cobjs[g]) && AckOk(s.cobjs[h]);
      SameBranch(s, g, h);
    }
  }

  lemma SameBranch(s: State, g: nat, h: nat)
    requires Client.Branches(s) && g < |s.cobjs| && h < |s.cobjs| && s.cobjs[h].key.verb != CANCEL
    ensures s.cobjs[g].key == s.cobjs[h].key ==> g == h
  {
  }

  /** In every run, a byte-identical duplicate of a final response that was acknowledged gets the same ACK again, as
      long as the cache has been purged at most once since. */
  lemma DuplicateIsAckedAgain(states: seq<State>, inputs: seq<Input>, times: seq<real>, k: nat, m: nat, h: nat)
    requires IsRun(states, inputs, times) && k < m < |inputs|
    requires Arrives(states[k], inputs[k], h) && inputs[k].d.code >= 200
    requires states[k].cobjs[h].key.verb == INVITE && !states[k].cobjs[h].uack
    requires inputs[m].Receive? && inputs[m].d == inputs[k].d && Purges(inputs[k + 1..m]) <= 1
    ensures var d := inputs[k].d;
            && states[m + 1].wire == states[m].wire + [Confirm(d.key, d.toTag)]
            && states[m + 1].cobjs == states[m].cobjs && states[m + 1].ctrace == states[m].ctrace
  {
    var d := inputs[k].d;
    FinalResponseIsAcked(states, inputs, times, k, h);
    NobodyWaits(states, inputs, times, k, h);
    EntryStays(states, inputs, times, k + 1, m, d, Some(Confirm(d.key, d.toTag)));
    RunInv(states, inputs, times, m, 0, 0, Short(""));
    InvShape(states[m], 0, 0, Short(""));
    assert Next(states[m], inputs[m], times[m], states[m + 1]);
    hide Inv, Permits, IncomingRequest, IncomingResponse;
  }

  // ----- The TU's own ACK -----

  /** In every run, the ACK that the TU sends itself carries the To tag of the final response that the transaction
      waits with; nothing else leaves, and the transaction is over. */
  lemma AcknowledgeSends(states: seq<State>, inputs: seq<Input>, times: seq<real>, k: nat, h: nat)
    requires IsRun(states, inputs, times) && k < |inputs| && inputs[k] == Acknowledge(h)
    ensures h < |states[k].cobjs| && states[k].cobjs[h].ackSum.Some?
    ensures var (s, s', d) := (states[k], states[k + 1], states[k].cobjs[h].ackSum.value);
            && d.Response? && d.key == s.cobjs[h].key && d.code >= 200
            && s'.wire == s.wire + [Confirm(d.key, d.toTag)] && s'.ctrace == s.ctrace
            && |s'.cobjs| == |s.cobjs| && !s'.cobjs[h].live && d.key !in s'.tclient
            && d in s'.cache.cur && s'.cache.cur[d] == Some(Confirm(d.key, d.toTag))
  {
    RunAcks(states, inputs, times, k);
    RunInv(states, inputs, times, k, 0, 0, Short(""));
    InvShape(states[k], 0, 0, Short(""));
    assert Next(states[k], inputs[k], times[k], states[k + 1]);
    assert Client.ClientTxnOk(states[k].cobjs[h]) && AckOk(states[k].cobjs[h]);
    hide Inv, IsRun, Client.ClientTxnOk;
    Waits(states[k].cobjs[h]);
  }

  lemma Waits(t: ClientTxn)
    ensures Client.ClientTxnOk(t) && t.live && t.state == CUack ==> t.ackSum.Some?
  {
  }

  /** In every run, a transaction waits with a final response that has arrived for it while it was undecided. */
  lemma {:induction false} WaitsWithWhatArrived(states: seq<State>, inputs: seq<Input>, times: seq<real>, k: nat,
                                                h: nat)
    requires IsRun(states, inputs, times) && k < |states| && h < |states[k].cobjs| && states[k].cobjs[h].ackSum.Some?
    ensures exists j :: 0 <= j < k && Arrives(states[j], inputs[j], h) && inputs[j].d.code >= 200
                        && states[k].cobjs[h].ackSum == Some(inputs[j].d)
    decreases k
  {
    if k > 0 {
      RunInv(states, inputs, times, k - 1, 0, 0, Short(""));
      InvShape(states[k - 1], 0, 0, Short(""));
      assert Next(states[k - 1], inputs[k - 1], times[k - 1], states[k]);
      hide IsRun, Permits, Arrives;
      AckSumComes(states[k - 1], inputs[k - 1], times[k - 1], h);
      if h < |states[k - 1].cobjs| && states[k - 1].cobjs[h].ackSum == states[k].cobjs[h].ackSum {
        WaitsWithWhatArrived(states, inputs, times, k - 1, h);
      }
    }
  }

  lemma AckSumComes(s0: State, i: Input, now: real, h: nat)
    requires Inv(s0, 0, 0, Short("")) && Shape(s0)
    ensures var s' := Step(s0, i, now);
            h < |s'.cobjs| && s'.cobjs[h].ackSum.Some? ==>
              || (h < |s0.cobjs| && s0.cobjs[h].ackSum == s'.cobjs[h].ackSum)
              || (Arrives(s0, i, h) && i.d.code >= 200 && s'.cobjs[h].ackSum == Some(i.d))
  {
    var s := s0.(clock := now);
    assert Client.ClientTable(s);
    hide Inv, Client.ClientTable;
    if i.Receive? {
      hide HandleIncoming;
      AckSumReceived(s, i.d, i.tu, i.gen, now, h);
    } else {
      hide Arrives;
      AckSumKept(s, i, now, h);
    }
  }

  lemma AckSumKept(s: State, i: Input, now: real, h: nat)
    requires Shape(s) && !i.Receive?
    ensures var s' := StepAt(s, i, now);
            h < |s'.cobjs| && s'.cobjs[h].ackSum.Some? ==> h < |s.cobjs| && s.cobjs[h].ackSum == s'.cobjs[h].ackSum
  {
    match i {
      case FireServer(g, timer, tag) => ServerTimerUntouched(s, g, timer, tag, now);
      case FireClient(g, timer) => TimerAckSums(s, g, timer, now, h);
      case _ =>
    }
    hide ServerTimerA, TimerD, TimerE, TimerF, TimerB, ClientTimerA, TimerC, TimerG;
  }

  lemma TimerAckSums(s: State, g: nat, timer: ClientTimer, now: real, h: nat)
    requires Shape(s)
    ensures var s' := StepAt(s, FireClient(g, timer), now);
            h < |s'.cobjs| && s'.cobjs[h].ackSum.Some? ==> h < |s.cobjs| && s.cobjs[h].ackSum == s'.cobjs[h].ackSum
  {
  }

  lemma AckSumReceived(s: State, d: Datagram, tu: TuReaction, gen: string, now: real, h: nat)
    requires Shape(s) && Client.ClientTable(s)
    ensures var s' := HandleIncoming(s, d, tu, gen, now);
            h < |s'.cobjs| && s'.cobjs[h].ackSum.Some? ==>
              || (h < |s.cobjs| && s.cobjs[h].ackSum == s'.cobjs[h].ackSum)
              || (Arrives(s, Receive(d, tu, gen), h) && d.code >= 200 && s'.cobjs[h].ackSum == Some(d))
  {
    hide IncomingRequest, ProvisionalResponse, FinalResponse, Lookup, Client.ClientTable;
    if d.Request? {
      RequestUntouched(s, d, tu, gen, now);
    } else if d.Response? && d.key in s.tclient {
      var g := s.tclient[d.key];
      KeyOf(s, d.key);
      if Client.Undecided(s.cobjs[g]) {
        Client.FinalChanges(s, g, d, tu.Raised?, now);
        ProvisionalAckSums(s, g, d, now, h);
      }
    }
  }

  lemma ProvisionalAckSums(s: State, g: nat, d: Datagram, now: real, h: nat)
    requires g < |s.cobjs| && d.Response?
    ensures var s' := ProvisionalResponse(s, g, d, now);
            h < |s'.cobjs| && s'.cobjs[h].ackSum.Some? ==> h < |s.cobjs| && s.cobjs[h].ackSum == s'.cobjs[h].ackSum
  {
  }
}
