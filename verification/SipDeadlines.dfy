/** How long an INVITE server transaction stays in the table when timers fire on time, and when resending stops. */
module SipDeadlines {
  import opened Basics
  import opened TwoGeneration
  import opened SipTransactions
  import opened SipRuns
  import Server = ServerRuns
  import Client = ClientRuns

  /** What one step at time `now` may do to a transaction: a final response is sent now and is never taken back. */
  ghost predicate Evolves(t: ServerTxn, t': ServerTxn, now: real) {
    && t'.origin == t.origin && t'.born == t.born && (t'.live ==> t.live)
    && (!Open(t) ==> !Open(t') && t.sends <= t'.sends && (t.teD.None? ==> t'.teD.None?))
    && (IsInvite(t) && Open(t) && !Open(t') ==> |t'.sends| >= 1 && t'.sends[0] == now)
  }

  ghost predicate Arises(t: ServerTxn, now: real) {
    t.born == now && (IsInvite(t) && !Open(t) ==> |t.sends| >= 1 && t.sends[0] == now)
  }

  ghost predicate AllEvolve(s: State, s': State, now: real) {
    && |s.sobjs| <= |s'.sobjs|
    && (forall h :: 0 <= h < |s.sobjs| ==> Evolves(s.sobjs[h], s'.sobjs[h], now))
    && (forall h :: |s.sobjs| <= h < |s'.sobjs| ==> Arises(s'.sobjs[h], now))
  }

  lemma EvolveTwice(s: State, s1: State, s2: State, now: real)
    requires AllEvolve(s, s1, now) && AllEvolve(s1, s2, now)
    ensures AllEvolve(s, s2, now)
  {
    forall h | 0 <= h < |s.sobjs| ensures Evolves(s.sobjs[h], s2.sobjs[h], now) {
      assert Evolves(s.sobjs[h], s1.sobjs[h], now) && Evolves(s1.sobjs[h], s2.sobjs[h], now);
    }
    forall h | |s.sobjs| <= h < |s2.sobjs| ensures Arises(s2.sobjs[h], now) {
      if h < |s1.sobjs| {
        assert Arises(s1.sobjs[h], now) && Evolves(s1.sobjs[h], s2.sobjs[h], now);
      }
    }
  }

  /** `sendResponse`, as every caller uses it. */
  lemma ProvisionallyEvolves(s: State, h: nat, r: Reply, now: real)
    requires h < |s.sobjs| && Open(s.sobjs[h])
    ensures AllEvolve(s, Provisionally(s, h, r, now), now)
  {
  }

  lemma FinallyEvolves(s: State, h: nat, r: Reply, now: real)
    requires h < |s.sobjs| && Open(s.sobjs[h])
    ensures IsInvite(s.sobjs[h]) ==> AllEvolve(s, FinallyInvite(s, h, r, now), now)
    ensures !IsInvite(s.sobjs[h]) ==> AllEvolve(s, FinallyOther(s, h, r), now)
  {
  }

  lemma RespondEvolves(s: State, h: nat, r: Reply, retrans: bool, now: real)
    requires h < |s.sobjs| && (retrans ==> Open(s.sobjs[h]))
    ensures AllEvolve(s, Respond(s, h, r, retrans, now), now)
  {
    if Open(s.sobjs[h]) {
      ProvisionallyEvolves(s, h, r, now);
      FinallyEvolves(s, h, r, now);
    }
    hide Provisionally, FinallyInvite, FinallyOther;
  }

  lemma {:induction false} TuCallsEvolve(s: State, calls: seq<TuCall>, now: real)
    requires Shape(s)
    ensures AllEvolve(s, TuCalls(s, calls, now), now)
    decreases |calls|
  {
    if calls != [] {
      var s1 := TuRespond(s, calls[0], now);
      RespondShape(s, calls[0], now);
      if calls[0].key in s.tserver {
        RespondEvolves(s, s.tserver[calls[0].key], calls[0].reply, false, now);
      }
      hide AllEvolve, TuRespond;
      assert AllEvolve(s, s1, now) by { SameEvolves(s, s1, now); }
      TuCallsEvolve(s1, calls[1..], now);
      EvolveTwice(s, s1, TuCalls(s1, calls[1..], now), now);
    }
  }

  lemma SameEvolves(s: State, s': State, now: real)
    ensures s'.sobjs == s.sobjs ==> AllEvolve(s, s', now)
  {
  }

  lemma FinishEvolves(s: State, h: nat, ret: Option<TuReturn>, now: real)
    requires h < |s.sobjs|
    ensures AllEvolve(s, FinishHandover(s, h, ret, now), now)
  {
    match ret
    case None =>
    case Some(r) =>
      var s1 := s.(sobjs := s.sobjs[h := s.sobjs[h].(cancelCb := r.cancelCb, noackCb := r.noackCb)]);
      assert AllEvolve(s, s1, now);
      if r.reply.Some? {
        RespondEvolves(s1, h, r.reply.value, false, now);
        hide AllEvolve, Respond;
        EvolveTwice(s, s1, Respond(s1, h, r.reply.value, false, now), now);
      }
  }

  lemma HandOverEvolves(s: State, d: Datagram, tu: TuReaction, now: real)
    requires Shape(s) && d.Request?
    ensures AllEvolve(s, HandOver(s, d, tu, now), now)
  {
    var s0 := AddServer(s, d, now);
    var s1 := Log(s0, Handed(d));
    assert AllEvolve(s, s0, now) && AllEvolve(s, s1, now);
    hide AllEvolve, FinishHandover;
    match tu
    case NoTu => SameEvolves(s0, Remember(s0, d, None), now); EvolveTwice(s, s0, Remember(s0, d, None), now);
    case Raised(calls, refusal) =>
      var s2 := TuCalls(s1, calls, now);
      TuCallsEvolve(s1, calls, now);
      EvolveTwice(s, s1, s2, now);
      SameEvolves(s2, Refuse(s2, |s.sobjs|, d, refusal), now);
      EvolveTwice(s, s2, Refuse(s2, |s.sobjs|, d, refusal), now);
    case Returned(calls, ret) =>
      TuCallsEvolve(s1, calls, now);
      TuCallsShape(s1, calls, now);
      var s2 := TuCalls(s1, calls, now);
      EvolveTwice(s, s1, s2, now);
      FinishEvolves(s2, |s.sobjs|, ret, now);
      EvolveTwice(s, s2, FinishHandover(s2, |s.sobjs|, ret, now), now);
  }

  lemma DoCancelEvolves(s: State, h: nat, gen: string, now: real)
    requires h < |s.sobjs| && Open(s.sobjs[h])
    ensures AllEvolve(s, DoCancel(s, h, gen, now), now)
  {
    if IsInvite(s.sobjs[h]) {
      RespondEvolves(s, h, Reply(487, s.sobjs[h].origin.toTag, gen, false), true, now);
    }
    hide Respond;
  }

  lemma MatchedEvolves(s: State, h: nat, d: Datagram, raises: bool, gen: string, now: real)
    requires h < |s.sobjs| && d.Request?
    ensures AllEvolve(s, Matched(s, h, d, raises, gen, now), now)
  {
    if d.verb == CANCEL && Open(s.sobjs[h]) {
      DoCancelEvolves(Transmit(s, Answer(200, d, d.toTag), d), h, gen, now);
    }
    if s.sobjs[h].state == SCompleted {
      OneEvolves(s, Acked(s, h, d, raises), h, now);
    }
    SameEvolves(s, Matched(s, h, d, raises, gen, now), now);
    hide DoCancel, Acked, AllEvolve;
  }

  lemma RequestEvolves(s: State, d: Datagram, tu: TuReaction, gen: string, now: real)
    requires Shape(s) && d.Request?
    ensures AllEvolve(s, IncomingRequest(s, d, tu, gen, now), now)
  {
    HandOverEvolves(s, d, tu, now);
    if LookupKey(d) in s.tserver {
      MatchedEvolves(s, s.tserver[LookupKey(d)], d, tu.Raised?, gen, now);
    }
    SameEvolves(s, IncomingRequest(s, d, tu, gen, now), now);
    hide AllEvolve, HandOver, Matched;
  }

  lemma ReceiveEvolves(s: State, d: Datagram, tu: TuReaction, gen: string, now: real)
    requires Shape(s)
    ensures AllEvolve(s, HandleIncoming(s, d, tu, gen, now), now)
  {
    SameEvolves(s, HandleIncoming(s, d, tu, gen, now), now);
    if d.Request? {
      RequestEvolves(s, d, tu, gen, now);
    } else if d.Response? && d.key in s.tclient {
      Server.ResponseUntouched(s, s.tclient[d.key], d, tu.Raised?, now);
    }
    hide AllEvolve, IncomingRequest, IncomingResponse, Lookup;
  }

  lemma TimerEEvolves(s: State, h: nat, gen: string, now: real)
    requires h < |s.sobjs|
    ensures AllEvolve(s, TimerE(s, h, gen, now), now)
  {
    var s1 := s.(sobjs := s.sobjs[h := s.sobjs[h].(teE := None, teF := None)]);
    assert AllEvolve(s, s1, now);
    if Open(s.sobjs[h]) {
      DoCancelEvolves(s1, h, gen, now);
      hide AllEvolve, DoCancel;
      EvolveTwice(s, s1, DoCancel(s1, h, gen, now), now);
    }
  }

  lemma ResendEvolves(s: State, h: nat, now: real)
    requires h < |s.sobjs|
    ensures AllEvolve(s, ServerTimerA(s, h, now), now)
    ensures AllEvolve(s, TimerF(s, h, now), now)
  {
    OneEvolves(s, ServerTimerA(s, h, now), h, now);
    OneEvolves(s, TimerF(s, h, now), h, now);
    hide AllEvolve;
  }

  lemma OneEvolves(s: State, s': State, h: nat, now: real)
    requires h < |s.sobjs| && |s'.sobjs| == |s.sobjs| && s'.sobjs == s.sobjs[h := s'.sobjs[h]]
    requires Evolves(s.sobjs[h], s'.sobjs[h], now)
    ensures AllEvolve(s, s', now)
  {
  }

  lemma RemovalEvolves(s: State, h: nat, raises: bool, now: real)
    requires h < |s.sobjs|
    ensures AllEvolve(s, TimerD(s, h, raises), now)
  {
  }

  lemma TimersEvolve(s: State, h: nat, timer: ServerTimer, tag: string, now: real)
    requires Shape(s)
    ensures AllEvolve(s, StepAt(s, FireServer(h, timer, tag), now), now)
  {
    SameEvolves(s, s, now);
    if h < |s.sobjs| {
      ResendEvolves(s, h, now);
      RemovalEvolves(s, h, timer.D? && timer.raises, now);
      TimerEEvolves(s, h, tag, now);
    }
    hide AllEvolve, ServerTimerA, TimerD, TimerE, TimerF;
  }

  lemma OthersKeepServers(s: State, i: Input, now: real)
    requires Shape(s) && !i.Receive? && !i.TuSends? && !i.FireServer?
    ensures StepAt(s, i, now).sobjs == s.sobjs
  {
  }

  lemma StepEvolves(s0: State, i: Input, now: real)
    requires Shape(s0)
    ensures AllEvolve(s0, Step(s0, i, now), now)
  {
    hide AllEvolve, HandleIncoming;
    var s := s0.(clock := now);
    SameEvolves(s0, s, now);
    SameEvolves(s, StepAt(s, i, now), now);
    match i {
      case Receive(d', tu, gen) => ReceiveEvolves(s, d', tu, gen, now);
      case TuSends(call) =>
        if call.key in s.tserver {
          RespondEvolves(s, s.tserver[call.key], call.reply, false, now);
        }
      case FireServer(h, timer, tag) => TimersEvolve(s, h, timer, tag, now);
      case _ => OthersKeepServers(s, i, now);
    }
    EvolveTwice(s0, s, StepAt(s, i, now), now);
  }

  // ----- Deadlines -----

  /** No timer of a live transaction is overdue when the next input comes. */
  ghost predicate OnTime(s: State, now: real) {
    forall h :: 0 <= h < |s.sobjs| && s.sobjs[h].live ==>
      && (s.sobjs[h].teE.Some? ==> now <= s.sobjs[h].teE.value)
      && (s.sobjs[h].teD.Some? ==> now <= s.sobjs[h].teD.value)
  }

  ghost predicate AnsweredInTime(s: State) {
    forall h :: 0 <= h < |s.sobjs| && IsInvite(s.sobjs[h]) && !Open(s.sobjs[h]) ==>
      |s.sobjs[h].sends| >= 1 && s.sobjs[h].sends[0] <= s.sobjs[h].born + Expiry(s.sobjs[h].origin.expires)
  }

  lemma EvolvesInTime(s: State, s': State, now: real)
    requires AllEvolve(s, s', now) && Server.TxnsOk(s) && OnTime(s, now) && AnsweredInTime(s)
    ensures AnsweredInTime(s')
  {
    forall g | 0 <= g < |s'.sobjs| && IsInvite(s'.sobjs[g]) && !Open(s'.sobjs[g])
      ensures |s'.sobjs[g].sends| >= 1 && s'.sobjs[g].sends[0] <= s'.sobjs[g].born + Expiry(s'.sobjs[g].origin.expires)
    {
      if g < |s.sobjs| {
        assert Evolves(s.sobjs[g], s'.sobjs[g], now) && Server.ServerTxnOk(s.sobjs[g]);
      } else {
        assert Arises(s'.sobjs[g], now);
      }
    }
  }

  lemma LeavesInTime(s: State, s': State, now: real, h: nat)
    requires AllEvolve(s, s', now) && Server.TxnsOk(s) && OnTime(s, now) && AnsweredInTime(s)
    requires h < |s'.sobjs| && IsInvite(s'.sobjs[h]) && s'.sobjs[h].live && !Server.Abandoned(s'.sobjs[h])
    ensures now <= s'.sobjs[h].born + Expiry(s'.sobjs[h].origin.expires) + 32.0
  {
    if h < |s.sobjs| {
      assert Evolves(s.sobjs[h], s'.sobjs[h], now) && Server.ServerTxnOk(s.sobjs[h]);
    } else {
      assert Arises(s'.sobjs[h], now);
    }
  }

  lemma StepInTime(s: State, i: Input, now: real, h: nat)
    requires Inv(s, 0, 0, Short("")) && Shape(s) && Enabled(s, i, now) && OnTime(s, now) && AnsweredInTime(s)
    ensures AnsweredInTime(Step(s, i, now))
    ensures var s' := Step(s, i, now);
            h < |s'.sobjs| && IsInvite(s'.sobjs[h]) && s'.sobjs[h].live && !Server.Abandoned(s'.sobjs[h]) ==>
              now <= s'.sobjs[h].born + Expiry(s'.sobjs[h].origin.expires) + 32.0
  {
    assert Server.TxnsOk(s);
    hide Inv, Enabled, Step, AllEvolve, Server.TxnsOk, OnTime, AnsweredInTime;
    var s' := Step(s, i, now);
    StepEvolves(s, i, now);
    EvolvesInTime(s, s', now);
    if h < |s'.sobjs| && IsInvite(s'.sobjs[h]) && s'.sobjs[h].live && !Server.Abandoned(s'.sobjs[h]) {
      LeavesInTime(s, s', now, h);
    }
  }

  lemma {:induction false} RunAnsweredInTime(states: seq<State>, inputs: seq<Input>, times: seq<real>, k: nat)
    requires IsRun(states, inputs, times) && k < |states|
    requires forall j :: 0 <= j < |inputs| ==> OnTime(states[j], times[j])
    ensures AnsweredInTime(states[k])
  {
    if k > 0 {
      RunAnsweredInTime(states, inputs, times, k - 1);
      RunInv(states, inputs, times, k - 1, 0, 0, Short(""));
      InvShape(states[k - 1], 0, 0, Short(""));
      assert Next(states[k - 1], inputs[k - 1], times[k - 1], states[k]);
      StepInTime(states[k - 1], inputs[k - 1], times[k - 1], 0);
    }
  }

  /** In every run whose timers fire on time, an INVITE that is still in the table came at most its `Expires` value
      and 32 seconds ago, unless its `noack_cb` has raised. */
  lemma InviteLeavesTheTable(states: seq<State>, inputs: seq<Input>, times: seq<real>, k: nat, h: nat)
    requires IsRun(states, inputs, times) && 0 < k < |states|
    requires forall j :: 0 <= j < |inputs| ==> OnTime(states[j], times[j])
    requires h < |states[k].sobjs| && IsInvite(states[k].sobjs[h]) && states[k].sobjs[h].live
    ensures Server.AckCalls(states[k].strace, h) == 0 ==>
              times[k - 1] <= states[k].sobjs[h].born + Expiry(states[k].sobjs[h].origin.expires) + 32.0
  {
    ServerTransactionsInRuns(states, inputs, times, k, h);
    RunAnsweredInTime(states, inputs, times, k - 1);
    RunInv(states, inputs, times, k - 1, 0, 0, Short(""));
    InvShape(states[k - 1], 0, 0, Short(""));
    assert Next(states[k - 1], inputs[k - 1], times[k - 1], states[k]);
    StepInTime(states[k - 1], inputs[k - 1], times[k - 1], h);
  }

  // ----- Abandoned for ever -----

  /** What was abandoned stays so. */
  ghost predicate StillAbandoned(s: State, s': State) {
    && |s.sobjs| <= |s'.sobjs|
    && forall h :: 0 <= h < |s.sobjs| && Server.Abandoned(s.sobjs[h]) ==> Server.Abandoned(s'.sobjs[h])
  }

  lemma OneChanges(s: State, s': State, h: nat)
    requires h < |s.sobjs| && |s'.sobjs| == |s.sobjs| && s'.sobjs == s.sobjs[h := s'.sobjs[h]]
    requires Server.Abandoned(s.sobjs[h]) ==> Server.Abandoned(s'.sobjs[h])
    ensures StillAbandoned(s, s')
  {
    hide Server.Abandoned;
  }

  lemma RespondAbandoned(s: State, h: nat, r: Reply, retrans: bool, now: real)
    requires h < |s.sobjs| && (retrans ==> Open(s.sobjs[h]))
    ensures StillAbandoned(s, Respond(s, h, r, retrans, now))
    ensures |Respond(s, h, r, retrans, now).sobjs| == |s.sobjs|
  {
    OneChanges(s, Respond(s, h, r, retrans, now), h);
    hide ToTag;
  }

  lemma {:induction false} TuCallsAbandoned(s: State, calls: seq<TuCall>, now: real)
    requires Shape(s)
    ensures StillAbandoned(s, TuCalls(s, calls, now))
    decreases |calls|
  {
    if calls != [] {
      RespondShape(s, calls[0], now);
      if calls[0].key in s.tserver {
        RespondAbandoned(s, s.tserver[calls[0].key], calls[0].reply, false, now);
      }
      hide Respond, Server.Abandoned;
      TuCallsAbandoned(TuRespond(s, calls[0], now), calls[1..], now);
    }
  }

  lemma FinishTouchesOne(s: State, h: nat, ret: Option<TuReturn>, now: real)
    requires h < |s.sobjs|
    ensures var s' := FinishHandover(s, h, ret, now);
            |s'.sobjs| == |s.sobjs| && forall g :: 0 <= g < |s.sobjs| && g != h ==> s'.sobjs[g] == s.sobjs[g]
  {
    hide ToTag;
  }

  lemma HandOverAbandoned(s: State, d: Datagram, tu: TuReaction, now: real)
    requires Shape(s) && d.Request?
    ensures StillAbandoned(s, HandOver(s, d, tu, now))
  {
    var s1 := Log(AddServer(s, d, now), Handed(d));
    assert StillAbandoned(s, s1);
    hide Server.Abandoned, FinishHandover;
    if tu.Raised? || tu.Returned? {
      TuCallsAbandoned(s1, tu.calls, now);
      TuCallsShape(s1, tu.calls, now);
      if tu.Returned? {
        FinishTouchesOne(TuCalls(s1, tu.calls, now), |s.sobjs|, tu.ret, now);
      }
    }
  }

  lemma MatchedAbandoned(s: State, h: nat, d: Datagram, raises: bool, gen: string, now: real)
    requires h < |s.sobjs| && d.Request?
    ensures StillAbandoned(s, Matched(s, h, d, raises, gen, now))
  {
    if d.verb == CANCEL && Open(s.sobjs[h]) && IsInvite(s.sobjs[h]) {
      var s1 := Transmit(s, Answer(200, d, d.toTag), d);
      RespondAbandoned(s1, h, Reply(487, s.sobjs[h].origin.toTag, gen, false), true, now);
    }
    if s.sobjs[h].state == SCompleted {
      OneChanges(s, Acked(s, h, d, raises), h);
    }
    hide Respond, Acked, Server.Abandoned;
  }

  lemma ReceiveAbandoned(s: State, d: Datagram, tu: TuReaction, gen: string, now: real)
    requires Shape(s)
    ensures StillAbandoned(s, HandleIncoming(s, d, tu, gen, now))
  {
    if d.Request? {
      HandOverAbandoned(s, d, tu, now);
      if LookupKey(d) in s.tserver {
        MatchedAbandoned(s, s.tserver[LookupKey(d)], d, tu.Raised?, gen, now);
      }
    } else if d.Response? && d.key in s.tclient {
      Server.ResponseUntouched(s, s.tclient[d.key], d, tu.Raised?, now);
    }
    hide HandOver, Matched, IncomingResponse, Lookup, Server.Abandoned;
  }

  lemma TimersAbandoned(s: State, h: nat, timer: ServerTimer, tag: string, now: real)
    requires Shape(s) && Server.TxnsOk(s) && Server.TimerEnabled(s, h, timer, tag, now)
    ensures StillAbandoned(s, StepAt(s, FireServer(h, timer, tag), now))
  {
    assert Server.ServerTxnOk(s.sobjs[h]);
    assert !Server.Abandoned(s.sobjs[h]);
    hide Server.Abandoned, Server.TxnsOk, Server.ServerTxnOk, Server.CancelEnabled;
    FiresOne(s, h, timer, tag, now);
    OneChanges(s, StepAt(s, FireServer(h, timer, tag), now), h);
  }

  lemma FiresOne(s: State, h: nat, timer: ServerTimer, tag: string, now: real)
    requires Shape(s) && h < |s.sobjs|
    ensures var s' := StepAt(s, FireServer(h, timer, tag), now);
            |s'.sobjs| == |s.sobjs| && s'.sobjs == s.sobjs[h := s'.sobjs[h]]
  {
    hide CompletedTxn, ProvisionalTxn, Cleaned;
  }

  lemma StepAbandoned(s0: State, i: Input, now: real)
    requires Inv(s0, 0, 0, Short("")) && Shape(s0) && Enabled(s0, i, now)
    ensures StillAbandoned(s0, Step(s0, i, now))
  {
    var s := s0.(clock := now);
    assert Server.TxnsOk(s);
    hide HandleIncoming, Inv, Server.Abandoned, Server.TxnsOk;
    match i {
      case Receive(d, tu, gen) => ReceiveAbandoned(s, d, tu, gen, now);
      case TuSends(call) =>
        if call.key in s.tserver {
          RespondAbandoned(s, s.tserver[call.key], call.reply, false, now);
        }
      case FireServer(h, timer, tag) => TimersAbandoned(s, h, timer, tag, now);
      case _ => OthersKeepServers(s, i, now);
    }
  }

  /** In every run, an INVITE whose `noack_cb` has raised is in the table in every later state. */
  lemma {:induction false} AbandonedForEver(states: seq<State>, inputs: seq<Input>, times: seq<real>, j: nat, k: nat,
                                            h: nat)
    requires IsRun(states, inputs, times) && j <= k < |states|
    requires h < |states[j].sobjs| && Server.Abandoned(states[j].sobjs[h])
    ensures h < |states[k].sobjs| && Server.Abandoned(states[k].sobjs[h])
    decreases k - j
  {
    if j < k {
      AbandonedForEver(states, inputs, times, j, k - 1, h);
      RunInv(states, inputs, times, k - 1, 0, 0, Short(""));
      InvShape(states[k - 1], 0, 0, Short(""));
      assert Next(states[k - 1], inputs[k - 1], times[k - 1], states[k]);
      hide Server.Abandoned;
      StepAbandoned(states[k - 1], inputs[k - 1], times[k - 1]);
    }
  }

  // ----- When resending stops -----

  /** In every run: once a response has come or timer B has run, a request is never sent again. */
  lemma NoResendAfterResponse(states: seq<State>, inputs: seq<Input>, times: seq<real>, k: nat, h: nat)
    requires IsRun(states, inputs, times) && k < |inputs| && h < |states[k].cobjs|
    requires !Client.Unheard(states[k].cobjs[h])
    ensures h < |states[k + 1].cobjs|
    ensures states[k + 1].cobjs[h].sends == states[k].cobjs[h].sends
    ensures !Client.Unheard(states[k + 1].cobjs[h])
  {
    RunInv(states, inputs, times, k, 0, 0, Short(""));
    InvShape(states[k], 0, 0, Short(""));
    assert Next(states[k], inputs[k], times[k], states[k + 1]);
    var s := states[k].(clock := times[k]);
    assert Client.TxnsOk(s);
    hide Inv;
    StepAtQuiet(s, inputs[k], times[k], h);
  }

  ghost predicate Quiet(s: State, s': State, h: nat)
    requires h < |s.cobjs|
  {
    && h < |s'.cobjs|
    && (!Client.Unheard(s.cobjs[h]) ==> s'.cobjs[h].sends == s.cobjs[h].sends && !Client.Unheard(s'.cobjs[h]))
  }

  lemma ProvisionalQuiet(s: State, g: nat, d: Datagram, now: real, h: nat)
    requires g < |s.cobjs| && h < |s.cobjs| && d.Response?
    ensures Quiet(s, ProvisionalResponse(s, g, d, now), h)
  {
  }

  lemma FinalQuiet(s: State, g: nat, d: Datagram, raises: bool, now: real, h: nat)
    requires g < |s.cobjs| && h < |s.cobjs| && d.Response?
    ensures Quiet(s, FinalResponse(s, g, d, raises, now), h)
  {
  }

  lemma ReceiveQuiet(s: State, d: Datagram, tu: TuReaction, gen: string, now: real, h: nat)
    requires Shape(s) && h < |s.cobjs|
    ensures Quiet(s, HandleIncoming(s, d, tu, gen, now), h)
  {
    hide IncomingRequest, ProvisionalResponse, FinalResponse, Lookup;
    if d.Request? {
      RequestUntouched(s, d, tu, gen, now);
    } else if d.Response? && d.key in s.tclient {
      ProvisionalQuiet(s, s.tclient[d.key], d, now, h);
      FinalQuiet(s, s.tclient[d.key], d, tu.Raised?, now, h);
    }
  }

  lemma ClientTimersQuiet(s: State, g: nat, timer: ClientTimer, now: real, h: nat)
    requires Shape(s) && h < |s.cobjs| && Client.TxnsOk(s) && Client.TimerEnabled(s, g, timer, now)
    ensures Quiet(s, StepAt(s, FireClient(g, timer), now), h)
  {
    Client.TimerTells(s.cobjs[g]);
    hide Client.TxnsOk, Client.ClientTxnOk;
  }

  lemma StepAtQuiet(s: State, i: Input, now: real, h: nat)
    requires Shape(s) && h < |s.cobjs| && Client.TxnsOk(s) && Permits(s, i, now)
    ensures Quiet(s, StepAt(s, i, now), h)
  {
    hide Client.TxnsOk, HandleIncoming;
    match i {
      case Receive(d, tu, gen) => ReceiveQuiet(s, d, tu, gen, now, h);
      case FireServer(g, timer, tag) => ServerTimerUntouched(s, g, timer, tag, now);
      case FireClient(g, timer) => ClientTimersQuiet(s, g, timer, now, h);
      case _ =>
    }
  }
}
