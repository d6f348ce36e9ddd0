/** What the server side puts on the wire and tells its user, input by input, in the states of runs: responses of the
    TU, timers, and requests of every kind. */
module SipAnswers {
  import opened Basics
  import opened TwoGeneration
  import opened SipTransactions
  import opened SipRuns
  import opened SipPackets
  import opened SipRequests
  import Server = ServerRuns
  import Client = ClientRuns

  // ----- A response -----

  /** Only the transaction `h` of the server side changes, and none is added. */
  ghost predicate OnlyServer(s: State, s': State, h: nat) {
    && s'.tclient == s.tclient && s'.cobjs == s.cobjs && s'.ctrace == s.ctrace && s'.provRetr == s.provRetr
    && |s'.sobjs| == |s.sobjs| && forall g :: 0 <= g < |s.sobjs| && g != h ==> s'.sobjs[g] == s.sobjs[g]
  }

  /** The response `p` has left, and byte-identical requests will get it, too. */
  predicate Left(s: State, s': State, p: Packet, d: Datagram) {
    s'.wire == s.wire + [p] && d in s'.cache.cur && s'.cache.cur[d] == Some(p)
  }

  /** After a provisional response. */
  predicate RingsNow(t: ServerTxn, t': ServerTxn, p: Packet, code: int, provRetr: real, now: real) {
    && t' == t.(data := t'.data, state := t'.state, teF := t'.teF)
    && t'.state == SRinging && t'.data == Some(p)
    && t'.teF == if code > 100 && provRetr > 0.0 then Some(now + provRetr) else t.teF
  }

  /** After the final response to an INVITE: it waits for the ACK under the To tag, resends after half a second, and
      gives up after 32 seconds. */
  predicate CompletedNow(t: ServerTxn, t': ServerTxn, p: Packet, tag: Option<string>, ackCb: bool, now: real) {
    && t'.origin == t.origin && t'.born == t.born && t'.live == t.live
    && t'.cancelCb == t.cancelCb && t'.noackCb == t.noackCb && t'.ackCb == ackCb
    && t'.state == SCompleted && t'.data == Some(p) && t'.key == ServerKey(t.key.dialog, tag) && t'.sends == [now]
    && t'.teA == Some(now + 0.5) && t'.teD == Some(now + 32.0) && t'.teE.None? && t'.teF.None? && t'.tout == 0.5
  }

  /** The transaction `h` has been answered with `r`, under the tag of `r`, or a generated one if it has none and the
      code is above 100. A final response is its last. */
  ghost predicate AnsweredWith(s: State, s': State, h: nat, r: Reply, now: real)
    requires h < |s.sobjs| && h < |s'.sobjs|
  {
    var (t, t') := (s.sobjs[h], s'.sobjs[h]);
    var tag := if r.tag.None? && r.code > 100 then Some(r.gen) else r.tag;
    var p := Answer(r.code, t.origin, tag);
    && Left(s, s', p, t.origin) && OnlyServer(s, s', h)
    && if r.code < 200 then
         RingsNow(t, t', p, r.code, s.provRetr, now) && s'.tserver == s.tserver && s'.strace == s.strace
       else
         && s'.strace == s.strace + [Final(h, t.origin)]
         && if t.origin.Request? && t.origin.verb == INVITE then
              && CompletedNow(t, t', p, tag, r.ackCb, now)
              && s'.tserver == (s.tserver - {t.key})[t'.key := h]
            else
              && !t'.live && t'.state == SCompleted && t'.data == Some(p) && t'.origin == t.origin
              && t'.teE.None? && t'.teF.None? && t'.key == t.key && s'.tserver == s.tserver - {t.key}
  }

  lemma ProvisionallyAnswers(s: State, h: nat, r: Reply, now: real)
    requires h < |s.sobjs| && r.code < 200
    ensures AnsweredWith(s, Provisionally(s, h, r, now), h, r, now)
  {
  }

  lemma FinallyAnswers(s: State, h: nat, r: Reply, now: real)
    requires h < |s.sobjs| && r.code >= 200
    ensures IsInvite(s.sobjs[h]) ==> AnsweredWith(s, FinallyInvite(s, h, r, now), h, r, now)
    ensures !IsInvite(s.sobjs[h]) ==> AnsweredWith(s, FinallyOther(s, h, r), h, r, now)
  {
  }

  lemma RespondAnswers(s: State, h: nat, r: Reply, retrans: bool, now: real)
    requires h < |s.sobjs|
    ensures var s' := Respond(s, h, r, retrans, now);
            if Open(s.sobjs[h]) || retrans then |s'.sobjs| == |s.sobjs| && AnsweredWith(s, s', h, r, now) else s' == s
  {
    if r.code < 200 {
      ProvisionallyAnswers(s, h, r, now);
    } else {
      FinallyAnswers(s, h, r, now);
    }
    hide Provisionally, FinallyInvite, FinallyOther;
  }

  // ----- The stored response -----

  /** What a transaction stores is the last response to its own request: a provisional one while it rings, nothing
      before, and after that the final one, under whose To tag an INVITE waits for the ACK. */
  predicate DataOk(t: ServerTxn) {
    && (t.state == STrying ==> t.data.None? && t.teF.None?)
    && (t.state != STrying ==> t.data.Some? && t.data.value.Answer? && t.data.value.request == t.origin)
    && (t.state == SRinging ==> t.data.value.code < 200)
    && (!Open(t) ==> t.data.value.code >= 200 && (IsInvite(t) ==> t.data.value.toTag == t.key.last))
  }

  ghost predicate DataAllOk(s: State) {
    forall h :: 0 <= h < |s.sobjs| ==> DataOk(s.sobjs[h])
  }

  lemma OneDataOk(s: State, s': State, h: nat)
    requires DataAllOk(s) && h < |s.sobjs| == |s'.sobjs| && DataOk(s'.sobjs[h])
    requires forall g :: 0 <= g < |s.sobjs| && g != h ==> s'.sobjs[g] == s.sobjs[g]
    ensures DataAllOk(s')
  {
    hide DataOk;
  }

  lemma RespondData(s: State, h: nat, r: Reply, retrans: bool, now: real)
    requires DataAllOk(s) && h < |s.sobjs| && (retrans ==> Open(s.sobjs[h]))
    ensures DataAllOk(Respond(s, h, r, retrans, now))
  {
    RespondAnswers(s, h, r, retrans, now);
    if Open(s.sobjs[h]) {
      AnsweredData(s, Respond(s, h, r, retrans, now), h, r, now);
      hide Respond, DataAllOk, DataOk;
      OneDataOk(s, Respond(s, h, r, retrans, now), h);
    }
  }

  lemma AnsweredData(s: State, s': State, h: nat, r: Reply, now: real)
    requires h < |s.sobjs| && h < |s'.sobjs| && AnsweredWith(s, s', h, r, now)
    ensures DataOk(s'.sobjs[h])
  {
  }

  lemma {:induction false} TuCallsData(s: State, calls: seq<TuCall>, now: real)
    requires Shape(s) && DataAllOk(s)
    ensures DataAllOk(TuCalls(s, calls, now))
    decreases |calls|
  {
    if calls != [] {
      RespondShape(s, calls[0], now);
      if calls[0].key in s.tserver {
        RespondData(s, s.tserver[calls[0].key], calls[0].reply, false, now);
      }
      hide Respond, DataAllOk;
      TuCallsData(TuRespond(s, calls[0], now), calls[1..], now);
    }
  }

  lemma FinishData(s: State, h: nat, ret: Option<TuReturn>, now: real)
    requires h < |s.sobjs| && DataAllOk(s)
    ensures DataAllOk(FinishHandover(s, h, ret, now))
  {
    assert DataOk(s.sobjs[h]);
    match ret
    case None => OneDataOk(s, FinishHandover(s, h, ret, now), h);
    case Some(r) =>
      var s1 := s.(sobjs := s.sobjs[h := s.sobjs[h].(cancelCb := r.cancelCb, noackCb := r.noackCb)]);
      OneDataOk(s, s1, h);
      if r.reply.Some? {
        RespondData(s1, h, r.reply.value, false, now);
      }
      hide Respond, DataAllOk;
  }

  lemma NewData(s: State, d: Datagram, now: real)
    requires DataAllOk(s) && d.Request?
    ensures DataAllOk(AddServer(s, d, now)) && DataAllOk(Log(AddServer(s, d, now), Handed(d)))
  {
  }

  lemma HandOverData(s: State, d: Datagram, tu: TuReaction, now: real)
    requires Shape(s) && DataAllOk(s) && d.Request?
    ensures DataAllOk(HandOver(s, d, tu, now))
  {
    NewData(s, d, now);
    var s1 := Log(AddServer(s, d, now), Handed(d));
    if !tu.NoTu? {
      TuCallsData(s1, tu.calls, now);
      TuCallsShape(s1, tu.calls, now);
      if tu.Returned? {
        FinishData(TuCalls(s1, tu.calls, now), |s.sobjs|, tu.ret, now);
      } else {
        RefuseData(TuCalls(s1, tu.calls, now), |s.sobjs|, d, tu.refusal);
      }
    }
    hide FinishHandover, TuCalls, Refuse, DataOk;
  }

  lemma RefuseData(s: State, h: nat, d: Datagram, refusal: Option<int>)
    requires DataAllOk(s) && d.Request?
    ensures DataAllOk(Refuse(s, h, d, refusal))
  {
    hide DataOk;
  }

  lemma DoCancelData(s: State, h: nat, gen: string, now: real)
    requires h < |s.sobjs| && DataAllOk(s) && Open(s.sobjs[h]) && s.sobjs[h].origin.Request?
    ensures DataAllOk(DoCancel(s, h, gen, now))
  {
    RespondData(s, h, Reply(487, s.sobjs[h].origin.toTag, gen, false), true, now);
    hide Respond, DataOk;
  }

  lemma MatchedData(s: State, h: nat, d: Datagram, raises: bool, gen: string, now: real)
    requires h < |s.sobjs| && d.Request? && DataAllOk(s) && s.sobjs[h].origin.Request?
    ensures DataAllOk(Matched(s, h, d, raises, gen, now))
  {
    assert DataOk(s.sobjs[h]);
    var s1 := Transmit(s, Answer(200, d, d.toTag), d);
    assert DataAllOk(s1);
    if Open(s.sobjs[h]) {
      DoCancelData(s1, h, gen, now);
    } else if s.sobjs[h].state == SCompleted {
      AckedOne(s, h, d, raises);
    }
    hide DoCancel, Acked, DataOk;
  }

  lemma AckedOne(s: State, h: nat, d: Datagram, raises: bool)
    requires h < |s.sobjs| && DataAllOk(s) && s.sobjs[h].state == SCompleted
    ensures DataAllOk(Acked(s, h, d, raises))
  {
    assert DataOk(s.sobjs[h]);
    OneDataOk(s, Acked(s, h, d, raises), h);
  }

  lemma RequestData(s: State, d: Datagram, tu: TuReaction, gen: string, now: real)
    requires Shape(s) && DataAllOk(s) && FromRequests(s) && d.Request?
    ensures DataAllOk(IncomingRequest(s, d, tu, gen, now))
  {
    HandOverData(s, d, tu, now);
    if LookupKey(d) in s.tserver {
      MatchedData(s, s.tserver[LookupKey(d)], d, tu.Raised?, gen, now);
    }
    hide HandOver, Matched, DataOk;
  }

  lemma ReceiveData(s: State, d: Datagram, tu: TuReaction, gen: string, now: real)
    requires Shape(s) && DataAllOk(s) && FromRequests(s)
    ensures DataAllOk(HandleIncoming(s, d, tu, gen, now))
  {
    if d.Request? {
      RequestData(s, d, tu, gen, now);
    } else if d.Response? && d.key in s.tclient {
      Server.ResponseUntouched(s, s.tclient[d.key], d, tu.Raised?, now);
    }
    hide IncomingRequest, IncomingResponse, Lookup, DataOk;
  }

  lemma TimerEData(s: State, h: nat, gen: string, now: real)
    requires h < |s.sobjs| && DataAllOk(s) && s.sobjs[h].origin.Request?
    ensures DataAllOk(TimerE(s, h, gen, now))
  {
    var s1 := s.(sobjs := s.sobjs[h := s.sobjs[h].(teE := None, teF := None)]);
    assert DataOk(s.sobjs[h]);
    OneDataOk(s, s1, h);
    if Open(s.sobjs[h]) {
      DoCancelData(s1, h, gen, now);
    }
    hide DoCancel, DataOk;
  }

  lemma OtherTimersData(s: State, h: nat, raises: bool, now: real)
    requires h < |s.sobjs| && DataAllOk(s)
    ensures DataAllOk(ServerTimerA(s, h, now)) && DataAllOk(TimerD(s, h, raises)) && DataAllOk(TimerF(s, h, now))
  {
    assert DataOk(s.sobjs[h]);
    hide DataAllOk;
    OneDataOk(s, ServerTimerA(s, h, now), h);
    OneDataOk(s, TimerD(s, h, raises), h);
    OneDataOk(s, TimerF(s, h, now), h);
  }

  lemma StepData(s: State, i: Input, now: real)
    requires Shape(s) && DataAllOk(s) && FromRequests(s)
    requires i.Acknowledge? && i.ch < |s.cobjs| && s.cobjs[i.ch].ackSum.Some? ==> s.cobjs[i.ch].ackSum.value.Response?
    ensures DataAllOk(StepAt(s, i, now))
  {
    match i
    case Receive(d, tu, gen) => ReceiveData(s, d, tu, gen, now); hide HandleIncoming, DataOk;
    case TuSends(call) =>
      if call.key in s.tserver { RespondData(s, s.tserver[call.key], call.reply, false, now); }
      hide Respond, DataOk;
    case FireServer(h, timer, tag) =>
      if h < |s.sobjs| {
        TimerEData(s, h, tag, now);
        OtherTimersData(s, h, timer.D? && timer.raises, now);
      }
      hide TimerE, TimerD, TimerF, ServerTimerA, DataOk;
    case FireClient(h, timer) =>
      if h < |s.cobjs| { ClientTimerUntouched(s, h, timer, now); }
      hide DataOk, StepAt;
    case PurgeCache => hide DataOk;
    case _ => UserUntouched(s, i, now); hide DataOk, StepAt;
  }

  lemma Ready(states: seq<State>, inputs: seq<Input>, times: seq<real>, k: nat)
    requires IsRun(states, inputs, times) && k < |inputs|
    ensures var s := states[k].(clock := times[k]);
            && Shape(s) && FromRequests(s) && states[k + 1] == StepAt(s, inputs[k], times[k])
            && (inputs[k].Acknowledge? && inputs[k].ch < |s.cobjs| && s.cobjs[inputs[k].ch].ackSum.Some? ==>
                  s.cobjs[inputs[k].ch].ackSum.value.Response?)
  {
    StepSo(states, inputs, times, k);
    ClockOnly(states[k], times[k]);
    AllRequests(states[k]);
    var s := states[k];
    forall h | 0 <= h < |s.cobjs| && s.cobjs[h].ackSum.Some? ensures s.cobjs[h].ackSum.value.Response? {
      ArmedIsLive(s, h, 0);
    }
    hide IsRun, Inv, Enabled, StepAt, Client.ClientTable;
  }

  lemma AllRequests(s: State)
    requires Inv(s, 0, 0, Short(""))
    ensures FromRequests(s)
  {
    forall h | 0 <= h < |s.sobjs| ensures s.sobjs[h].origin.Request? {
      assert Server.ServerTxnOk(s.sobjs[h]);
    }
  }

  lemma {:induction false} RunData(states: seq<State>, inputs: seq<Input>, times: seq<real>, k: nat)
    requires IsRun(states, inputs, times) && k < |states|
    ensures DataAllOk(states[k])
    decreases k
  {
    if k > 0 {
      RunData(states, inputs, times, k - 1);
      Ready(states, inputs, times, k - 1);
      hide IsRun, StepAt, DataOk;
      StepData(states[k - 1].(clock := times[k - 1]), inputs[k - 1], times[k - 1]);
    }
  }

  // ----- The TU's responses -----

  /** What a call of the TU does: it answers the transaction that its key leads to, unless that has had its final
      response. */
  ghost predicate CallDone(s: State, s': State, call: TuCall, now: real) {
    if call.key in s.tserver && s.tserver[call.key] < |s.sobjs| && Open(s.sobjs[s.tserver[call.key]]) then
      && |s'.sobjs| == |s.sobjs|
      && AnsweredWith(s, s', s.tserver[call.key], call.reply, now)
    else s' == s
  }

  lemma CallDoes(s: State, call: TuCall, now: real)
    requires Shape(s)
    ensures CallDone(s, TuRespond(s, call, now), call, now)
  {
    if call.key in s.tserver {
      RespondAnswers(s, s.tserver[call.key], call.reply, false, now);
    }
    hide Respond, AnsweredWith;
  }

  /** In every run, a response of the TU leaves under its transaction's request, is stored for repeated requests, and a
      final one is the transaction's last. */
  lemma TuIsHeard(states: seq<State>, inputs: seq<Input>, times: seq<real>, k: nat)
    requires IsRun(states, inputs, times) && k < |inputs| && inputs[k].TuSends?
    ensures CallDone(states[k].(clock := times[k]), states[k + 1], inputs[k].call, times[k])
  {
    Ready(states, inputs, times, k);
    hide IsRun, CallDone, TuRespond;
    CallDoes(states[k].(clock := times[k]), inputs[k].call, times[k]);
  }

  // ----- Timers -----

  /** The request is cancelled: 487 to an INVITE, and then the TU is told if it wants to be. */
  ghost predicate Abandons(s: State, s': State, h: nat, gen: string, now: real)
    requires h < |s.sobjs|
  {
    var t := s.sobjs[h];
    && t.origin.Request?
    && if t.origin.verb == INVITE then
         exists s1: State ::
           && |s1.sobjs| == |s.sobjs| && AnsweredWith(s, s1, h, Reply(487, t.origin.toTag, gen, false), now)
           && s' == s1.(strace := s1.strace + if t.cancelCb then [CancelCb(h)] else [])
       else s' == s.(strace := s.strace + if t.cancelCb then [CancelCb(h)] else [])
  }

  lemma DoCancelAbandons(s: State, h: nat, gen: string, now: real)
    requires h < |s.sobjs| && s.sobjs[h].origin.Request?
    ensures Abandons(s, DoCancel(s, h, gen, now), h, gen, now)
  {
    var t := s.sobjs[h];
    RespondAnswers(s, h, Reply(487, t.origin.toTag, gen, false), true, now);
    hide Respond, AnsweredWith;
    var s1 := if IsInvite(t) then Respond(s, h, Reply(487, t.origin.toTag, gen, false), true, now) else s;
    assert s1.(strace := s1.strace + []) == s1;
    assert DoCancel(s, h, gen, now) == s1.(strace := s1.strace + if t.cancelCb then [CancelCb(h)] else []);
  }

  /** What a timer of the server side does. */
  ghost predicate ServerFired(s: State, s': State, h: nat, timer: ServerTimer, gen: string, now: real)
    requires h < |s.sobjs| && h < |s'.sobjs|
  {
    var (t, t') := (s.sobjs[h], s'.sobjs[h]);
    match timer
    case A =>
      && t.data.Some? && t.data.value.Answer? && t.data.value.request == t.origin && t.data.value.code >= 200
      && t.data.value.toTag == t.key.last
      && s' == s.(wire := s.wire + [t.data.value], sobjs := s'.sobjs) && OnlyServer(s, s', h)
      && t' == t.(tout := t'.tout, teA := t'.teA, sends := t.sends + [now])
      && t'.teA == Some(now + 0.5 * Pow2(|t.sends|) as real)
    case D(raises) =>
      && s'.wire == s.wire && s'.cache == s.cache && OnlyServer(s, s', h)
      && s'.strace == s.strace + (if t.noackCb then [NoAckCb(h)] else [])
      && t'.teD.None? && t'.teA.None? && t'.live == (t.noackCb && raises)
      && s'.tserver == (if t'.live then s.tserver else s.tserver - {t.key})
    case E =>
      Abandons(s.(sobjs := s.sobjs[h := t.(teE := None, teF := None)]), s', h, gen, now)
    case F =>
      && t.data.Some? && t.data.value.Answer? && t.data.value.request == t.origin && t.data.value.code < 200
      && s' == s.(wire := s.wire + (if s.provRetr > 0.0 then [t.data.value] else []), sobjs := s'.sobjs)
      && OnlyServer(s, s', h) && t' == t.(teF := if s.provRetr > 0.0 then Some(now + s.provRetr) else None)
  }

  lemma ResendsFinal(s: State, h: nat, now: real)
    requires h < |s.sobjs| && DataOk(s.sobjs[h]) && Server.ServerTxnOk(s.sobjs[h]) && s.sobjs[h].teA.Some?
    ensures ServerFired(s, ServerTimerA(s, h, now), h, A, "", now)
  {
  }

  lemma TimerDFires(s: State, h: nat, raises: bool, now: real)
    requires h < |s.sobjs| && Server.ServerTxnOk(s.sobjs[h]) && s.sobjs[h].teD.Some?
    ensures ServerFired(s, TimerD(s, h, raises), h, D(raises), "", now)
  {
  }

  lemma TimerEFires(s: State, h: nat, gen: string, now: real)
    requires h < |s.sobjs| && Server.ServerTxnOk(s.sobjs[h]) && s.sobjs[h].teE.Some?
    ensures |TimerE(s, h, gen, now).sobjs| == |s.sobjs|
    ensures ServerFired(s, TimerE(s, h, gen, now), h, E, gen, now)
  {
    var s1 := s.(sobjs := s.sobjs[h := s.sobjs[h].(teE := None, teF := None)]);
    DoCancelAbandons(s1, h, gen, now);
    DoCancelSizes(s1, h, gen, now);
    assert Open(s.sobjs[h]);
    hide DoCancel, Abandons, Server.ServerTxnOk;
  }

  lemma DoCancelSizes(s: State, h: nat, gen: string, now: real)
    requires h < |s.sobjs|
    ensures |DoCancel(s, h, gen, now).sobjs| == |s.sobjs|
  {
  }

  lemma TimerFFires(s: State, h: nat, now: real)
    requires h < |s.sobjs| && DataOk(s.sobjs[h]) && Server.ServerTxnOk(s.sobjs[h]) && s.sobjs[h].teF.Some?
    ensures ServerFired(s, TimerF(s, h, now), h, F, "", now)
  {
    assert s.sobjs[h].state == SRinging;
    hide Server.ServerTxnOk;
    assert s.wire + [] == s.wire;
  }

  lemma TimerFires(s: State, h: nat, timer: ServerTimer, gen: string, now: real)
    requires h < |s.sobjs| && Shape(s) && DataOk(s.sobjs[h]) && Server.ServerTxnOk(s.sobjs[h])
    requires Server.TimerEnabled(s, h, timer, gen, now)
    ensures var s' := StepAt(s, FireServer(h, timer, gen), now);
            |s'.sobjs| == |s.sobjs| && ServerFired(s, s', h, timer, gen, now)
  {
    ServerFiresSo(s, h, timer, gen, now);
    match timer {
      case A => ResendsFinal(s, h, now);
      case D(raises) => TimerDFires(s, h, raises, now);
      case E => TimerEFires(s, h, gen, now);
      case F => TimerFFires(s, h, now);
    }
    hide ServerTimerA, TimerD, TimerE, TimerF, Abandons, Server.ServerTxnOk, DataOk, Server.CancelEnabled;
  }

  /** In every run: timer A sends the stored final response again, to the same request and under the tag that its ACK
      will carry, and doubles the wait; timer D gives up the ACK and tells the TU if it wants to know; timer E cancels
      the INVITE; timer F sends the last provisional response again. */
  lemma ServerTimersDo(states: seq<State>, inputs: seq<Input>, times: seq<real>, k: nat, h: nat)
    requires IsRun(states, inputs, times) && k < |inputs| && inputs[k].FireServer? && inputs[k].sh == h
    ensures h < |states[k].sobjs| && |states[k + 1].sobjs| == |states[k].sobjs|
    ensures ServerFired(states[k].(clock := times[k]), states[k + 1], h, inputs[k].timer, inputs[k].tag, times[k])
  {
    Ready(states, inputs, times, k);
    RunData(states, inputs, times, k);
    StepSo(states, inputs, times, k);
    EnabledServer(states[k], h, inputs[k].timer, inputs[k].tag, times[k]);
    var s := states[k].(clock := times[k]);
    assert DataOk(s.sobjs[h]);
    hide IsRun, Inv, Enabled, Client.ClientTable, StepAt, ServerFired, Server.TimerEnabled;
    hide DataAllOk, DataOk, FromRequests;
    TimerFires(s, h, inputs[k].timer, inputs[k].tag, times[k]);
  }

  lemma EnabledServer(s: State, h: nat, timer: ServerTimer, gen: string, now: real)
    requires Inv(s, 0, 0, Short("")) && Shape(s) && Enabled(s, FireServer(h, timer, gen), now)
    ensures h < |s.sobjs| && Server.ServerTxnOk(s.sobjs[h])
    ensures Server.TimerEnabled(s.(clock := now), h, timer, gen, now)
  {
    hide Client.Inv, Server.ServerTxnOk, Server.ServerTable, Server.Calls, Server.CancelEnabled;
  }

  // ----- Requests -----

  /** One of the branches of the request is that of a client transaction with the same dialog and method. */
  predicate Loops(s: State, d: Datagram)
    requires d.Request?
  {
    || ClientKey(d.dialog, d.csVerb, d.branch) in s.tclient
    || exists i :: 0 <= i < |d.moreBranches| && ClientKey(d.dialog, d.csVerb, d.moreBranches[i]) in s.tclient
  }

  lemma InBranches(first: Option<string>, more: seq<Option<string>>, b: Option<string>)
    ensures b in [first] + more <==> b == first || b in more
  {
  }

  lemma LoopsIs(s: State, d: Datagram)
    requires d.Request?
    ensures LoopDetected(s, d) <==> Loops(s, d)
  {
    if LoopDetected(s, d) {
      var b :| b in [d.branch] + d.moreBranches && ClientKey(d.dialog, d.csVerb, b) in s.tclient;
      InBranches(d.branch, d.moreBranches, b);
      if b != d.branch {
        var i :| 0 <= i < |d.moreBranches| && d.moreBranches[i] == b;
        assert ClientKey(d.dialog, d.csVerb, d.moreBranches[i]) in s.tclient;
      }
    }
    if Loops(s, d) {
      if ClientKey(d.dialog, d.csVerb, d.branch) !in s.tclient {
        var i :| 0 <= i < |d.moreBranches| && ClientKey(d.dialog, d.csVerb, d.moreBranches[i]) in s.tclient;
        InBranches(d.branch, d.moreBranches, d.moreBranches[i]);
      } else {
        InBranches(d.branch, d.moreBranches, d.branch);
      }
    }
  }

  /** The manager answers the request itself, and nothing else happens. */
  ghost predicate Rejects(s: State, s': State, code: int, d: Datagram)
    requires d.Request?
  {
    Left(s, s', Answer(code, d, d.toTag), d) && s' == s.(wire := s'.wire, cache := s'.cache)
  }

  /** The ACK that a completed INVITE has waited for. */
  ghost predicate Confirmed(s: State, s': State, h: nat, raises: bool)
    requires h < |s.sobjs| && h < |s'.sobjs|
  {
    var (t, t') := (s.sobjs[h], s'.sobjs[h]);
    && s'.wire == s.wire && OnlyServer(s, s', h) && t'.origin == t.origin && t'.state == SConfirmed && t'.teA.None?
    && if t.teD.Some? then
         && !t'.live && t'.teD.None? && s'.tserver == s.tserver - {t.key}
         && s'.strace == s.strace + (if t.ackCb then [AckCb(h)] else [])
       else t'.live == t.live && s'.tserver == s.tserver && s'.strace == s.strace
  }

  /** A request that belongs to the transaction `h`. */
  ghost predicate Joins(s: State, s': State, h: nat, d: Datagram, raises: bool, gen: string, now: real)
    requires d.Request? && h < |s.sobjs| && s.sobjs[h].origin.Request?
  {
    var t := s.sobjs[h];
    if d.verb == t.origin.verb then
      if t.state == STrying then s' == s
      else
        && t.data.Some? && t.data.value.Answer? && t.data.value.request == t.origin
        && Left(s, s', t.data.value, d) && s' == s.(wire := s'.wire, cache := s'.cache)
    else if d.verb == CANCEL then
      exists s1: State :: Rejects(s, s1, 200, d) && if Open(t) then Abandons(s1, s', h, gen, now) else s' == s1
    else if d.verb == ACK && t.state == SCompleted then
      |s'.sobjs| == |s.sobjs| && Confirmed(s, s', h, raises)
    else s' == s
  }

  lemma AckConfirms(s: State, h: nat, d: Datagram, raises: bool)
    requires h < |s.sobjs| && d.Request?
    ensures |Acked(s, h, d, raises).sobjs| == |s.sobjs| && Confirmed(s, Acked(s, h, d, raises), h, raises)
  {
    assert s.strace + [] == s.strace;
  }

  lemma MatchedJoins(s: State, h: nat, d: Datagram, raises: bool, gen: string, now: real)
    requires d.Request? && h < |s.sobjs| && s.sobjs[h].origin.Request? && DataOk(s.sobjs[h])
    ensures Joins(s, Matched(s, h, d, raises, gen, now), h, d, raises, gen, now)
  {
    var s1 := Transmit(s, Answer(200, d, d.toTag), d);
    assert Rejects(s, s1, 200, d);
    AckConfirms(s, h, d, raises);
    DoCancelAbandons(s1, h, gen, now);
    hide Acked, DoCancel, Confirmed, Abandons, Rejects;
  }

  // ----- New requests -----

  /** `s'` has a new transaction for the request `d`; an INVITE expires after its `Expires`, or after 300 seconds. */
  ghost predicate Opened(s: State, s': State, d: Datagram, now: real)
    requires d.Request?
  {
    var h := |s.sobjs|;
    && |s'.sobjs| == h + 1 && s.sobjs <= s'.sobjs
    && s' == s.(sobjs := s'.sobjs, tserver := s.tserver[ServerKey(d.dialog, d.branch) := h])
    && var t := s'.sobjs[h];
       && t.key == ServerKey(d.dialog, d.branch) && t.origin == d && t.born == now && t.live
       && t.state == STrying && t.data.None? && t.sends == [] && !t.cancelCb && !t.noackCb && !t.ackCb
       && t.teA.None? && t.teD.None? && t.teF.None?
       && t.teE == if d.verb != INVITE then None
                   else Some(now + if d.expires.Some? && d.expires.value > 0 then d.expires.value as real else 300.0)
  }

  /** The TU's calls, one after the other. */
  ghost predicate CallsDone(chain: seq<State>, calls: seq<TuCall>, now: real) {
    |chain| == |calls| + 1 && forall j :: 0 <= j < |calls| ==> CallDone(chain[j], chain[j + 1], calls[j], now)
  }

  /** What becomes of what the TU returns: its callbacks are installed, and its reply is sent; without a reply or a
      timer that is still to come the transaction is dropped. */
  ghost predicate Installed(s: State, s': State, h: nat, ret: Option<TuReturn>, now: real)
    requires h < |s.sobjs|
  {
    var t := s.sobjs[h];
    match ret
    case None =>
      if t.live && (t.teA.Some? || t.teD.Some? || t.teE.Some? || t.teF.Some?) then s' == s
      else
        && OnlyServer(s, s', h) && s'.wire == s.wire && s'.cache == s.cache && s'.strace == s.strace
        && !s'.sobjs[h].live && !s'.sobjs[h].cancelCb && !s'.sobjs[h].noackCb && !s'.sobjs[h].ackCb
        && s'.tserver == (if t.live then s.tserver - {t.key} else s.tserver)
    case Some(r) =>
      var s1 := s.(sobjs := s.sobjs[h := t.(cancelCb := r.cancelCb, noackCb := r.noackCb)]);
      if r.reply.Some? && Open(t) then |s'.sobjs| == |s.sobjs| && AnsweredWith(s1, s', h, r.reply.value, now)
      else s' == s1
  }

  ghost predicate Refuses(s: State, s': State, h: nat, d: Datagram, refusal: Option<int>)
    requires d.Request?
  {
    if refusal.None? then s' == s
    else
      && Left(s, s', Answer(refusal.value, d, d.toTag), d)
      && s' == s.(wire := s'.wire, cache := s'.cache, strace := s.strace + [Refused(h)])
  }

  /** A new request: it gets its transaction and goes to the TU, which may answer in the call or by what it returns. */
  ghost predicate HandedOver(s: State, s': State, d: Datagram, tu: TuReaction, now: real)
    requires d.Request?
  {
    exists chain: seq<State> :: HandedAlong(s, s', d, tu, now, chain)
  }

  ghost predicate HandedAlong(s: State, s': State, d: Datagram, tu: TuReaction, now: real, chain: seq<State>)
    requires d.Request?
  {
    && chain != [] && Opened(s, chain[0].(strace := s.strace), d, now)
    && match tu
       case NoTu =>
         && chain[0].strace == s.strace
         && s' == chain[0].(cache := s'.cache) && d in s'.cache.cur && s'.cache.cur[d] == None
       case Raised(calls, refusal) =>
         && chain[0].strace == s.strace + [Handed(d)] && CallsDone(chain, calls, now)
         && Refuses(chain[|calls|], s', |s.sobjs|, d, refusal)
       case Returned(calls, ret) =>
         && chain[0].strace == s.strace + [Handed(d)] && CallsDone(chain, calls, now)
         && |chain[|calls|].sobjs| > |s.sobjs| && Installed(chain[|calls|], s', |s.sobjs|, ret, now)
  }

  lemma {:induction false} CallsDo(s: State, calls: seq<TuCall>, now: real) returns (chain: seq<State>)
    requires Shape(s)
    ensures CallsDone(chain, calls, now) && chain[0] == s && chain[|calls|] == TuCalls(s, calls, now)
    decreases |calls|
  {
    if calls == [] {
      chain := [s];
    } else {
      var s1 := TuRespond(s, calls[0], now);
      RespondShape(s, calls[0], now);
      CallDoes(s, calls[0], now);
      var rest := CallsDo(s1, calls[1..], now);
      hide TuRespond, CallDone, Shape;
      chain := [s] + rest;
      forall j | 0 <= j < |calls| ensures CallDone(chain[j], chain[j + 1], calls[j], now) {
        if j > 0 {
          assert CallDone(rest[j - 1], rest[j], calls[1..][j - 1], now);
        }
      }
    }
  }

  lemma FinishInstalls(s: State, h: nat, ret: Option<TuReturn>, now: real)
    requires h < |s.sobjs|
    ensures Installed(s, FinishHandover(s, h, ret, now), h, ret, now)
  {
    if ret.Some? {
      var r := ret.value;
      var s1 := s.(sobjs := s.sobjs[h := s.sobjs[h].(cancelCb := r.cancelCb, noackCb := r.noackCb)]);
      if r.reply.Some? {
        RespondAnswers(s1, h, r.reply.value, false, now);
      }
      hide Respond, AnsweredWith;
    }
  }

  lemma NewOpens(s: State, d: Datagram, now: real)
    requires d.Request?
    ensures Opened(s, AddServer(s, d, now), d, now)
  {
  }

  lemma RefuseRefuses(s: State, h: nat, d: Datagram, refusal: Option<int>)
    requires d.Request?
    ensures Refuses(s, Refuse(s, h, d, refusal), h, d, refusal)
  {
  }

  lemma HandOverHands(s: State, d: Datagram, tu: TuReaction, now: real)
    requires Shape(s) && d.Request?
    ensures HandedOver(s, HandOver(s, d, tu, now), d, tu, now)
  {
    NewOpens(s, d, now);
    var s1 := AddServer(s, d, now);
    var s2 := Log(s1, Handed(d));
    assert s1.strace == s.strace && s2.(strace := s.strace) == s1 && s1.(strace := s.strace) == s1;
    if tu.NoTu? {
      hide Opened;
      assert HandedAlong(s, HandOver(s, d, tu, now), d, tu, now, [s1]);
    } else {
      var chain := CallsDo(s2, tu.calls, now);
      TuCallsShape(s2, tu.calls, now);
      RefuseRefuses(TuCalls(s2, tu.calls, now), |s.sobjs|, d, if tu.Raised? then tu.refusal else None);
      FinishInstalls(TuCalls(s2, tu.calls, now), |s.sobjs|, if tu.Returned? then tu.ret else None, now);
      hide Opened, AddServer, Refuse, FinishHandover, Installed, Refuses, TuCalls, CallsDone;
      assert HandedAlong(s, HandOver(s, d, tu, now), d, tu, now, chain);
    }
  }

  /** What a request that the cache does not know does, in this order: 482 if it has been sent from here, joining the
      transaction that it belongs to, nothing for a stray ACK, 481 for a stray CANCEL, and else the TU. */
  ghost predicate RequestSays(s: State, s': State, d: Datagram, tu: TuReaction, gen: string, now: real)
    requires d.Request? && Shape(s) && FromRequests(s)
  {
    var key := ServerKey(d.dialog, if d.verb == ACK then d.toTag else d.branch);
    if Loops(s, d) then Rejects(s, s', 482, d)
    else if key in s.tserver then Joins(s, s', s.tserver[key], d, tu.Raised?, gen, now)
    else if d.verb == ACK then s' == s.(cache := s'.cache) && d in s'.cache.cur && s'.cache.cur[d] == None
    else if d.verb == CANCEL then Rejects(s, s', 481, d)
    else HandedOver(s, s', d, tu, now)
  }

  lemma RequestDoes(s: State, d: Datagram, tu: TuReaction, gen: string, now: real)
    requires d.Request? && Shape(s) && FromRequests(s) && DataAllOk(s)
    ensures RequestSays(s, IncomingRequest(s, d, tu, gen, now), d, tu, gen, now)
  {
    LoopsIs(s, d);
    HandOverHands(s, d, tu, now);
    if LookupKey(d) in s.tserver {
      assert DataOk(s.sobjs[s.tserver[LookupKey(d)]]);
      MatchedJoins(s, s.tserver[LookupKey(d)], d, tu.Raised?, gen, now);
    }
    hide Loops, LoopDetected, HandOver, HandedOver, Matched, Joins, FromRequests, Shape, DataAllOk, DataOk;
  }

  /** In every run, so it is with each request that the cache does not know. */
  lemma RequestIsHandled(states: seq<State>, inputs: seq<Input>, times: seq<real>, k: nat)
    requires IsRun(states, inputs, times) && k < |inputs|
    requires inputs[k].Receive? && inputs[k].d.Request? && Lookup(states[k].cache, inputs[k].d).None?
    ensures var s := states[k].(clock := times[k]);
            && Shape(s) && FromRequests(s)
            && RequestSays(s, states[k + 1], inputs[k].d, inputs[k].tu, inputs[k].gen, times[k])
  {
    Ready(states, inputs, times, k);
    RunData(states, inputs, times, k);
    var s := states[k].(clock := times[k]);
    assert DataAllOk(s) by {
      SameData(states[k], times[k]);
    }
    hide IsRun, DataAllOk, FromRequests, Shape, RequestSays, IncomingRequest, IncomingResponse, Lookup;
    RequestDoes(s, inputs[k].d, inputs[k].tu, inputs[k].gen, times[k]);
  }

  lemma SameData(s: State, now: real)
    requires DataAllOk(s)
    ensures DataAllOk(s.(clock := now))
  {
    hide DataOk;
  }

  // ----- Everything else that arrives -----

  /** What nobody handles: the datagram is noted in the cache, and nothing else happens. */
  ghost predicate Noted(s: State, s': State, d: Datagram) {
    s' == s.(cache := s'.cache) && d in s'.cache.cur && s'.cache.cur[d] == None
  }

  /** In every run: a short datagram is dropped; what the cache knows gets what the cache has; what cannot be parsed is
      noted unless its body is cut; and so is a response that no transaction waits for. */
  lemma OtherDatagramsDo(states: seq<State>, inputs: seq<Input>, times: seq<real>, k: nat)
    requires IsRun(states, inputs, times) && k < |inputs| && inputs[k].Receive?
    ensures var (s, s', d) := (states[k].(clock := times[k]), states[k + 1], inputs[k].d);
            && (d.Short? ==> s' == s)
            && (!d.Short? && d in s.cache.cur ==>
                  s' == s.(wire := s.wire + if s.cache.cur[d].Some? then [s.cache.cur[d].value] else []))
            && (!d.Short? && d !in s.cache.cur && d in s.cache.prev ==>
                  s' == s.(wire := s.wire + if s.cache.prev[d].Some? then [s.cache.prev[d].value] else []))
            && (d !in s.cache.cur && d !in s.cache.prev ==>
                  && (d.Malformed? ==> if d.cut then s' == s else Noted(s, s', d))
                  && (d.Response? && (d.key !in s.tclient || d.code < 100 || d.code > 999) ==> Noted(s, s', d)))
  {
    Ready(states, inputs, times, k);
    hide IsRun, IncomingRequest, IncomingResponse, FromRequests, Shape;
    var s := states[k].(clock := times[k]);
    assert s.(wire := s.wire + []) == s;
  }

  /** In every run, a purge makes the current entries the older ones and forgets what was older. */
  lemma PurgeDoes(states: seq<State>, inputs: seq<Input>, times: seq<real>, k: nat)
    requires IsRun(states, inputs, times) && k < |inputs| && inputs[k].PurgeCache?
    ensures var s := states[k].(clock := times[k]);
            states[k + 1] == s.(cache := Cache(map[], s.cache.cur), strace := s.strace + [Purged])
  {
    Ready(states, inputs, times, k);
    hide IsRun, FromRequests, Shape;
  }
}
