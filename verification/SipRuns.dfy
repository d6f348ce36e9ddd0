/** The transaction manager over whole runs: every interleaving of datagrams, timers, TU calls and cache purges. */
module SipRuns {
  import opened Basics
  import opened TwoGeneration
  import opened SipTransactions
  import Server = ServerRuns
  import Client = ClientRuns

  /** What the environment owes the manager: time goes forward, timers run when due, branches are fresh, To tags
      do not collide with a live transaction, and the TU cancels and acknowledges live transactions only. */
  ghost predicate Permits(s: State, i: Input, now: real)
    requires Shape(s)
  {
    match i
    case Receive(d, tu, gen) => Server.ReceiveEnabled(s, d, tu, gen, now)
    case TuSends(call) => call.key in s.tserver ==> Server.TagFree(s, s.tserver[call.key], call.reply)
    case FireServer(h, timer, tag) => Server.TimerEnabled(s, h, timer, tag, now)
    case StartClient(key, _, _) => Client.FreshBranch(s, key)
    case SetUack(h) => h < |s.cobjs| && s.cobjs[h].live
    case Cancel(h) => h < |s.cobjs| && s.cobjs[h].live && s.cobjs[h].key.verb == INVITE
    case Acknowledge(h) => h < |s.cobjs| && s.cobjs[h].live && s.cobjs[h].state == CUack
    case FireClient(h, timer) => Client.TimerEnabled(s, h, timer, now)
    case PurgeCache => true
  }

  ghost predicate Enabled(s: State, i: Input, now: real)
    requires Shape(s)
  {
    s.clock <= now && Permits(s.(clock := now), i, now)
  }

  /** A run: `states[0]` is a fresh manager, and each input leads from one state to the next. */
  ghost predicate Next(s: State, i: Input, now: real, s': State) {
    Shape(s) ==> Enabled(s, i, now) && s' == Step(s, i, now)
  }

  ghost predicate IsRun(states: seq<State>, inputs: seq<Input>, times: seq<real>) {
    && |states| == |inputs| + 1 && |times| == |inputs|
    && states[0] == Init(states[0].provRetr, states[0].clock)
    && forall k :: 0 <= k < |inputs| ==> Next(states[k], inputs[k], times[k], states[k + 1])
  }

  // ----- One step -----

  ghost predicate Inv(s: State, w: nat, c: nat, d: Datagram) {
    Server.Inv(s, w, d) && Client.Inv(s, c)
  }

  lemma InvShape(s: State, w: nat, c: nat, d: Datagram)
    requires Inv(s, w, c, d)
    ensures Shape(s)
  {
  }

  ghost predicate ClientUntouched(s: State, s': State) {
    s'.tclient == s.tclient && s'.cobjs == s.cobjs && s'.ctrace == s.ctrace
  }

  lemma {:induction false} TuCallsUntouched(s: State, calls: seq<TuCall>, now: real)
    requires Shape(s)
    ensures ClientUntouched(s, TuCalls(s, calls, now))
    decreases |calls|
  {
    if calls != [] {
      RespondShape(s, calls[0], now);
      TuCallsUntouched(TuRespond(s, calls[0], now), calls[1..], now);
    }
  }

  lemma HandOverUntouched(s: State, d: Datagram, tu: TuReaction, now: real)
    requires Shape(s) && d.Request?
    ensures ClientUntouched(s, HandOver(s, d, tu, now))
  {
    var s1 := Log(AddServer(s, d, now), Handed(d));
    if tu.Raised? || tu.Returned? {
      TuCallsUntouched(s1, tu.calls, now);
      TuCallsShape(s1, tu.calls, now);
    }
  }

  lemma RequestUntouched(s: State, d: Datagram, tu: TuReaction, gen: string, now: real)
    requires Shape(s) && d.Request?
    ensures ClientUntouched(s, IncomingRequest(s, d, tu, gen, now))
  {
    HandOverUntouched(s, d, tu, now);
    hide HandOver;
  }

  lemma ClientKept(s: State, s': State, c: nat)
    requires Client.Inv(s, c) && ClientUntouched(s, s')
    ensures Client.Inv(s', c)
  {
    assert Client.Story(s, c) && Client.Story(s', c);
    hide Client.Inv;
    Client.SameClientsInv(s, s', c);
  }

  lemma ReceiveInv(s: State, d': Datagram, tu: TuReaction, gen: string, now: real, w: nat, c: nat, d: Datagram)
    requires Inv(s, w, c, d) && Shape(s) && Server.ReceiveEnabled(s, d', tu, gen, now)
    ensures Inv(HandleIncoming(s, d', tu, gen, now), w, c, d)
  {
    hide Client.Inv, Server.Inv, Server.ReceiveEnabled, IncomingRequest, IncomingResponse, Lookup;
    Server.DatagramInv(s, d', tu, gen, now, w, d);
    var s' := HandleIncoming(s, d', tu, gen, now);
    if d'.Short? || Lookup(s.cache, d').Some? || d'.Malformed? {
      ClientKept(s, s', c);
    } else if d'.Request? {
      RequestUntouched(s, d', tu, gen, now);
      ClientKept(s, s', c);
    } else if d'.code < 100 || d'.code > 999 || d'.key !in s.tclient {
      ClientKept(s, s', c);
    } else {
      LiveInTable(s, d'.key, c);
      Client.ResponseInv(s, s.tclient[d'.key], d', tu.Raised?, now, c);
    }
  }

  lemma LiveInTable(s: State, key: ClientKey, c: nat)
    requires Client.Inv(s, c) && key in s.tclient
    ensures s.tclient[key] < |s.cobjs| && s.cobjs[s.tclient[key]].live
  {
  }

  lemma ServerTimerUntouched(s: State, h: nat, timer: ServerTimer, tag: string, now: real)
    requires Shape(s)
    ensures ClientUntouched(s, StepAt(s, FireServer(h, timer, tag), now))
  {
  }

  lemma ServerFiresSo(s: State, h: nat, timer: ServerTimer, tag: string, now: real)
    requires Shape(s) && h < |s.sobjs|
    ensures StepAt(s, FireServer(h, timer, tag), now) == match timer
                                                         case A => ServerTimerA(s, h, now)
                                                         case D(raises) => TimerD(s, h, raises)
                                                         case E => TimerE(s, h, tag, now)
                                                         case F => TimerF(s, h, now)
  {
    hide ServerTimerA, TimerD, TimerE, TimerF;
  }

  lemma ServerTimerInv(s: State, h: nat, timer: ServerTimer, tag: string, now: real, w: nat, c: nat, d: Datagram)
    requires Inv(s, w, c, d) && Shape(s) && Server.TimerEnabled(s, h, timer, tag, now)
    ensures Inv(StepAt(s, FireServer(h, timer, tag), now), w, c, d)
  {
    var s' := StepAt(s, FireServer(h, timer, tag), now);
    ServerTimerUntouched(s, h, timer, tag, now);
    hide Server.Inv, Client.Inv, ClientUntouched, StepAt, ServerTimerA, TimerD, TimerE, TimerF;
    ClientKept(s, s', c);
    ServerFiresSo(s, h, timer, tag, now);
    match timer
    case A => Server.TimerAInv(s, h, now, w, d);
    case D(raises) => Server.TimerDInv(s, h, raises, now, w, d);
    case E => Server.TimerEInv(s, h, tag, now, w, d);
    case F => Server.TimerFInv(s, h, now, w, d);
  }

  lemma FiresSo(s: State, h: nat, timer: ClientTimer, now: real)
    requires Shape(s) && h < |s.cobjs| && (s.cobjs[h].ackSum.Some? ==> s.cobjs[h].ackSum.value.Response?)
    ensures StepAt(s, FireClient(h, timer), now) == match timer
                                                    case TA => ClientTimerA(s, h, now)
                                                    case TB => TimerB(s, h, now)
                                                    case TC => TimerC(s, h)
                                                    case TG => TimerG(s, h)
  {
    hide ClientTimerA, TimerB, TimerC, TimerG;
  }

  lemma ClientFires(s: State, h: nat, timer: ClientTimer, now: real, c: nat)
    requires Client.Inv(s, c) && Shape(s) && Client.TimerEnabled(s, h, timer, now)
    ensures h < |s.cobjs| && Client.Inv(StepAt(s, FireClient(h, timer), now), c)
  {
    hide Client.Inv, StepAt, ClientTimerA, TimerB, TimerC, TimerG;
    ArmedIsLive(s, h, c);
    FiresSo(s, h, timer, now);
    match timer
    case TA => Client.TimerAInv(s, h, now, c);
    case TB => Client.TimerBInv(s, h, now, c);
    case TC => Client.TimerCInv(s, h, now, c);
    case TG => Client.TimerGInv(s, h, now, c);
  }

  lemma ClientTimerUntouched(s: State, h: nat, timer: ClientTimer, now: real)
    requires Shape(s) && h < |s.cobjs|
    ensures Server.ServerUntouched(s, StepAt(s, FireClient(h, timer), now))
  {
  }

  lemma ClientTimerInv(s: State, h: nat, timer: ClientTimer, now: real, w: nat, c: nat, d: Datagram)
    requires Inv(s, w, c, d) && Shape(s) && Client.TimerEnabled(s, h, timer, now)
    ensures Inv(StepAt(s, FireClient(h, timer), now), w, c, d)
  {
    hide Server.Inv, Client.Inv, Server.ServerUntouched, Client.TimerEnabled, StepAt;
    ClientFires(s, h, timer, now, c);
    ClientTimerUntouched(s, h, timer, now);
    Server.UntouchedInv(s, StepAt(s, FireClient(h, timer), now), w, d);
  }

  lemma ArmedIsLive(s: State, h: nat, c: nat)
    requires Client.Inv(s, c) && h < |s.cobjs|
    ensures s.cobjs[h].teC.Some? ==> s.cobjs[h].live && s.cobjs[h].state == CTerminated
    ensures s.cobjs[h].ackSum.Some? ==> s.cobjs[h].ackSum.value.Response?
  {
    Client.TimerTells(s.cobjs[h]);
  }

  lemma UserUntouched(s: State, i: Input, now: real)
    requires Shape(s) && (i.StartClient? || i.SetUack? || i.Cancel? || i.Acknowledge?)
    requires i.Acknowledge? && i.ch < |s.cobjs| && s.cobjs[i.ch].ackSum.Some? ==> s.cobjs[i.ch].ackSum.value.Response?
    ensures Server.ServerUntouched(s, StepAt(s, i, now))
  {
  }

  lemma UserInv(s: State, i: Input, now: real, w: nat, c: nat, d: Datagram)
    requires Inv(s, w, c, d) && Shape(s) && Permits(s, i, now)
    requires i.StartClient? || i.SetUack? || i.Cancel? || i.Acknowledge?
    ensures Inv(StepAt(s, i, now), w, c, d)
  {
    if i.Acknowledge? {
      ArmedIsLive(s, i.ch, c);
    }
    UserUntouched(s, i, now);
    hide Server.Inv, Client.Inv;
    Server.UntouchedInv(s, StepAt(s, i, now), w, d);
    match i
    case StartClient(key, expires, hasCb) => Client.NewClientInv(s, key, expires, hasCb, now, c);
    case SetUack(h) => Client.SetUackInv(s, h, c);
    case Cancel(h) => Client.CancelInv(s, h, now, c);
    case Acknowledge(h) => Client.SendAckInv(s, h, c);
  }

  lemma StepAtInv(s: State, i: Input, now: real, w: nat, c: nat, d: Datagram)
    requires Inv(s, w, c, d) && Shape(s) && Permits(s, i, now)
    ensures Inv(StepAt(s, i, now), w, c, d)
  {
    hide Server.Inv, Client.Inv, Server.ReceiveEnabled, Server.TagFree, Server.TimerEnabled, Client.TimerEnabled;
    match i
    case Receive(d', tu, gen) => ReceiveInv(s, d', tu, gen, now, w, c, d);
    case TuSends(call) =>
      Server.TuRespondInv(s, call, now, w, d);
      ClientKept(s, TuRespond(s, call, now), c);
    case FireServer(h, timer, tag) => ServerTimerInv(s, h, timer, tag, now, w, c, d);
    case FireClient(h, timer) => ClientTimerInv(s, h, timer, now, w, c, d);
    case PurgeCache =>
      Server.PurgeInv(s, w, d);
      ClientKept(s, Purge(s), c);
    case StartClient(_, _, _) => UserInv(s, i, now, w, c, d);
    case SetUack(_) => UserInv(s, i, now, w, c, d);
    case Cancel(_) => UserInv(s, i, now, w, c, d);
    case Acknowledge(_) => UserInv(s, i, now, w, c, d);
  }

  lemma StepInv(s: State, i: Input, now: real, w: nat, c: nat, d: Datagram)
    requires Inv(s, w, c, d) && Shape(s) && Enabled(s, i, now)
    ensures Inv(Step(s, i, now), w, c, d)
  {
    var s1 := s.(clock := now);
    assert s.(wire := s.wire, clock := now) == s1;
    Server.SendInv(s, s.wire, now, w, d);
    ClientKept(s, s1, c);
    hide Server.Inv, Client.Inv, StepAt, Permits;
    StepAtInv(s1, i, now, w, c, d);
  }

  /** The invariant holds in every state of every run. */
  lemma {:induction false} RunInv(states: seq<State>, inputs: seq<Input>, times: seq<real>, k: nat, w: nat, c: nat,
                                  d: Datagram)
    requires IsRun(states, inputs, times) && k < |states|
    ensures Inv(states[k], w, c, d)
  {
    if k == 0 {
      Server.InitInv(states[0].provRetr, states[0].clock, w, d);
      Client.InitInv(states[0].provRetr, states[0].clock, c);
    } else {
      RunInv(states, inputs, times, k - 1, w, c, d);
      InvShape(states[k - 1], w, c, d);
      assert Next(states[k - 1], inputs[k - 1], times[k - 1], states[k]);
      StepInv(states[k - 1], inputs[k - 1], times[k - 1], w, c, d);
    }
  }

  // ----- The datagram promise -----

  /** After a handover, the datagram is answered again only by a final response; this finds it in the trace,
      with the purges that came after it. */
  lemma {:induction false} AnsweredAt(trace: seq<ServerEvent>, d: Datagram) returns (f: nat, p1: nat, p2: nat)
    requires Server.StatusOf(trace, d).Answered?
    ensures f < |trace| && trace[f].Final? && trace[f].d == d
    ensures forall k :: f < k < |trace| ==> trace[k] != Handed(d)
    ensures Server.StatusOf(trace, d).purges >= 1 ==> f < p1 < |trace| && trace[p1] == Purged
    ensures Server.StatusOf(trace, d).purges >= 2 ==> p1 < p2 < |trace| && trace[p2] == Purged
    decreases |trace|
  {
    var was := trace[..|trace| - 1];
    var e := trace[|trace| - 1];
    if e.Final? && e.d == d {
      f, p1, p2 := |trace| - 1, 0, 0;
    } else {
      f, p1, p2 := AnsweredAt(was, d);
      var n := Server.StatusOf(was, d).purges;
      if e == Purged && n == 0 {
        p1 := |trace| - 1;
      } else if e == Purged && n == 1 {
        p2 := |trace| - 1;
      }
    }
  }

  lemma {:induction false} HandedIsNotForgotten(trace: seq<ServerEvent>, d: Datagram, i: nat)
    requires i < |trace| && trace[i] == Handed(d)
    ensures !Server.StatusOf(trace, d).Never?
    decreases |trace|
  {
    if i < |trace| - 1 {
      HandedIsNotForgotten(trace[..|trace| - 1], d, i);
    }
  }

  lemma {:induction false} PrefixHandovers(trace: seq<ServerEvent>, d: Datagram, j: nat)
    requires Server.HandoversOk(trace, d) && j < |trace| && trace[j] == Handed(d)
    ensures Server.MayHandOver(Server.StatusOf(trace[..j], d))
    decreases |trace|
  {
    if j < |trace| - 1 {
      PrefixHandovers(trace[..|trace| - 1], d, j);
      assert trace[..|trace| - 1][..j] == trace[..j];
    }
  }

  /** In every run: between two handovers of one byte-identical INVITE there are a final response to it and then
      two purges of the reply cache. */
  lemma InviteHandedOnce(states: seq<State>, inputs: seq<Input>, times: seq<real>, k: nat, d: Datagram, i: nat, j: nat)
    requires IsRun(states, inputs, times) && k < |states|
    requires d.Request? && d.verb == INVITE
    requires i < j < |states[k].strace| && states[k].strace[i] == states[k].strace[j] == Handed(d)
    ensures exists f, p1, p2 :: i < f < p1 < p2 < j && states[k].strace[f].Final? && states[k].strace[f].d == d
                                && states[k].strace[p1] == states[k].strace[p2] == Purged
  {
    RunInv(states, inputs, times, k, 0, 0, d);
    var trace := states[k].strace;
    assert Server.HandoversOk(trace, d);
    PrefixHandovers(trace, d, j);
    HandedIsNotForgotten(trace[..j], d, i);
    var f, p1, p2 := AnsweredAt(trace[..j], d);
    assert trace[..j][i] == Handed(d);
    assert i < f < p1 < p2 < j && trace[f].Final? && trace[f].d == d && trace[p1] == trace[p2] == Purged;
  }

  /** While an INVITE datagram is answered and less than two purges old, its duplicate is answered with a final
      response from the cache, and nothing else happens. */
  lemma DuplicateGetsFinalReply(states: seq<State>, inputs: seq<Input>, times: seq<real>, k: nat, d: Datagram,
                                tu: TuReaction, gen: string, now: real)
    requires IsRun(states, inputs, times) && k < |states|
    requires d.Request? && d.verb == INVITE && Server.Guarded(states[k].strace, d)
    ensures Shape(states[k])
    ensures exists code, tag :: code >= 200 &&
              HandleIncoming(states[k], d, tu, gen, now) == Send(states[k], Answer(code, d, tag))
  {
    var s := states[k];
    RunInv(states, inputs, times, k, 0, 0, d);
    InvShape(s, 0, 0, d);
    assert Server.Tracked(s, d);
    var e := Lookup(s.cache, d).value.value;
    assert e == Answer(e.code, d, e.toTag);
  }

  // ----- The table and the callbacks -----

  /** In every run: the table leads from each key to the live transaction with this `tid`; each transaction gives
      at most one final response; of its two ACK callbacks at most one runs, at most once, and of a transaction in
      the table only one that raised. */
  lemma ServerTransactionsInRuns(states: seq<State>, inputs: seq<Input>, times: seq<real>, k: nat, h: nat)
    requires IsRun(states, inputs, times) && k < |states|
    ensures Server.ServerTable(states[k])
    ensures Server.Finals(states[k].strace, h) <= 1
    ensures Server.AckCalls(states[k].strace, h) <= 1
    ensures h < |states[k].sobjs| && states[k].sobjs[h].live ==>
              (Server.AckCalls(states[k].strace, h) == 1 <==> Server.Abandoned(states[k].sobjs[h]))
  {
    RunInv(states, inputs, times, k, h, 0, Short(""));
  }

  /** In every run, a request gets at most one final response, those that go past its transaction included, if and
      only if it was not refused, or its transaction has not been answered. */
  lemma OneFinalExactlyWhen(states: seq<State>, inputs: seq<Input>, times: seq<real>, k: nat, h: nat)
    requires IsRun(states, inputs, times) && k < |states| && h < |states[k].sobjs|
    ensures var finals, refusals := Server.Finals(states[k].strace, h), Server.Refusals(states[k].strace, h);
            && (finals + refusals <= 1 <==> !(refusals > 0 && !Open(states[k].sobjs[h])))
            && finals + refusals <= 2
  {
    RunInv(states, inputs, times, k, h, 0, Short(""));
  }

  /** In every run, an INVITE in the table has timer E armed until the final response, and then D and A unless its
      `noack_cb` has raised; only an answered one ever leaves. */
  lemma InviteKeepsATimer(states: seq<State>, inputs: seq<Input>, times: seq<real>, k: nat, h: nat)
    requires IsRun(states, inputs, times) && k < |states| && h < |states[k].sobjs| && IsInvite(states[k].sobjs[h])
    ensures var t := states[k].sobjs[h];
            && (t.live && Open(t) ==> t.teE.Some? && t.teD.None? && t.teA.None?)
            && (t.live && !Open(t) ==> t.teE.None? && (t.teA.Some? <==> t.teD.Some?)
                                       && (t.teD.Some? <==> Server.AckCalls(states[k].strace, h) == 0))
            && (!t.live ==> !Open(t) && Server.Finals(states[k].strace, h) == 1)
  {
    RunInv(states, inputs, times, k, h, 0, Short(""));
    assert Server.ServerTxnOk(states[k].sobjs[h]);
    hide Server.ServerTable, Server.Tracked, Client.Inv, Spaced, Pow2, Backoff;
  }

  /** In every run, exactly these entries of the tables have a timer that will take them out: an INVITE of the server
      side on which `noack_cb` has not raised; and on the client side all but those that wait for the TU's ACK, and
      the undecided ones on whose final response the callback raised with no provisional response since. */
  lemma KeepsATimerExactlyWhen(states: seq<State>, inputs: seq<Input>, times: seq<real>, k: nat, h: nat, c: nat)
    requires IsRun(states, inputs, times) && k < |states|
    ensures h < |states[k].sobjs| && states[k].sobjs[h].live ==>
              var t := states[k].sobjs[h];
              (t.teE.Some? || t.teD.Some? <==> IsInvite(t) && Server.AckCalls(states[k].strace, h) == 0)
    ensures c < |states[k].cobjs| && states[k].cobjs[c].live ==>
              var t := states[k].cobjs[c];
              (t.teB.Some? || t.teC.Some? <==>
               t.state != CUack && !(Client.Undecided(t) && Client.StuckIn(states[k].ctrace, c)))
  {
    RunInv(states, inputs, times, k, h, c, Short(""));
    assert h < |states[k].sobjs| ==> Server.ServerTxnOk(states[k].sobjs[h]);
    assert c < |states[k].cobjs| ==> Client.ClientTxnOk(states[k].cobjs[c]);
    hide Server.ServerTable, Server.Tracked, Client.ClientTable, Client.Branches, Spaced, Pow2, Backoff;
  }

  // ----- Client transactions -----

  /** In every run: every final outcome that the TU hears of but the last had a callback that raised; timers fit the
      state; no CANCEL leaves before a provisional response and a deferred one leaves at most once. */
  lemma ClientTransactionsInRuns(states: seq<State>, inputs: seq<Input>, times: seq<real>, k: nat, h: nat)
    requires IsRun(states, inputs, times) && k < |states| && h < |states[k].cobjs|
    ensures Client.ClientTable(states[k])
    ensures Client.Outcomes(states[k].ctrace, h) <= Client.Swallowed(states[k].ctrace, h) + 1
    ensures states[k].cobjs[h].live ==> Client.TimersFit(states[k].cobjs[h])
    ensures Client.CancelsFollow(states[k].ctrace, h)
    ensures Client.Deferred(states[k].ctrace, h) <= 1
  {
    RunInv(states, inputs, times, k, 0, h, Short(""));
    assert Client.ClientTxnOk(states[k].cobjs[h]);
  }

  /** In every run, the TU hears of at most one final outcome if and only if none came after one on which its callback
      had raised. */
  lemma OneOutcomeExactlyWhen(states: seq<State>, inputs: seq<Input>, times: seq<real>, k: nat, h: nat)
    requires IsRun(states, inputs, times) && k < |states|
    ensures Client.Outcomes(states[k].ctrace, h) <= 1 <==> !Client.ToldAfterRaise(states[k].ctrace, h)
  {
    RunInv(states, inputs, times, k, 0, h, Short(""));
    Client.TwoOutcomes(states[k].ctrace, h);
  }

  lemma FirstResponseCancels(s: State, h: nat, d: Datagram, raises: bool, now: real)
    requires h < |s.cobjs| && Client.Unrung(s.cobjs[h]) && s.cobjs[h].cancelPending
    requires CancelKey(s.cobjs[h].key) !in s.tclient
    requires d.Response? && 100 <= d.code < 200
    ensures var s' := IncomingResponse(s, h, d, raises, now);
            && s'.wire == s.wire + [Ask(CancelKey(s.cobjs[h].key))]
            && |s'.cobjs| == |s.cobjs| + 1 && CancelKey(s.cobjs[h].key) in s'.tclient
            && s'.cobjs[h].state == CRinging && !s'.cobjs[h].cancelPending
            && s.ctrace + [Provisional(h), CancelSent(h, true)] <= s'.ctrace
  {
    hide FinalResponse;
  }

  lemma CancelNotSentYet(s: State, h: nat)
    requires Client.Inv(s, h) && h < |s.cobjs| && Client.Unrung(s.cobjs[h]) && s.cobjs[h].cancelPending
    ensures CancelKey(s.cobjs[h].key) !in s.tclient && Client.Deferred(s.ctrace, h) == 0
  {
    assert Client.ClientTxnOk(s.cobjs[h]);
    Client.CancelledIsHeard(s, h);
  }

  /** A datagram that was not seen before and carries the transaction's key reaches the transaction. */
  lemma ResponseReaches(s: State, h: nat, d: Datagram, tu: TuReaction, gen: string, now: real)
    requires Shape(s) && Client.ClientTable(s) && h < |s.cobjs| && s.cobjs[h].live
    requires d.Response? && d.key == s.cobjs[h].key && 100 <= d.code <= 999 && Lookup(s.cache, d).None?
    ensures HandleIncoming(s, d, tu, gen, now) == IncomingResponse(s, h, d, tu.Raised?, now)
  {
    hide IncomingResponse, IncomingRequest, Lookup;
  }

  /** In every run, the first response to an INVITE whose cancellation was deferred, when it is provisional, sends
      the CANCEL right then: one new transaction, one request on the wire. */
  lemma DeferredCancelLeaves(states: seq<State>, inputs: seq<Input>, times: seq<real>, k: nat, h: nat)
    requires IsRun(states, inputs, times) && k < |inputs| && h < |states[k].cobjs|
    requires Client.Unrung(states[k].cobjs[h]) && states[k].cobjs[h].cancelPending
    requires inputs[k].Receive? && inputs[k].d.Response? && inputs[k].d.key == states[k].cobjs[h].key
    requires 100 <= inputs[k].d.code < 200 && Lookup(states[k].cache, inputs[k].d).None?
    ensures var (s, s') := (states[k], states[k + 1]);
            && s'.wire == s.wire + [Ask(CancelKey(s.cobjs[h].key))]
            && |s'.cobjs| == |s.cobjs| + 1 && CancelKey(s.cobjs[h].key) in s'.tclient
            && s'.cobjs[h].state == CRinging && !s'.cobjs[h].cancelPending
            && s.ctrace + [Provisional(h), CancelSent(h, true)] <= s'.ctrace
            && Client.Deferred(s.ctrace, h) == 0
  {
    var now := times[k];
    RunInv(states, inputs, times, k, 0, h, Short(""));
    InvShape(states[k], 0, h, Short(""));
    assert Next(states[k], inputs[k], now, states[k + 1]);
    assert Client.ClientTable(states[k]);
    hide IsRun, Server.Inv, Client.Inv, HandleIncoming, IncomingResponse, Client.Deferred, Client.ClientTable, Lookup,
         Permits;
    CancelNotSentYet(states[k], h);
    var s := states[k].(clock := now);
    assert Client.ClientTable(s) by { SameTable(states[k], now); }
    ResponseReaches(s, h, inputs[k].d, inputs[k].tu, inputs[k].gen, now);
    FirstResponseCancels(s, h, inputs[k].d, inputs[k].tu.Raised?, now);
  }

  lemma SameTable(s: State, now: real)
    requires Client.ClientTable(s)
    ensures Client.ClientTable(s.(clock := now))
  {
  }

  // ----- Sends -----

  /** In every run, however late the loop: on its timers a request, or a final response to INVITE, leaves at most
      seven times, the k-th resend at least 0.5(2^k - 1) seconds after the first send. */
  lemma TimedSendsAreBounded(states: seq<State>, inputs: seq<Input>, times: seq<real>, k: nat)
    requires IsRun(states, inputs, times) && k < |states|
    ensures forall h :: 0 <= h < |states[k].sobjs| ==> Spaced(states[k].sobjs[h].sends)
    ensures forall h :: 0 <= h < |states[k].cobjs| ==> Spaced(states[k].cobjs[h].sends)
  {
    RunInv(states, inputs, times, k, 0, 0, Short(""));
    forall h | 0 <= h < |states[k].sobjs| ensures Spaced(states[k].sobjs[h].sends) {
      assert Server.ServerTxnOk(states[k].sobjs[h]);
    }
    forall h | 0 <= h < |states[k].cobjs| ensures Spaced(states[k].cobjs[h].sends) {
      assert Client.ClientTxnOk(states[k].cobjs[h]);
    }
  }

  /** In every run, each of the timers of a transaction that leaves the tables has been cancelled or has fired: nothing
      is armed that would fire on what is no longer there. */
  lemma NothingFiresAfterRemoval(states: seq<State>, inputs: seq<Input>, times: seq<real>, k: nat, h: nat)
    requires IsRun(states, inputs, times) && k < |states|
    ensures Shape(states[k])
    ensures h < |states[k].sobjs| && !states[k].sobjs[h].live ==> Server.NothingArmed(states[k].sobjs[h])
    ensures h < |states[k].cobjs| && !states[k].cobjs[h].live ==> Client.NothingArmed(states[k].cobjs[h])
    ensures forall timer, tag, now ::
              Permits(states[k], FireServer(h, timer, tag), now) ==> h < |states[k].sobjs| && states[k].sobjs[h].live
    ensures forall timer, now ::
              Permits(states[k], FireClient(h, timer), now) ==> h < |states[k].cobjs| && states[k].cobjs[h].live
  {
    RunInv(states, inputs, times, k, 0, 0, Short(""));
    InvShape(states[k], 0, 0, Short(""));
    assert h < |states[k].sobjs| ==> Server.ServerTxnOk(states[k].sobjs[h]);
    assert h < |states[k].cobjs| ==> Client.ClientTxnOk(states[k].cobjs[h]);
    hide IsRun, Server.Inv, Client.Inv, Server.ServerTxnOk, Client.ClientTxnOk, Server.CancelEnabled;
    if h < |states[k].sobjs| && !states[k].sobjs[h].live {
      assert Server.NothingArmed(states[k].sobjs[h]) by { DeadServer(states[k].sobjs[h]); }
    }
    if h < |states[k].cobjs| && !states[k].cobjs[h].live {
      assert Client.NothingArmed(states[k].cobjs[h]) by { DeadClient(states[k].cobjs[h]); }
    }
  }

  lemma DeadServer(t: ServerTxn)
    requires Server.ServerTxnOk(t) && !t.live
    ensures Server.NothingArmed(t)
  {
  }

  lemma DeadClient(t: ClientTxn)
    requires Client.ClientTxnOk(t) && !t.live
    ensures Client.NothingArmed(t)
  {
  }
}
