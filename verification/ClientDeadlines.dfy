/** How long a client transaction stays in the table when timers fire on time. */
module ClientDeadlines {
  import opened Basics
  import opened TwoGeneration
  import opened SipTransactions
  import opened SipRuns
  import Server = ServerRuns
  import Client = ClientRuns

  /** What one step at time `now` may do to the deadline of a transaction: timer B ends it and sets timer C, and a
      provisional response starts timer B again. */
  ghost predicate Evolves(t: ClientTxn, t': ClientTxn, now: real) {
    && (t'.live ==> t.live)
    && t.sends <= t'.sends && t'.expires == t.expires
    && (t'.live && t'.state == CTerminated ==>
          && t'.rung == t.rung
          && if t.state == CTerminated then t'.teC == t.teC
             else Client.Undecided(t) && t.teB.Some? && t'.teC == Some(now + 32.0))
    && (t'.live && Client.Undecided(t') && t'.teB.Some? ==>
          t'.rung == Some(now) || (Client.Undecided(t) && t'.teB == t.teB && t'.rung == t.rung))
  }

  ghost predicate Arises(t: ClientTxn, now: real) {
    t.live && t.state == CTrying && t.sends == [now] && t.rung.None?
  }

  ghost predicate AllEvolve(s: State, s': State, now: real) {
    && |s.cobjs| <= |s'.cobjs|
    && (forall h :: 0 <= h < |s.cobjs| ==> Evolves(s.cobjs[h], s'.cobjs[h], now))
    && (forall h :: |s.cobjs| <= h < |s'.cobjs| ==> Arises(s'.cobjs[h], now))
  }

  lemma SameEvolves(s: State, s': State, now: real)
    requires s'.cobjs == s.cobjs && Client.TxnsOk(s)
    ensures AllEvolve(s, s', now)
  {
    forall h | 0 <= h < |s.cobjs| ensures Evolves(s.cobjs[h], s'.cobjs[h], now) {
      assert Client.ClientTxnOk(s.cobjs[h]);
    }
  }

  /** One transaction changes. */
  lemma OneEvolves(s: State, s': State, h: nat, now: real)
    requires Client.TxnsOk(s) && h < |s.cobjs| && |s'.cobjs| == |s.cobjs| && s'.cobjs == s.cobjs[h := s'.cobjs[h]]
    requires Evolves(s.cobjs[h], s'.cobjs[h], now)
    ensures AllEvolve(s, s', now)
  {
    forall g | 0 <= g < |s.cobjs| && g != h ensures Evolves(s.cobjs[g], s'.cobjs[g], now) {
      assert Client.ClientTxnOk(s.cobjs[g]);
    }
    hide Evolves;
  }

  /** One transaction changes, and its CANCEL may be new. */
  lemma OneAndCancelEvolve(s: State, s': State, h: nat, now: real)
    requires Client.TxnsOk(s) && h < |s.cobjs| && |s.cobjs| <= |s'.cobjs| <= |s.cobjs| + 1
    requires forall g :: 0 <= g < |s.cobjs| && g != h ==> s'.cobjs[g] == s.cobjs[g]
    requires Evolves(s.cobjs[h], s'.cobjs[h], now)
    requires |s'.cobjs| == |s.cobjs| + 1 ==> Arises(s'.cobjs[|s.cobjs|], now)
    ensures AllEvolve(s, s', now)
  {
    forall g | 0 <= g < |s.cobjs| && g != h ensures Evolves(s.cobjs[g], s'.cobjs[g], now) {
      assert Client.ClientTxnOk(s.cobjs[g]);
    }
    hide Evolves;
  }

  lemma ProvisionalEvolves(s: State, h: nat, d: Datagram, now: real)
    requires Client.TxnsOk(s) && h < |s.cobjs| && d.Response? && Client.Undecided(s.cobjs[h])
    ensures AllEvolve(s, ProvisionalResponse(s, h, d, now), now)
  {
    assert Client.ClientTxnOk(s.cobjs[h]);
    OneAndCancelEvolve(s, ProvisionalResponse(s, h, d, now), h, now);
    hide Client.TxnsOk, Client.ClientTxnOk;
  }

  lemma FinalEvolves(s: State, h: nat, d: Datagram, raises: bool, now: real)
    requires Client.TxnsOk(s) && h < |s.cobjs| && d.Response? && Client.Undecided(s.cobjs[h])
    ensures AllEvolve(s, FinalResponse(s, h, d, raises, now), now)
  {
    assert Client.ClientTxnOk(s.cobjs[h]);
    Client.FinalChanges(s, h, d, raises, now);
    hide FinalResponse, Client.TxnsOk;
    OneEvolves(s, FinalResponse(s, h, d, raises, now), h, now);
  }

  lemma ReceiveEvolves(s: State, d: Datagram, tu: TuReaction, gen: string, now: real)
    requires Shape(s) && Client.TxnsOk(s) && Client.ClientTable(s)
    ensures AllEvolve(s, HandleIncoming(s, d, tu, gen, now), now)
  {
    hide IncomingRequest, ProvisionalResponse, FinalResponse, Lookup, AllEvolve, Client.TxnsOk;
    var s' := HandleIncoming(s, d, tu, gen, now);
    if d.Request? {
      RequestUntouched(s, d, tu, gen, now);
    } else if d.Response? && d.key in s.tclient && Client.Undecided(s.cobjs[s.tclient[d.key]]) {
      ProvisionalEvolves(s, s.tclient[d.key], d, now);
      FinalEvolves(s, s.tclient[d.key], d, tu.Raised?, now);
    }
    if s'.cobjs == s.cobjs {
      SameEvolves(s, s', now);
    }
  }

  lemma TimersEvolve(s: State, h: nat, timer: ClientTimer, now: real)
    requires Shape(s) && Client.TxnsOk(s) && Client.TimerEnabled(s, h, timer, now)
    ensures AllEvolve(s, StepAt(s, FireClient(h, timer), now), now)
  {
    assert Client.ClientTxnOk(s.cobjs[h]);
    Client.TimerTells(s.cobjs[h]);
    hide Client.TxnsOk, Client.ClientTxnOk;
    OneEvolves(s, StepAt(s, FireClient(h, timer), now), h, now);
  }

  lemma NewEvolves(s: State, key: ClientKey, expires: Option<int>, hasCb: bool, now: real, parent: Option<nat>)
    requires Client.TxnsOk(s)
    ensures AllEvolve(s, NewClient(s, key, expires, hasCb, now, parent), now)
  {
    SameEvolves(s, s, now);
    hide Client.TxnsOk, Evolves;
  }

  lemma UserEvolves(s: State, i: Input, now: real)
    requires Shape(s) && Client.TxnsOk(s) && (i.SetUack? || i.Cancel? || i.Acknowledge?) && i.ch < |s.cobjs|
    ensures AllEvolve(s, StepAt(s, i, now), now)
  {
    assert Client.ClientTxnOk(s.cobjs[i.ch]);
    hide Client.TxnsOk, Client.ClientTxnOk;
    match i
    case SetUack(h) => OneEvolves(s, StepAt(s, i, now), h, now);
    case Acknowledge(h) => OneEvolves(s, StepAt(s, i, now), h, now);
    case Cancel(h) =>
      if s.cobjs[h].state == CRinging {
        NewEvolves(s, CancelKey(s.cobjs[h].key), None, false, now, Some(h));
      } else {
        OneEvolves(s, StepAt(s, i, now), h, now);
      }
  }

  lemma ServersKeepClients(s: State, i: Input, now: real)
    requires Shape(s) && (i.TuSends? || i.FireServer? || i.PurgeCache?)
    ensures StepAt(s, i, now).cobjs == s.cobjs
  {
  }

  lemma StepEvolves(s0: State, i: Input, now: real)
    requires Inv(s0, 0, 0, Short("")) && Shape(s0) && Enabled(s0, i, now)
    ensures AllEvolve(s0, Step(s0, i, now), now)
  {
    var s := s0.(clock := now);
    assert Client.TxnsOk(s) && Client.ClientTable(s);
    hide Inv, HandleIncoming, NewClient, Client.TxnsOk, Client.ClientTable, Evolves, Arises;
    match i {
      case Receive(d, tu, gen) => ReceiveEvolves(s, d, tu, gen, now);
      case StartClient(key, expires, hasCb) => NewEvolves(s, key, expires, hasCb, now, None);
      case SetUack(_) => UserEvolves(s, i, now);
      case Cancel(_) => UserEvolves(s, i, now);
      case Acknowledge(_) => UserEvolves(s, i, now);
      case FireClient(h, timer) => TimersEvolve(s, h, timer, now);
      case _ => ServersKeepClients(s, i, now); SameEvolves(s, StepAt(s, i, now), now);
    }
  }

  // ----- Deadlines -----

  /** No timer of a live transaction is overdue when the next input comes. */
  ghost predicate OnTime(s: State, now: real) {
    forall h :: 0 <= h < |s.cobjs| && s.cobjs[h].live ==>
      && (s.cobjs[h].teB.Some? ==> now <= s.cobjs[h].teB.value)
      && (s.cobjs[h].teC.Some? ==> now <= s.cobjs[h].teC.value)
  }

  /** Timer C of a transaction that gave up is due 32 seconds after that. */
  ghost predicate EndsInTime(s: State) {
    forall h :: 0 <= h < |s.cobjs| && s.cobjs[h].live && s.cobjs[h].state == CTerminated ==>
      && s.cobjs[h].sends != [] && s.cobjs[h].teC.Some?
      && s.cobjs[h].teC.value <= Client.GivesUp(s.cobjs[h]) + 32.0
  }

  lemma EvolvesInTime(s: State, s': State, now: real)
    requires AllEvolve(s, s', now) && Client.TxnsOk(s) && OnTime(s, now) && EndsInTime(s)
    ensures EndsInTime(s')
  {
    forall h | 0 <= h < |s'.cobjs| && s'.cobjs[h].live && s'.cobjs[h].state == CTerminated
      ensures s'.cobjs[h].sends != [] && s'.cobjs[h].teC.Some?
      ensures s'.cobjs[h].teC.value <= Client.GivesUp(s'.cobjs[h]) + 32.0
    {
      if h < |s.cobjs| {
        assert Evolves(s.cobjs[h], s'.cobjs[h], now) && Client.ClientTxnOk(s.cobjs[h]);
        assert s'.cobjs[h].sends[0] == s.cobjs[h].sends[0];
      } else {
        assert false;
      }
    }
  }

  lemma LeavesInTime(s: State, s': State, now: real, h: nat)
    requires AllEvolve(s, s', now) && Client.TxnsOk(s) && Client.TxnsOk(s') && OnTime(s, now) && EndsInTime(s)
    requires h < |s'.cobjs| && s'.cobjs[h].live && s'.cobjs[h].state != CUack && !Client.Stuck(s'.cobjs[h])
    ensures s'.cobjs[h].sends != [] && now <= Client.GivesUp(s'.cobjs[h]) + 32.0
  {
    assert Client.ClientTxnOk(s'.cobjs[h]);
    if h < |s.cobjs| {
      assert Evolves(s.cobjs[h], s'.cobjs[h], now) && Client.ClientTxnOk(s.cobjs[h]);
      assert s'.cobjs[h].sends[0] == s.cobjs[h].sends[0];
    } else {
      assert Arises(s'.cobjs[h], now);
    }
  }

  lemma {:induction false} RunEndsInTime(states: seq<State>, inputs: seq<Input>, times: seq<real>, k: nat)
    requires IsRun(states, inputs, times) && k < |states|
    requires forall j :: 0 <= j < |inputs| ==> OnTime(states[j], times[j])
    ensures EndsInTime(states[k]) && Client.TxnsOk(states[k])
    ensures k > 0 ==> AllEvolve(states[k - 1], states[k], times[k - 1])
    decreases k
  {
    RunInv(states, inputs, times, k, 0, 0, Short(""));
    if k > 0 {
      RunEndsInTime(states, inputs, times, k - 1);
      RunInv(states, inputs, times, k - 1, 0, 0, Short(""));
      InvShape(states[k - 1], 0, 0, Short(""));
      assert Next(states[k - 1], inputs[k - 1], times[k - 1], states[k]);
      StepEvolves(states[k - 1], inputs[k - 1], times[k - 1]);
      hide AllEvolve, Client.TxnsOk, EndsInTime, OnTime, Step;
      assert OnTime(states[k - 1], times[k - 1]);
      EvolvesInTime(states[k - 1], states[k], times[k - 1]);
    }
  }

  /** In every run whose timers fire on time: a client transaction that is still in the table, does not wait for the
      TU's ACK, and has not seen its callback raise on the last final response, sent its request at most 64 seconds
      ago if it heard nothing, and else heard its last provisional response at most `expires` and 32 seconds ago. */
  lemma ClientLeavesTheTable(states: seq<State>, inputs: seq<Input>, times: seq<real>, k: nat, h: nat)
    requires IsRun(states, inputs, times) && 0 < k < |states|
    requires forall j :: 0 <= j < |inputs| ==> OnTime(states[j], times[j])
    requires h < |states[k].cobjs| && states[k].cobjs[h].live && states[k].cobjs[h].state != CUack
    ensures var t := states[k].cobjs[h];
            (Client.Undecided(t) && Client.StuckIn(states[k].ctrace, h)) ||
            (match t.rung
             case None => t.sends != [] && times[k - 1] <= t.sends[0] + 64.0
             case Some(rung) => times[k - 1] <= rung + t.expires + 32.0)
  {
    RunEndsInTime(states, inputs, times, k);
    RunEndsInTime(states, inputs, times, k - 1);
    RunInv(states, inputs, times, k, 0, h, Short(""));
    assert Client.Story(states[k], h);
    assert OnTime(states[k - 1], times[k - 1]);
    hide IsRun, Server.Inv, Client.Inv, AllEvolve, Client.TxnsOk, EndsInTime, OnTime;
    if !Client.Stuck(states[k].cobjs[h]) {
      LeavesInTime(states[k - 1], states[k], times[k - 1], h);
    }
  }
}
