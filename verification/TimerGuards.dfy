/** Why the resend timers of a transaction never overtake the timers that end it: in a dispatcher's run the listeners
    of both wait in one heap. */
module TimerGuards {
  import opened Basics
  import TimerQueue
  import SipTransactions
  import Client = ClientRuns
  import Server = ServerRuns

  /** Between states `j` and `k` the listener has neither run nor been cancelled. */
  ghost predicate Untouched(states: seq<TimerQueue.Dispatcher>, j: nat, k: nat, x: nat)
    requires j < |states| && k < |states|
  {
    && x < |states[k].listeners| && !states[k].listeners[x].cancelled
    && TimerQueue.Runs(states[k].log, x) == TimerQueue.Runs(states[j].log, x)
  }

  /** A timer that was armed at state `j` to be due at `te` is still armed at state `k`. */
  ghost predicate StandsFor(states: seq<TimerQueue.Dispatcher>, j: nat, k: nat, x: nat, te: real)
    requires j < |states| && k < |states|
  {
    TimerQueue.Waits(states[j], x) && states[j].listeners[x].etime == te && Untouched(states, j, k, x)
  }

  lemma OneStep(states: seq<TimerQueue.Dispatcher>, actions: seq<TimerQueue.Action>, start: real, k: nat, x: nat)
    requires TimerQueue.IsRun(states, actions) && states[0] == TimerQueue.Init(start) && k < |actions|
    requires TimerQueue.Waits(states[k], x)
    ensures |states| > k + 1 && x < |states[k + 1].listeners|
    ensures TimerQueue.Runs(states[k + 1].log, x) >= TimerQueue.Runs(states[k].log, x)
    ensures TimerQueue.Runs(states[k + 1].log, x) == TimerQueue.Runs(states[k].log, x)
            && !states[k + 1].listeners[x].cancelled ==>
              TimerQueue.Waits(states[k + 1], x) && states[k + 1].listeners[x].etime == states[k].listeners[x].etime
  {
    TimerQueue.StateInv(states, actions, start, k);
    TimerQueue.StepOf(states, actions, k);
    hide TimerQueue.Step, TimerQueue.Enabled, TimerQueue.Inv, TimerQueue.Runs, TimerQueue.IsRun;
    TimerQueue.KeepsWaiting(states[k], actions[k], x);
  }

  lemma {:induction false} StillWaits(states: seq<TimerQueue.Dispatcher>, actions: seq<TimerQueue.Action>, start: real,
                                      j: nat, k: nat, x: nat, te: real)
    requires TimerQueue.IsRun(states, actions) && states[0] == TimerQueue.Init(start) && j <= k <= |actions|
    requires k < |states| && StandsFor(states, j, k, x, te)
    ensures TimerQueue.Waits(states[k], x) && states[k].listeners[x].etime == te
    decreases k
  {
    hide *;
    if j == k {
      AtOnce(states, j, x, te);
    } else {
      Earlier(states, actions, j, k, x, te);
      StillWaits(states, actions, start, j, k - 1, x, te);
      OneStep(states, actions, start, k - 1, x);
      SameRuns(states, j, k, x, te);
    }
  }

  lemma AtOnce(states: seq<TimerQueue.Dispatcher>, j: nat, x: nat, te: real)
    requires j < |states| && StandsFor(states, j, j, x, te)
    ensures TimerQueue.Waits(states[j], x) && states[j].listeners[x].etime == te
  {
  }

  lemma SameRuns(states: seq<TimerQueue.Dispatcher>, j: nat, k: nat, x: nat, te: real)
    requires j < k < |states| && StandsFor(states, j, k, x, te) && StandsFor(states, j, k - 1, x, te)
    ensures x < |states[k].listeners| && !states[k].listeners[x].cancelled
    ensures TimerQueue.Runs(states[k].log, x) == TimerQueue.Runs(states[k - 1].log, x)
  {
  }

  /** What is untouched later was untouched before. */
  lemma Earlier(states: seq<TimerQueue.Dispatcher>, actions: seq<TimerQueue.Action>, j: nat, k: nat, x: nat, te: real)
    requires TimerQueue.IsRun(states, actions) && j < k <= |actions| && k < |states| && StandsFor(states, j, k, x, te)
    ensures StandsFor(states, j, k - 1, x, te)
  {
    Exists(states, actions, j, k - 1, x);
    TimerQueue.StepOf(states, actions, k - 1);
    TimerQueue.StaysSo(states[k - 1], actions[k - 1], x);
    hide TimerQueue.Step, TimerQueue.Enabled, TimerQueue.Runs, TimerQueue.IsRun;
  }

  /** Listeners are never taken away, and their runs only grow. */
  lemma {:induction false} Exists(states: seq<TimerQueue.Dispatcher>, actions: seq<TimerQueue.Action>, j: nat,
                                  k: nat, x: nat)
    requires TimerQueue.IsRun(states, actions) && j <= k <= |actions| && x < |states[j].listeners|
    ensures x < |states[k].listeners|
    ensures TimerQueue.Runs(states[k].log, x) >= TimerQueue.Runs(states[j].log, x)
    decreases k
  {
    if j < k {
      hide TimerQueue.Step, TimerQueue.Enabled, TimerQueue.Runs;
      Exists(states, actions, j, k - 1, x);
      TimerQueue.StepOf(states, actions, k - 1);
      TimerQueue.StaysSo(states[k - 1], actions[k - 1], x);
    }
  }

  /** The loop runs the listener `x` at step `k`. */
  ghost predicate RunsAt(states: seq<TimerQueue.Dispatcher>, actions: seq<TimerQueue.Action>, k: nat, x: nat) {
    && k < |actions| < |states| && actions[k].Turn?
    && actions[k].i < |states[k].tlisteners| && states[k].tlisteners[actions[k].i] == x
  }

  /** Whoever runs is due, and no later than anyone else who waits. */
  lemma RunsInOrder(states: seq<TimerQueue.Dispatcher>, actions: seq<TimerQueue.Action>, k: nat, x: nat, y: nat)
    requires TimerQueue.IsRun(states, actions) && RunsAt(states, actions, k, x) && TimerQueue.Waits(states[k], x)
    ensures states[k].listeners[x].etime <= states[k].last_ts
    ensures TimerQueue.Waits(states[k], y) ==> states[k].listeners[x].etime <= states[k].listeners[y].etime
  {
    var d := states[k];
    assert TimerQueue.Enabled(d, actions[k]);
    if TimerQueue.Waits(d, y) {
      var n :| 0 <= n < |d.tlisteners| && d.tlisteners[n] == y;
      assert TimerQueue.Due(d, actions[k].i) <= TimerQueue.Due(d, n);
    }
  }

  /** In every run of the dispatcher: when it runs the listener of a client transaction's timer A, while timer B, if
      armed, has a listener too, the transaction layer finds timer A due and not after timer B. */
  lemma ClientTimerAInOrder(states: seq<TimerQueue.Dispatcher>, actions: seq<TimerQueue.Action>, start: real,
                            j: nat, k: nat, a: nat, b: nat, s: SipTransactions.State, h: nat, now: real)
    requires TimerQueue.IsRun(states, actions) && states[0] == TimerQueue.Init(start) && j <= k
    requires RunsAt(states, actions, k, a) && states[k].last_ts <= now
    requires h < |s.cobjs| && s.cobjs[h].teA.Some? && StandsFor(states, j, k, a, s.cobjs[h].teA.value)
    requires s.cobjs[h].teB.Some? ==> StandsFor(states, j, k, b, s.cobjs[h].teB.value)
    ensures Client.TimerEnabled(s, h, SipTransactions.TA, now)
  {
    StillWaits(states, actions, start, j, k, a, s.cobjs[h].teA.value);
    if s.cobjs[h].teB.Some? {
      StillWaits(states, actions, start, j, k, b, s.cobjs[h].teB.value);
    }
    hide TimerQueue.IsRun, TimerQueue.Waits, StandsFor;
    RunsInOrder(states, actions, k, a, b);
  }

  /** The same for timers A and D of an INVITE server transaction. */
  lemma ServerTimerAInOrder(states: seq<TimerQueue.Dispatcher>, actions: seq<TimerQueue.Action>, start: real,
                            j: nat, k: nat, a: nat, b: nat, s: SipTransactions.State, h: nat, gen: string, now: real)
    requires TimerQueue.IsRun(states, actions) && states[0] == TimerQueue.Init(start) && j <= k
    requires RunsAt(states, actions, k, a) && states[k].last_ts <= now
    requires h < |s.sobjs| && s.sobjs[h].teA.Some? && StandsFor(states, j, k, a, s.sobjs[h].teA.value)
    requires s.sobjs[h].teD.Some? ==> StandsFor(states, j, k, b, s.sobjs[h].teD.value)
    ensures Server.TimerEnabled(s, h, SipTransactions.A, gen, now)
  {
    StillWaits(states, actions, start, j, k, a, s.sobjs[h].teA.value);
    if s.sobjs[h].teD.Some? {
      StillWaits(states, actions, start, j, k, b, s.sobjs[h].teD.value);
    }
    hide TimerQueue.IsRun, TimerQueue.Waits, StandsFor;
    RunsInOrder(states, actions, k, a, b);
  }
}
