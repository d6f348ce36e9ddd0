/** The timers of `sippy/Core/EventDispatcher.py` as their users see them: from the calls that register, start and
    cancel them to the runs of their callbacks. */
module TimerActions {
  import opened Basics
  import opened TimerQueue

  /** What was ordered stays as it was ordered. */
  predicate SameOrder(el: Listener, el': Listener) {
    && el'.itime == el.itime && el'.ival == el.ival && el'.abs_time == el.abs_time && el'.randomize == el.randomize
    && el'.ordered == el.ordered && (el.started ==> el'.started)
  }

  lemma StepKeepsOrder(d: Dispatcher, a: Action, id: nat)
    requires Enabled(d, a) && id < |d.listeners|
    ensures id < |Step(d, a).listeners| && SameOrder(d.listeners[id], Step(d, a).listeners[id])
  {
    hide Pop, LiveOnly;
  }

  lemma {:induction false} OrderStays(states: seq<Dispatcher>, actions: seq<Action>, j: nat, k: nat, id: nat)
    requires IsRun(states, actions) && j <= k <= |actions| && id < |states[j].listeners|
    ensures id < |states[k].listeners| && SameOrder(states[j].listeners[id], states[k].listeners[id])
    decreases k - j
  {
    hide Step, Enabled;
    if j < k {
      OrderStays(states, actions, j, k - 1, id);
      StepKeepsOrder(states[k - 1], actions[k - 1], id);
    }
  }

  /** When the `n`-th run is due of a timer that was registered at `now`. */
  function Nominal(now: real, ival: real, absTime: bool, n: nat): real {
    if absTime then ival else now + n as real * ival
  }

  /** The log so far of the timer `id`, registered at `now`. */
  ghost predicate RunsAsOrdered(d: Dispatcher, id: nat, now: real, ival: real, nticks: int, absTime: bool) {
    && (forall m :: 0 <= m < |d.log| && d.log[m].id == id ==>
          d.log[m].at >= d.log[m].due == Nominal(now, ival, absTime, Runs(d.log[..m], id) + 1))
    && (absTime || nticks != -1 ==> Runs(d.log, id) <= if !absTime && nticks > 1 then nticks else 1)
  }

  lemma OrderedSo(d: Dispatcher, id: nat, now: real, ival: real, nticks: int, absTime: bool)
    requires id < |d.listeners| && PlanOk(d, id) && LogOk(d) && ListenerOk(d, id)
    requires var el := d.listeners[id];
             el.itime == now && el.ival == ival && el.abs_time == absTime && el.ordered == if absTime then 1 else nticks
    ensures RunsAsOrdered(d, id, now, ival, nticks, absTime)
  {
    var el := d.listeners[id];
    assert el.ordered != -1 ==> Runs(d.log, id) <= Wanted(el);
    assert forall n: nat :: DueAt(el, n) == Nominal(now, ival, absTime, n);
    hide Runs, DueAt, Nominal;
    forall m | 0 <= m < |d.log| && d.log[m].id == id
      ensures d.log[m].at >= d.log[m].due == Nominal(now, ival, absTime, Runs(d.log[..m], id) + 1)
    {
      assert d.log[m].due == DueAt(el, Runs(d.log[..m], id) + 1);
    }
  }

  lemma OrderedNow(d: Dispatcher, id: nat)
    requires Inv(d) && PlansOk(d) && id < |d.listeners| && !d.listeners[id].randomize
    ensures PlanOk(d, id) && LogOk(d) && ListenerOk(d, id)
  {
  }

  /** A timer that is registered without random intervals runs at or after, and is due exactly at, the registration plus
      one interval, two intervals and so on, or at its absolute time; it runs as often as ordered at most, once where
      the order is less than two ticks, and without end only where it is -1. With an order of 0 there is none. */
  lemma RegisteredTimerRuns(states: seq<Dispatcher>, actions: seq<Action>, start: real, j: nat, k: nat, id: nat,
                            now: real, ival: real, nticks: int, absTime: bool)
    requires IsRun(states, actions) && states[0] == Init(start) && j < k <= |actions|
    requires actions[j] == RegTimer(now, ival, nticks, absTime, false) && id == |states[j].listeners|
    ensures nticks == 0 ==> |states[j + 1].listeners| == id
    ensures nticks != 0 ==>
              |states[j + 1].listeners| == id + 1 && RunsAsOrdered(states[k], id, now, ival, nticks, absTime)
  {
    StepOf(states, actions, j);
    RegisterSays(states[j], now, ival, nticks, absTime);
    hide Step, Enabled, PlansOk, PlanOk, LogOk, ListenerOk, Inv, RunsAsOrdered;
    if nticks != 0 {
      OrderStays(states, actions, j + 1, k, id);
      StateInv(states, actions, start, k);
      RunPlans(states, actions, start, k);
      OrderedNow(states[k], id);
      OrderedSo(states[k], id, now, ival, nticks, absTime);
    }
  }

  lemma RegisterSays(d: Dispatcher, now: real, ival: real, nticks: int, absTime: bool)
    requires Enabled(d, RegTimer(now, ival, nticks, absTime, false))
    ensures var (id, d') := (|d.listeners|, Step(d, RegTimer(now, ival, nticks, absTime, false)));
            if nticks == 0 then |d'.listeners| == id
            else
              && |d'.listeners| == id + 1
              && var el := d'.listeners[id];
                 && el.itime == now && el.ival == ival && el.abs_time == absTime && !el.randomize
                 && el.ordered == (if absTime then 1 else nticks) && el.alive && !el.started
  {
  }

  /** After a call of `cancel` the callback does not run any more, in the rest of every run. */
  lemma CancelledNeverRuns(states: seq<Dispatcher>, actions: seq<Action>, j: nat, k: nat, id: nat)
    requires IsRun(states, actions) && j < k <= |actions| && actions[j] == Cancel(id)
    ensures Runs(states[k].log, id) == Runs(states[j].log, id)
  {
    StepOf(states, actions, j);
    CancelSays(states[j], id);
    hide Step, Enabled, Runs;
    NeverAfterCancel(states, actions, j + 1, k, id);
  }

  lemma CancelSays(d: Dispatcher, id: nat)
    requires Enabled(d, Cancel(id))
    ensures var d' := Step(d, Cancel(id));
            && id < |d'.listeners| == |d.listeners| && !d'.listeners[id].alive && d'.log == d.log
            && (d.listeners[id].alive ==> d'.listeners[id].cancelled)
            && d'.tlisteners == d.tlisteners && d'.last_ts == d.last_ts && d'.endloop == d.endloop
            && forall x :: 0 <= x < |d.listeners| && x != id ==> d'.listeners[x] == d.listeners[x]
  {
  }

  /** Every step of every run, seen from outside: only a turn of the loop runs a callback, that of the live entry that
      is due first; a started timer waits; the clock is what it is read to be, and a break ends the turns until the loop
      is entered again. */
  lemma EveryStep(states: seq<Dispatcher>, actions: seq<Action>, k: nat)
    requires IsRun(states, actions) && k < |actions|
    ensures StepSays(states[k], actions[k], states[k + 1])
  {
    StepOf(states, actions, k);
    hide IsRun, StepSays, Step, Enabled;
    StepSaysSo(states[k], actions[k]);
  }

  ghost predicate StepSays(d: Dispatcher, a: Action, d': Dispatcher) {
    && (a.RegTimer? || a.Wake? || a.EnterLoop? ==> d'.last_ts == a.now)
    && (!(a.RegTimer? || a.Wake? || a.EnterLoop?) ==> d'.last_ts == d.last_ts)
    && d'.endloop == (if a.BreakLoop? then true else if a.EnterLoop? then false else d.endloop)
    && (a.Turn? ==> !d.endloop && d.inside.None? && a.i < |d.tlisteners| && d.tlisteners[a.i] < |d.listeners|)
    && match a
       case Turn(i, delay) =>
         var id := d.tlisteners[i];
         var el := d.listeners[id];
         && (forall j :: 0 <= j < |d.tlisteners| && d.tlisteners[j] < |d.listeners| ==>
               el.etime <= d.listeners[d.tlisteners[j]].etime)
         && (if el.alive then
               && el.etime <= d.last_ts && d'.log == d.log + [Firing(id, el.etime, d.last_ts)]
               && d'.inside.Some? && d'.inside.value.0 == id
               && (id in d'.tlisteners <== el.nticks == -1 || el.nticks > 1)
               && (el.nticks == -1 || el.nticks > 1 ==>
                     && id < |d'.listeners| && d'.listeners[id].etime == el.etime + delay
                     && d'.listeners[id].nticks == if el.nticks > 1 then el.nticks - 1 else -1)
             else d'.log == d.log && d'.inside.None? && d'.listeners == d.listeners)
       case Go(id, delay) =>
         && d'.log == d.log && id < |d.listeners| == |d'.listeners| && id in d'.tlisteners && d'.listeners[id].started
         && d'.listeners[id].etime == if d.listeners[id].abs_time then d.listeners[id].ival
                                      else d.listeners[id].itime + delay
       case CallbackReturns => d'.log == d.log && d'.inside.None? && d'.tlisteners == d.tlisteners
       case _ => d'.log == d.log && d'.inside == d.inside
  }

  lemma StepSaysSo(d: Dispatcher, a: Action)
    requires Enabled(d, a)
    ensures StepSays(d, a, Step(d, a))
  {
    match a
    case Turn(i, delay) => TurnSays(d, i, delay); hide TakeTurn, IsFirst;
    case Go(id, delay) =>
      var heap := d.tlisteners + [id];
      assert heap[|d.tlisteners|] == id;
    case _ => hide LiveOnly;
  }

  lemma TurnSays(d: Dispatcher, i: nat, delay: real)
    requires Enabled(d, Turn(i, delay))
    ensures StepSays(d, Turn(i, delay), TakeTurn(d, i, delay))
  {
    var id := d.tlisteners[i];
    forall j | 0 <= j < |d.tlisteners| && d.tlisteners[j] < |d.listeners|
      ensures d.listeners[id].etime <= d.listeners[d.tlisteners[j]].etime
    {
      assert Due(d, i) <= Due(d, j);
    }
    hide Pop;
    var heap := Pop(d.tlisteners, i) + [id];
    assert heap[|heap| - 1] == id;
  }
}
