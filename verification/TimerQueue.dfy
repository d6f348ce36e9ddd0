/** The timers of `sippy/Core/EventDispatcher.py`: a priority queue in which cancelled entries stay until they are
    popped or swept. A listener is a number; the queue is a sequence from which some earliest entry is popped. */
module TimerQueue {
  import opened Basics

  datatype Listener = Listener(
    etime: real, itime: real, ival: real, nticks: int, abs_time: bool, randomize: bool,
    alive: bool,                        // cb_func and ed are set
    started: bool, cancelled: bool,     // go and cancel have been called
    ordered: int)                       // the number of ticks asked for

  datatype Firing = Firing(id: nat, due: real, at: real)

  datatype Dispatcher = Dispatcher(
    tlisteners: seq<nat>, listeners: seq<Listener>, twasted: int, last_ts: real, endloop: bool,
    inside: Option<(nat, bool)>,        // whose callback is running, and whether it is cleaned up after that
    log: seq<Firing>)

  datatype Action =
    | RegTimer(now: real, ival: real, nticks: int, abs_time: bool, randomize: bool)
    | Go(id: nat, delay: real)
    | Cancel(id: nat)
    | BreakLoop
    | Turn(i: nat, delay: real)         // the loop in dispatchTimers, up to the callback
    | CallbackReturns
    | Compact                           // the sweep in loop
    | Wake(now: real)
    | EnterLoop(now: real)

  function Init(now: real): Dispatcher {
    Dispatcher([], [], 0, now, false, None, [])
  }

  // ----- What each action does -----

  /** `nticks` of 0 gives no listener; an absolute timer gets its one tick from `go`. */
  function Register(d: Dispatcher, now: real, ival: real, nticks: int, absTime: bool, randomize: bool): Dispatcher {
    var d1 := d.(last_ts := now);
    if nticks == 0 then d1
    else
      var n := if absTime then 1 else nticks;
      d1.(listeners := d.listeners + [Listener(now, now, ival, n, absTime, randomize, true, false, false, n)])
  }

  function GoTimer(d: Dispatcher, id: nat, delay: real): Dispatcher
    requires id < |d.listeners|
  {
    var el := d.listeners[id];
    var due := if el.abs_time then el.ival else el.itime + delay;
    d.(listeners := d.listeners[id := el.(etime := due, started := true)], tlisteners := d.tlisteners + [id])
  }

  function CancelTimer(d: Dispatcher, id: nat): Dispatcher
    requires id < |d.listeners|
  {
    var el := d.listeners[id];
    d.(twasted := if el.alive then d.twasted + 1 else d.twasted,
       listeners := d.listeners[id := el.(alive := false, cancelled := el.cancelled || el.alive)])
  }

  function Pop(heap: seq<nat>, i: nat): seq<nat>
    requires i < |heap|
  {
    heap[..i] + heap[i + 1..]
  }

  predicate Periodic(el: Listener) {
    el.nticks == -1 || el.nticks > 1
  }

  function NextTick(el: Listener, delay: real): Listener {
    el.(nticks := if el.nticks > 1 then el.nticks - 1 else el.nticks, etime := el.etime + delay)
  }

  /** Entry `i` is popped: a cancelled one is dropped; a live one is pushed again if it has ticks left, and runs. */
  function TakeTurn(d: Dispatcher, i: nat, delay: real): Dispatcher
    requires i < |d.tlisteners| && d.tlisteners[i] < |d.listeners|
  {
    var id := d.tlisteners[i];
    var el := d.listeners[id];
    var d1 := d.(tlisteners := Pop(d.tlisteners, i));
    if !el.alive then
      d1.(twasted := d.twasted - 1)
    else
      var d2 := d1.(log := d.log + [Firing(id, el.etime, d.last_ts)]);
      if Periodic(el) then
        d2.(listeners := d.listeners[id := NextTick(el, delay)], tlisteners := d1.tlisteners + [id],
            inside := Some((id, false)))
      else
        d2.(inside := Some((id, true)))
  }

  function LeaveCallback(d: Dispatcher): Dispatcher
    requires d.inside.Some? && d.inside.value.0 < |d.listeners|
  {
    var (id, cleanup) := d.inside.value;
    var d1 := d.(inside := None);
    if !d.endloop && cleanup then d1.(listeners := d.listeners[id := d.listeners[id].(alive := false)]) else d1
  }

  function LiveOnly(heap: seq<nat>, listeners: seq<Listener>): seq<nat> {
    if heap == [] then []
    else
      var rest := LiveOnly(heap[..|heap| - 1], listeners);
      var id := heap[|heap| - 1];
      if id < |listeners| && listeners[id].alive then rest + [id] else rest
  }

  function Sweep(d: Dispatcher): Dispatcher {
    if d.twasted * 2 > |d.tlisteners| then d.(tlisteners := LiveOnly(d.tlisteners, d.listeners), twasted := 0) else d
  }

  /** What the heap guarantees about the entry at its root. */
  ghost predicate IsFirst(d: Dispatcher, i: nat) {
    i < |d.tlisteners| && forall j :: 0 <= j < |d.tlisteners| ==> Due(d, i) <= Due(d, j)
  }

  ghost predicate IdsOk(d: Dispatcher) {
    forall j :: 0 <= j < |d.tlisteners| ==> d.tlisteners[j] < |d.listeners|
  }

  function Due(d: Dispatcher, j: nat): real {
    if j < |d.tlisteners| && d.tlisteners[j] < |d.listeners| then d.listeners[d.tlisteners[j]].etime else 0.0
  }

  /** When an action can happen. A listener is started at most once; the clock does not go back; the loop looks at
      the root, and stops at a live entry that is not due. */
  ghost predicate Enabled(d: Dispatcher, a: Action) {
    match a
    case RegTimer(now, _, _, _, _) => now >= d.last_ts
    case Go(id, delay) =>
      && id < |d.listeners| && d.listeners[id].alive && !d.listeners[id].started
      && (!d.listeners[id].randomize ==> delay == d.listeners[id].ival)
    case Cancel(id) => id < |d.listeners|
    case BreakLoop => true
    case Turn(i, delay) =>
      && d.inside.None? && !d.endloop && IdsOk(d) && IsFirst(d, i)
      && var el := d.listeners[d.tlisteners[i]];
         && !(el.alive && el.etime > d.last_ts)
         && (!el.randomize ==> delay == el.ival)
    case CallbackReturns => d.inside.Some? && d.inside.value.0 < |d.listeners|
    case Compact => d.inside.None?
    case Wake(now) => d.inside.None? && now >= d.last_ts
    case EnterLoop(now) => d.inside.None? && now >= d.last_ts
  }

  ghost function Step(d: Dispatcher, a: Action): Dispatcher
    requires Enabled(d, a)
  {
    match a
    case RegTimer(now, ival, nticks, absTime, randomize) => Register(d, now, ival, nticks, absTime, randomize)
    case Go(id, delay) => GoTimer(d, id, delay)
    case Cancel(id) => CancelTimer(d, id)
    case BreakLoop => d.(endloop := true)
    case Turn(i, delay) => TakeTurn(d, i, delay)
    case CallbackReturns => LeaveCallback(d)
    case Compact => Sweep(d)
    case Wake(now) => d.(last_ts := now)
    case EnterLoop(now) => d.(endloop := false, last_ts := now)
  }

  /** A run is the states it goes through. */
  ghost predicate IsRun(states: seq<Dispatcher>, actions: seq<Action>) {
    && |states| == |actions| + 1
    && forall k :: 0 <= k < |actions| ==> Enabled(states[k], actions[k]) && states[k + 1] == Step(states[k], actions[k])
  }

  // ----- How often a listener has run -----

  function Runs(log: seq<Firing>, id: nat): nat {
    if log == [] then 0 else Runs(log[..|log| - 1], id) + if log[|log| - 1].id == id then 1 else 0
  }

  lemma RunsSnoc(log: seq<Firing>, f: Firing, id: nat)
    ensures Runs(log + [f], id) == Runs(log, id) + if f.id == id then 1 else 0
  {
    assert (log + [f])[..|log|] == log;
  }

  /** How many runs are asked for; -1 asks for no end of them, and any other number below 2 for one. */
  function Wanted(el: Listener): nat {
    if el.ordered > 1 then el.ordered else 1
  }

  function Remaining(el: Listener): nat {
    if el.nticks > 1 then el.nticks else 1
  }

  // ----- Invariant -----

  ghost predicate NoRepeats(heap: seq<nat>) {
    forall i, j :: 0 <= i < j < |heap| ==> heap[i] != heap[j]
  }

  ghost predicate Inside(d: Dispatcher) {
    d.inside.Some? ==>
      && d.inside.value.0 < |d.listeners|
      && d.listeners[d.inside.value.0].started
      && (d.inside.value.1 ==>
            && d.inside.value.0 !in d.tlisteners
            && (!d.listeners[d.inside.value.0].cancelled ==>
                  d.listeners[d.inside.value.0].ordered != -1
                  && Runs(d.log, d.inside.value.0) == Wanted(d.listeners[d.inside.value.0])))
  }

  /** One listener: it waits in the queue with the ticks that are left, or has run as often as asked for, or was
      cancelled. */
  ghost predicate ListenerOk(d: Dispatcher, id: nat)
    requires id < |d.listeners|
  {
    var el := d.listeners[id];
    var runs := Runs(d.log, id);
    && (el.cancelled ==> !el.alive)
    && (!el.started ==> runs == 0 && id !in d.tlisteners && el.nticks == el.ordered)
    && (!el.alive && !el.cancelled ==> el.started && id !in d.tlisteners)
    && (el.ordered == -1 <==> el.nticks == -1)
    && (el.ordered != -1 ==> runs <= Wanted(el))
    && (el.started && !el.cancelled ==>
          if id in d.tlisteners then el.ordered != -1 ==> runs + Remaining(el) == Wanted(el)
          else el.ordered != -1 && runs == Wanted(el))
  }

  ghost predicate ListenersOk(d: Dispatcher) {
    forall id :: 0 <= id < |d.listeners| ==> ListenerOk(d, id)
  }

  ghost predicate LogOk(d: Dispatcher) {
    && (forall k :: 0 <= k < |d.log| ==> d.log[k].due <= d.log[k].at <= d.last_ts)
    && (forall id :: id >= |d.listeners| ==> Runs(d.log, id) == 0)
  }

  ghost function Dead(d: Dispatcher): set<nat> {
    set id | id in d.tlisteners && id < |d.listeners| && !d.listeners[id].alive
  }

  ghost function Live(d: Dispatcher): set<nat> {
    set id | id in d.tlisteners && id < |d.listeners| && d.listeners[id].alive
  }

  ghost predicate QueueOk(d: Dispatcher) {
    IdsOk(d) && NoRepeats(d.tlisteners) && d.twasted >= |Dead(d)|
  }

  ghost predicate Inv(d: Dispatcher) {
    QueueOk(d) && ListenersOk(d) && LogOk(d) && Inside(d)
  }

  // ----- The queue -----

  lemma PopMembers(heap: seq<nat>, i: nat)
    requires i < |heap| && NoRepeats(heap)
    ensures NoRepeats(Pop(heap, i)) && heap[i] !in Pop(heap, i)
    ensures forall x :: x in Pop(heap, i) <==> x in heap && x != heap[i]
  {
    var p := Pop(heap, i);
    assert forall j :: 0 <= j < |p| ==> p[j] == if j < i then heap[j] else heap[j + 1];
    forall x | x in heap && x != heap[i] ensures x in p {
      var j :| 0 <= j < |heap| && heap[j] == x;
      assert p[if j < i then j else j - 1] == x;
    }
  }

  lemma {:induction false} LiveOnlyMembers(heap: seq<nat>, listeners: seq<Listener>)
    requires NoRepeats(heap)
    ensures var r := LiveOnly(heap, listeners);
            && NoRepeats(r)
            && forall x :: x in r <==> x in heap && x < |listeners| && listeners[x].alive
    decreases |heap|
  {
    if heap != [] {
      LiveOnlyMembers(heap[..|heap| - 1], listeners);
    }
  }

  lemma SubsetSmaller(a: set<nat>, b: set<nat>)
    requires a <= b
    ensures |a| <= |b|
  {
    if a != b {
      assert b == a + (b - a);
    }
  }

  lemma CancelQueue(d: Dispatcher, id: nat)
    requires QueueOk(d) && id < |d.listeners|
    ensures QueueOk(CancelTimer(d, id))
  {
    var d' := CancelTimer(d, id);
    if d.listeners[id].alive {
      SubsetSmaller(Dead(d'), Dead(d) + {id});
    } else {
      assert Dead(d') == Dead(d);
    }
  }

  lemma PushedBack(heap: seq<nat>, i: nat)
    requires i < |heap| && NoRepeats(heap)
    ensures NoRepeats(Pop(heap, i) + [heap[i]])
    ensures forall x :: x in Pop(heap, i) + [heap[i]] <==> x in heap
  {
    PopMembers(heap, i);
    hide Pop;
  }

  lemma TurnLive(d: Dispatcher, i: nat, delay: real)
    requires QueueOk(d) && i < |d.tlisteners| && d.listeners[d.tlisteners[i]].alive
    ensures QueueOk(TakeTurn(d, i, delay))
  {
    hide Pop, Dead;
    PopMembers(d.tlisteners, i);
    PushedBack(d.tlisteners, i);
    SameDead(d, TakeTurn(d, i, delay), d.tlisteners[i]);
  }

  /** A live listener may leave the queue and may change, as long as it stays alive. */
  lemma SameDead(d: Dispatcher, d': Dispatcher, id: nat)
    requires IdsOk(d) && id < |d.listeners| && d.listeners[id].alive
    requires |d'.listeners| == |d.listeners| && d'.listeners == d.listeners[id := d'.listeners[id]]
    requires d'.listeners[id].alive
    requires forall x :: x in d'.tlisteners ==> x in d.tlisteners
    requires forall x :: x in d.tlisteners && x != id ==> x in d'.tlisteners
    ensures IdsOk(d') && Dead(d') == Dead(d)
  {
    assert forall j :: 0 <= j < |d'.tlisteners| ==> d'.tlisteners[j] in d.tlisteners;
  }

  lemma TurnDead(d: Dispatcher, i: nat, delay: real)
    requires QueueOk(d) && i < |d.tlisteners| && !d.listeners[d.tlisteners[i]].alive
    ensures QueueOk(TakeTurn(d, i, delay))
  {
    PopMembers(d.tlisteners, i);
    hide Pop, NoRepeats;
    assert Dead(TakeTurn(d, i, delay)) == Dead(d) - {d.tlisteners[i]};
  }

  lemma SweepQueue(d: Dispatcher)
    requires QueueOk(d)
    ensures QueueOk(Sweep(d))
  {
    if d.twasted * 2 > |d.tlisteners| {
      LiveOnlyMembers(d.tlisteners, d.listeners);
      hide LiveOnly;
      var r := Sweep(d).tlisteners;
      assert forall j :: 0 <= j < |r| ==> r[j] in r;
      assert Dead(Sweep(d)) == {};
    } else {
      assert Sweep(d) == d;
    }
  }

  lemma StepQueue(d: Dispatcher, a: Action)
    requires QueueOk(d) && ListenersOk(d) && Inside(d) && Enabled(d, a)
    ensures QueueOk(Step(d, a))
  {
    var d' := Step(d, a);
    match a
    case RegTimer(_, _, _, _, _) => assert Dead(d') == Dead(d);
    case Go(id, _) =>
      assert ListenerOk(d, id);
      assert Dead(d') == Dead(d);
    case Cancel(id) => CancelQueue(d, id);
    case BreakLoop => assert Dead(d') == Dead(d);
    case Turn(i, delay) =>
      if d.listeners[d.tlisteners[i]].alive { TurnLive(d, i, delay); } else { TurnDead(d, i, delay); }
    case CallbackReturns => assert Dead(d') == Dead(d);
    case Compact => SweepQueue(d);
    case Wake(_) => assert Dead(d') == Dead(d);
    case EnterLoop(_) => assert Dead(d') == Dead(d);
  }

  // ----- Each listener -----

  lemma RegisterListeners(d: Dispatcher, now: real, ival: real, nticks: int, absTime: bool, randomize: bool)
    requires ListenersOk(d) && IdsOk(d) && LogOk(d)
    ensures ListenersOk(Register(d, now, ival, nticks, absTime, randomize))
  {
    var d' := Register(d, now, ival, nticks, absTime, randomize);
    hide Runs;
    forall id | 0 <= id < |d'.listeners| ensures ListenerOk(d', id) {
      if id < |d.listeners| {
        assert ListenerOk(d, id);
      }
    }
  }

  lemma GoListeners(d: Dispatcher, id: nat, delay: real)
    requires ListenersOk(d) && Enabled(d, Go(id, delay))
    ensures ListenersOk(GoTimer(d, id, delay))
  {
    var d' := GoTimer(d, id, delay);
    hide Runs;
    forall x | 0 <= x < |d'.listeners| ensures ListenerOk(d', x) {
      assert ListenerOk(d, x);
    }
  }

  lemma CancelListeners(d: Dispatcher, id: nat)
    requires ListenersOk(d) && id < |d.listeners|
    ensures ListenersOk(CancelTimer(d, id))
  {
    var d' := CancelTimer(d, id);
    hide Runs;
    forall x | 0 <= x < |d'.listeners| ensures ListenerOk(d', x) {
      assert ListenerOk(d, x);
    }
  }

  /** What `ListenerOk` depends on. */
  lemma SameListener(d: Dispatcher, d': Dispatcher, x: nat)
    requires x < |d.listeners| == |d'.listeners| && ListenerOk(d, x)
    requires d'.listeners[x] == d.listeners[x]
    requires x in d'.tlisteners <==> x in d.tlisteners
    requires Runs(d'.log, x) == Runs(d.log, x)
    ensures ListenerOk(d', x)
  {
    hide Runs;
  }

  lemma TurnElsewhere(d: Dispatcher, i: nat, delay: real, x: nat)
    requires IdsOk(d) && NoRepeats(d.tlisteners) && i < |d.tlisteners| && x < |d.listeners|
    requires x != d.tlisteners[i]
    ensures var d' := TakeTurn(d, i, delay);
            && |d'.listeners| == |d.listeners| && d'.listeners[x] == d.listeners[x]
            && (x in d'.tlisteners <==> x in d.tlisteners)
            && Runs(d'.log, x) == Runs(d.log, x)
  {
    var id := d.tlisteners[i];
    PopMembers(d.tlisteners, i);
    RunsSnoc(d.log, Firing(id, d.listeners[id].etime, d.last_ts), x);
    hide Pop, Runs, NoRepeats;
  }

  lemma TurnOthers(d: Dispatcher, i: nat, delay: real, x: nat)
    requires QueueOk(d) && i < |d.tlisteners| && x < |d.listeners| && ListenerOk(d, x)
    requires x != d.tlisteners[i]
    ensures ListenerOk(TakeTurn(d, i, delay), x)
  {
    hide ListenerOk, TakeTurn, Runs, NoRepeats, Dead;
    TurnElsewhere(d, i, delay, x);
    SameListener(d, TakeTurn(d, i, delay), x);
  }

  lemma TurnItself(d: Dispatcher, i: nat, delay: real)
    requires QueueOk(d) && i < |d.tlisteners| && ListenerOk(d, d.tlisteners[i])
    ensures ListenerOk(TakeTurn(d, i, delay), d.tlisteners[i])
  {
    var id := d.tlisteners[i];
    PopMembers(d.tlisteners, i);
    RunsSnoc(d.log, Firing(id, d.listeners[id].etime, d.last_ts), id);
    hide Pop, Runs, NoRepeats, Dead;
  }

  lemma LeaveListeners(d: Dispatcher)
    requires ListenersOk(d) && Inside(d) && d.inside.Some?
    ensures ListenersOk(LeaveCallback(d))
  {
    var d' := LeaveCallback(d);
    hide Runs;
    forall x | 0 <= x < |d'.listeners| ensures ListenerOk(d', x) {
      assert ListenerOk(d, x);
    }
  }

  lemma SweepListeners(d: Dispatcher)
    requires ListenersOk(d) && QueueOk(d)
    ensures ListenersOk(Sweep(d))
  {
    var d' := Sweep(d);
    LiveOnlyMembers(d.tlisteners, d.listeners);
    hide Runs, LiveOnly, Dead;
    forall x | 0 <= x < |d'.listeners| ensures ListenerOk(d', x) {
      assert ListenerOk(d, x);
    }
  }

  lemma StepListeners(d: Dispatcher, a: Action)
    requires Inv(d) && Enabled(d, a)
    ensures ListenersOk(Step(d, a))
  {
    var d' := Step(d, a);
    match a {
      case RegTimer(now, ival, nticks, absTime, randomize) =>
        RegisterListeners(d, now, ival, nticks, absTime, randomize);
      case Go(id, delay) => GoListeners(d, id, delay);
      case Cancel(id) => CancelListeners(d, id);
      case Turn(i, delay) =>
        forall x | 0 <= x < |d'.listeners| ensures ListenerOk(d', x) {
          if x == d.tlisteners[i] { TurnItself(d, i, delay); } else { TurnOthers(d, i, delay, x); }
        }
      case CallbackReturns => LeaveListeners(d);
      case Compact => SweepListeners(d);
      case _ =>
        forall x | 0 <= x < |d'.listeners| ensures ListenerOk(d', x) {
          assert ListenerOk(d, x);
        }
    }
    hide ListenerOk, Register, GoTimer, CancelTimer, TakeTurn, LeaveCallback, Sweep, NoRepeats, Dead, LogOk;
  }

  // ----- The log and the running callback -----

  lemma StepLog(d: Dispatcher, a: Action)
    requires QueueOk(d) && LogOk(d) && Enabled(d, a)
    ensures LogOk(Step(d, a))
  {
    var d' := Step(d, a);
    if a.Turn? {
      var id := d.tlisteners[a.i];
      forall x | x >= |d'.listeners| ensures Runs(d'.log, x) == 0 {
        RunsSnoc(d.log, Firing(id, d.listeners[id].etime, d.last_ts), x);
      }
    }
    hide Runs, LiveOnly, Pop, Dead, NoRepeats;
  }

  lemma TurnInside(d: Dispatcher, i: nat, delay: real)
    requires QueueOk(d) && ListenersOk(d) && d.inside.None? && i < |d.tlisteners|
    ensures Inside(TakeTurn(d, i, delay))
  {
    var id := d.tlisteners[i];
    assert ListenerOk(d, id);
    PopMembers(d.tlisteners, i);
    RunsSnoc(d.log, Firing(id, d.listeners[id].etime, d.last_ts), id);
    hide Runs, Pop, Dead, NoRepeats;
  }

  lemma StepInside(d: Dispatcher, a: Action)
    requires Inv(d) && Enabled(d, a)
    ensures Inside(Step(d, a))
  {
    if a.Turn? {
      TurnInside(d, a.i, a.delay);
      hide TakeTurn;
    } else {
      hide Runs, ListenerOk, Sweep, Dead, NoRepeats, LogOk, TakeTurn;
    }
  }

  lemma StepInv(d: Dispatcher, a: Action)
    requires Inv(d) && Enabled(d, a)
    ensures Inv(Step(d, a))
  {
    StepQueue(d, a);
    StepListeners(d, a);
    StepLog(d, a);
    StepInside(d, a);
    hide Step, QueueOk, ListenersOk, LogOk, Inside;
  }

  lemma {:induction false} RunInv(states: seq<Dispatcher>, actions: seq<Action>, k: nat)
    requires IsRun(states, actions) && Inv(states[0]) && k <= |actions|
    ensures Inv(states[k])
    decreases k
  {
    hide Inv, Step, Enabled;
    if k > 0 {
      RunInv(states, actions, k - 1);
      StepInv(states[k - 1], actions[k - 1]);
    }
  }

  lemma InitInv(now: real)
    ensures Inv(Init(now))
  {
    assert Dead(Init(now)) == {};
  }

  // ----- Main results -----

  /** When the `n`-th run of a timer without randomized intervals is due, reckoned from its registration. */
  function DueAt(el: Listener, n: nat): real {
    if el.abs_time then el.ival else el.itime + n as real * el.ival
  }

  /** The entries of `id` in the log, and its next run, are due when they were planned at registration. */
  ghost predicate PlanOk(d: Dispatcher, id: nat)
    requires id < |d.listeners|
  {
    var el := d.listeners[id];
    && (el.abs_time ==> el.nticks == 1)
    && (id in d.tlisteners ==> el.etime == DueAt(el, Runs(d.log, id) + 1))
    && forall k :: 0 <= k < |d.log| && d.log[k].id == id ==> d.log[k].due == DueAt(el, Runs(d.log[..k], id) + 1)
  }

  ghost predicate PlansOk(d: Dispatcher) {
    forall id :: 0 <= id < |d.listeners| && !d.listeners[id].randomize ==> PlanOk(d, id)
  }

  /** What `PlanOk` depends on. */
  lemma SamePlan(d: Dispatcher, d': Dispatcher, id: nat)
    requires id < |d.listeners| && id < |d'.listeners| && PlanOk(d, id) && d'.log == d.log
    requires d'.listeners[id].(alive := true, cancelled := false) == d.listeners[id].(alive := true, cancelled := false)
    requires id in d'.tlisteners ==> id in d.tlisteners
    ensures PlanOk(d', id)
  {
    hide Runs;
  }

  lemma NextDue(el: Listener, n: nat)
    requires !el.abs_time
    ensures DueAt(el, n + 1) == DueAt(el, n) + el.ival
  {
    assert (n + 1) as real * el.ival == n as real * el.ival + el.ival;
  }

  lemma FiringPlan(log: seq<Firing>, f: Firing, el: Listener, id: nat)
    requires forall k :: 0 <= k < |log| && log[k].id == id ==> log[k].due == DueAt(el, Runs(log[..k], id) + 1)
    requires f.id == id ==> f.due == DueAt(el, Runs(log, id) + 1)
    ensures var all := log + [f];
            forall k :: 0 <= k < |all| && all[k].id == id ==> all[k].due == DueAt(el, Runs(all[..k], id) + 1)
  {
    hide DueAt, Runs;
    var all := log + [f];
    forall k | 0 <= k < |all| && all[k].id == id ensures all[k].due == DueAt(el, Runs(all[..k], id) + 1) {
      if k < |log| {
        assert all[..k] == log[..k];
      } else {
        assert all[..k] == log;
      }
    }
  }

  lemma TurnPlanOthers(d: Dispatcher, i: nat, delay: real, id: nat)
    requires QueueOk(d) && i < |d.tlisteners| && id < |d.listeners| && PlanOk(d, id)
    requires d.tlisteners[i] != id
    ensures PlanOk(TakeTurn(d, i, delay), id)
  {
    hide Runs, Pop, NoRepeats, Dead, DueAt;
    TurnElsewhere(d, i, delay, id);
    var first := d.tlisteners[i];
    FiringPlan(d.log, Firing(first, d.listeners[first].etime, d.last_ts), d.listeners[id], id);
  }

  /** After one more run, with the next one planned an interval later or no longer waiting. */
  lemma RunPlanned(d: Dispatcher, d': Dispatcher, id: nat, f: Firing)
    requires id < |d.listeners| && id < |d'.listeners| && PlanOk(d, id) && id in d.tlisteners
    requires d'.log == d.log + [f] && f.id == id && f.due == d.listeners[id].etime
    requires var el, el' := d.listeners[id], d'.listeners[id];
             && el'.abs_time == el.abs_time && el'.itime == el.itime && el'.ival == el.ival
             && (el'.abs_time ==> el'.nticks == 1 && id !in d'.tlisteners)
             && (id in d'.tlisteners ==> el'.etime == el.etime + el.ival)
    ensures PlanOk(d', id)
  {
    var el, el' := d.listeners[id], d'.listeners[id];
    FiringPlan(d.log, f, el, id);
    RunsSnoc(d.log, f, id);
    if !el.abs_time {
      NextDue(el, Runs(d.log, id) + 1);
    }
    assert forall m :: DueAt(el', m) == DueAt(el, m);
    hide Runs, DueAt;
  }

  lemma TurnPlanItself(d: Dispatcher, i: nat, id: nat)
    requires QueueOk(d) && i < |d.tlisteners| && d.tlisteners[i] == id && PlanOk(d, id)
    ensures PlanOk(TakeTurn(d, i, d.listeners[id].ival), id)
  {
    PopMembers(d.tlisteners, i);
    var d' := TakeTurn(d, i, d.listeners[id].ival);
    hide Runs, Pop, NoRepeats, Dead, DueAt;
    if d.listeners[id].alive {
      assert d.listeners[id].abs_time ==> d.listeners[id].nticks == 1;
      hide PlanOk;
      RunPlanned(d, d', id, Firing(id, d.listeners[id].etime, d.last_ts));
    } else {
      SamePlan(d, d', id);
    }
  }

  lemma GoPlan(d: Dispatcher, id: nat, delay: real)
    requires Enabled(d, Go(id, delay)) && ListenerOk(d, id) && PlanOk(d, id) && !d.listeners[id].randomize
    ensures PlanOk(GoTimer(d, id, delay), id)
  {
    var d' := GoTimer(d, id, delay);
    NothingLogged(d.log, id);
    assert 1 as real * d.listeners[id].ival == d.listeners[id].ival;
    hide Runs;
  }

  lemma {:induction false} NothingLogged(log: seq<Firing>, id: nat)
    ensures Runs(log, id) == 0 <==> forall k :: 0 <= k < |log| ==> log[k].id != id
    decreases |log|
  {
    if log != [] {
      NothingLogged(log[..|log| - 1], id);
    }
  }

  lemma StepPlan(d: Dispatcher, a: Action, id: nat)
    requires Inv(d) && Enabled(d, a) && PlansOk(d)
    requires id < |Step(d, a).listeners| && !Step(d, a).listeners[id].randomize
    ensures PlanOk(Step(d, a), id)
  {
    var d' := Step(d, a);
    if id >= |d.listeners| {
      NothingLogged(d'.log, id);
    } else {
      assert ListenerOk(d, id) && PlanOk(d, id);
      match a {
        case Turn(i, delay) =>
          if d.tlisteners[i] == id { TurnPlanItself(d, i, id); } else { TurnPlanOthers(d, i, delay, id); }
        case Go(x, delay) =>
          if x == id { GoPlan(d, id, delay); } else { SamePlan(d, d', id); }
        case Compact =>
          LiveOnlyMembers(d.tlisteners, d.listeners);
          SamePlan(d, d', id);
        case _ => SamePlan(d, d', id);
      }
    }
    hide Runs, Pop, NoRepeats, Dead, LogOk, Inside, LiveOnly, PlanOk, ListenerOk;
  }

  lemma {:induction false} RunPlans(states: seq<Dispatcher>, actions: seq<Action>, now: real, k: nat)
    requires IsRun(states, actions) && states[0] == Init(now) && k <= |actions|
    ensures PlansOk(states[k])
    decreases k
  {
    hide Inv, Step, Enabled, PlanOk;
    if k > 0 {
      RunPlans(states, actions, now, k - 1);
      InitInv(now);
      RunInv(states, actions, k - 1);
      var d := states[k - 1];
      forall id | 0 <= id < |states[k].listeners| && !states[k].listeners[id].randomize ensures PlanOk(states[k], id) {
        StepPlan(d, actions[k - 1], id);
      }
    }
  }

  /** In every run: the n-th run of a timer without randomized intervals comes at or after its registration plus n
      intervals (an absolute timer's only run at or after its time), and no timer runs more often than asked for. */
  lemma CallbacksAreDue(states: seq<Dispatcher>, actions: seq<Action>, now: real, k: nat)
    requires IsRun(states, actions) && states[0] == Init(now) && k <= |actions|
    ensures forall j :: 0 <= j < |states[k].log| ==>
              var f := states[k].log[j];
              && f.due <= f.at && f.id < |states[k].listeners|
              && (!states[k].listeners[f.id].randomize ==>
                    f.at >= DueAt(states[k].listeners[f.id], Runs(states[k].log[..j], f.id) + 1))
    ensures forall id :: 0 <= id < |states[k].listeners| && states[k].listeners[id].ordered != -1 ==>
                           Runs(states[k].log, id) <= Wanted(states[k].listeners[id])
  {
    InitInv(now);
    RunInv(states, actions, k);
    RunPlans(states, actions, now, k);
    var d := states[k];
    hide IsRun, QueueOk, Inside, Wanted, DueAt;
    forall j | 0 <= j < |d.log|
      ensures d.log[j].due <= d.log[j].at && d.log[j].id < |d.listeners|
      ensures !d.listeners[d.log[j].id].randomize ==>
                d.log[j].at >= DueAt(d.listeners[d.log[j].id], Runs(d.log[..j], d.log[j].id) + 1)
    {
      NothingLogged(d.log, d.log[j].id);
      assert !d.listeners[d.log[j].id].randomize ==> PlanOk(d, d.log[j].id);
    }
    hide Runs;
    forall id | 0 <= id < |d.listeners| && d.listeners[id].ordered != -1
      ensures Runs(d.log, id) <= Wanted(d.listeners[id])
    {
      assert ListenerOk(d, id);
    }
  }

  /** A listener that is not alive stays so, and runs no more. */
  lemma DeadRunsNoMore(d: Dispatcher, a: Action, id: nat)
    requires Enabled(d, a) && id < |d.listeners| && !d.listeners[id].alive
    ensures var d' := Step(d, a);
            id < |d'.listeners| && !d'.listeners[id].alive && Runs(d'.log, id) == Runs(d.log, id)
  {
    if a.Turn? {
      var first := d.tlisteners[a.i];
      RunsSnoc(d.log, Firing(first, d.listeners[first].etime, d.last_ts), id);
    }
    hide Runs, LiveOnly, Pop;
  }

  /** Once cancelled, never again: in the rest of every run a cancelled listener's callback does not run. */
  lemma {:induction false} NeverAfterCancel(states: seq<Dispatcher>, actions: seq<Action>, j: nat, k: nat, id: nat)
    requires IsRun(states, actions) && j <= k <= |actions|
    requires id < |states[j].listeners| && !states[j].listeners[id].alive
    ensures id < |states[k].listeners| && !states[k].listeners[id].alive
    ensures Runs(states[k].log, id) == Runs(states[j].log, id)
    decreases k - j
  {
    hide Step, Enabled, Runs;
    if j < k {
      DeadRunsNoMore(states[j], actions[j], id);
      NeverAfterCancel(states, actions, j + 1, k, id);
    }
  }

  /** The loop in dispatchTimers has nothing more to do. */
  ghost predicate NothingDue(d: Dispatcher) {
    && d.inside.None?
    && (d.tlisteners == [] ||
        exists i: nat :: IsFirst(d, i) && d.tlisteners[i] < |d.listeners|
                    && d.listeners[d.tlisteners[i]].alive && d.listeners[d.tlisteners[i]].etime > d.last_ts)
  }

  /** When dispatchTimers ends without a break, every started listener that was not cancelled is due in the future,
      or has run exactly as often as asked for: a timer of n ticks runs n times. */
  lemma AllDueHaveRun(states: seq<Dispatcher>, actions: seq<Action>, now: real, k: nat, id: nat)
    requires IsRun(states, actions) && states[0] == Init(now) && k <= |actions|
    requires NothingDue(states[k]) && id < |states[k].listeners|
    requires states[k].listeners[id].started && !states[k].listeners[id].cancelled
    ensures var d := states[k];
            var el := d.listeners[id];
            (id in d.tlisteners && el.etime > d.last_ts
             && (el.ordered != -1 ==> Runs(d.log, id) + Remaining(el) == Wanted(el)))
            || (el.ordered != -1 && Runs(d.log, id) == Wanted(el))
  {
    InitInv(now);
    RunInv(states, actions, k);
    assert ListenerOk(states[k], id);
    hide IsRun, Runs, Dead, NoRepeats, LogOk, Inside;
    WaitingIsLater(states[k], id);
  }

  lemma WaitingIsLater(d: Dispatcher, id: nat)
    requires NothingDue(d) && id < |d.listeners|
    ensures id in d.tlisteners ==> d.listeners[id].etime > d.last_ts
  {
    if id in d.tlisteners {
      var j :| 0 <= j < |d.tlisteners| && d.tlisteners[j] == id;
      var i: nat :| IsFirst(d, i) && d.tlisteners[i] < |d.listeners|
               && d.listeners[d.tlisteners[i]].alive && d.listeners[d.tlisteners[i]].etime > d.last_ts;
      assert Due(d, i) <= Due(d, j);
    }
  }

  /** The listener is in the queue and has not been cancelled. */
  ghost predicate Waits(d: Dispatcher, id: nat) {
    id < |d.listeners| && id in d.tlisteners && d.listeners[id].alive
  }

  /** A waiting listener waits on at the same time, until it runs or is cancelled. */
  lemma KeepsWaiting(d: Dispatcher, a: Action, x: nat)
    requires Inv(d) && Enabled(d, a) && Waits(d, x)
    ensures var d' := Step(d, a);
            && x < |d'.listeners| && Runs(d'.log, x) >= Runs(d.log, x)
            && (Runs(d'.log, x) == Runs(d.log, x) && !d'.listeners[x].cancelled ==>
                  Waits(d', x) && d'.listeners[x].etime == d.listeners[x].etime)
  {
    assert ListenerOk(d, x);
    match a {
      case Turn(i, delay) =>
        var first := d.tlisteners[i];
        PopMembers(d.tlisteners, i);
        RunsSnoc(d.log, Firing(first, d.listeners[first].etime, d.last_ts), x);
      case Compact => LiveOnlyMembers(d.tlisteners, d.listeners);
      case _ =>
    }
    hide Runs, LiveOnly, Pop, NoRepeats, Dead, LogOk, ListenersOk;
  }

  /** Once run or cancelled, that stays so. */
  lemma StaysSo(d: Dispatcher, a: Action, x: nat)
    requires Enabled(d, a) && x < |d.listeners|
    ensures var d' := Step(d, a);
            && x < |d'.listeners| && Runs(d'.log, x) >= Runs(d.log, x)
            && (d.listeners[x].cancelled ==> d'.listeners[x].cancelled)
  {
    if a.Turn? {
      var first := d.tlisteners[a.i];
      RunsSnoc(d.log, Firing(first, d.listeners[first].etime, d.last_ts), x);
    }
    hide Runs, LiveOnly, Pop;
  }

  /** While `x` waits, a later `y` does not run. */
  lemma LaterDoesNotRun(d: Dispatcher, a: Action, x: nat, y: nat)
    requires Inv(d) && Enabled(d, a) && Waits(d, x)
    requires y < |d.listeners| && d.listeners[y].started && d.listeners[x].etime < d.listeners[y].etime
    ensures var d' := Step(d, a);
            && y < |d'.listeners| && d'.listeners[y].started && d'.listeners[y].etime == d.listeners[y].etime
            && Runs(d'.log, y) == Runs(d.log, y)
  {
    if a.Turn? {
      var first := d.tlisteners[a.i];
      RunsSnoc(d.log, Firing(first, d.listeners[first].etime, d.last_ts), y);
      var j :| 0 <= j < |d.tlisteners| && d.tlisteners[j] == x;
      assert Due(d, a.i) <= Due(d, j);
    }
    hide Runs, LiveOnly, Pop, NoRepeats, Dead, LogOk, ListenersOk;
  }

  /** `x` has not run since state `d0`, nor been cancelled, and neither has the later `y` run. */
  ghost predicate Ahead(d0: Dispatcher, d: Dispatcher, x: nat, y: nat)
    requires x < |d0.listeners| && y < |d0.listeners|
  {
    && Waits(d, x) && Runs(d.log, y) == Runs(d0.log, y)
    && y < |d.listeners| && d.listeners[y].started
    && d.listeners[x].etime == d0.listeners[x].etime && d.listeners[y].etime == d0.listeners[y].etime
  }

  lemma AheadStep(d0: Dispatcher, d: Dispatcher, a: Action, x: nat, y: nat)
    requires x < |d0.listeners| && y < |d0.listeners| && d0.listeners[x].etime < d0.listeners[y].etime
    requires Inv(d) && Enabled(d, a) && Ahead(d0, d, x, y)
    ensures var d' := Step(d, a);
            && x < |d'.listeners| && Runs(d'.log, x) >= Runs(d.log, x)
            && (Runs(d'.log, x) > Runs(d.log, x) || d'.listeners[x].cancelled || Ahead(d0, d', x, y))
  {
    hide Step, Enabled, Inv, Runs;
    KeepsWaiting(d, a, x);
    LaterDoesNotRun(d, a, x, y);
  }

  lemma StateInv(states: seq<Dispatcher>, actions: seq<Action>, now: real, k: nat)
    requires IsRun(states, actions) && states[0] == Init(now) && k <= |actions|
    ensures k < |states| && Inv(states[k])
  {
    InitInv(now);
    RunInv(states, actions, k);
  }

  lemma StepOf(states: seq<Dispatcher>, actions: seq<Action>, k: nat)
    requires IsRun(states, actions) && k < |actions|
    ensures k + 1 < |states| && Enabled(states[k], actions[k]) && states[k + 1] == Step(states[k], actions[k])
  {
  }

  /** In every run: if at some time `x` and `y` both wait and `x` is due earlier, then from then on `y` does not run
      unless `x` has run or been cancelled first. */
  lemma {:induction false} EarlierRunsFirst(states: seq<Dispatcher>, actions: seq<Action>, now: real,
                                            j: nat, k: nat, x: nat, y: nat)
    requires IsRun(states, actions) && states[0] == Init(now) && j <= k <= |actions|
    requires Waits(states[j], x) && Waits(states[j], y)
    requires states[j].listeners[x].etime < states[j].listeners[y].etime
    ensures x < |states[k].listeners| && Runs(states[k].log, x) >= Runs(states[j].log, x)
    ensures Runs(states[k].log, x) > Runs(states[j].log, x) || states[k].listeners[x].cancelled
            || Ahead(states[j], states[k], x, y)
    decreases k
  {
    if k == j {
      assert Inv(states[j]) by { StateInv(states, actions, now, j); }
      WaitersStarted(states[j], y);
      hide Runs;
    } else {
      hide *;
      EarlierRunsFirst(states, actions, now, j, k - 1, x, y);
      StateInv(states, actions, now, k - 1);
      StepOf(states, actions, k - 1);
      StaysSo(states[k - 1], actions[k - 1], x);
      if Ahead(states[j], states[k - 1], x, y) {
        AheadStep(states[j], states[k - 1], actions[k - 1], x, y);
      }
    }
  }

  lemma WaitersStarted(d: Dispatcher, id: nat)
    requires Inv(d) && Waits(d, id)
    ensures d.listeners[id].started
  {
    assert ListenerOk(d, id);
  }

  lemma {:induction false} DistinctCount(heap: seq<nat>, members: set<nat>)
    requires NoRepeats(heap) && forall x :: x in members <==> x in heap
    ensures |heap| == |members|
    decreases |heap|
  {
    if heap == [] {
      assert members == {};
    } else {
      var n := |heap| - 1;
      assert forall x :: x in heap[..n] <==> x in heap && x != heap[n];
      DistinctCount(heap[..n], members - {heap[n]});
    }
  }

  lemma LiveAndDead(d: Dispatcher)
    requires QueueOk(d)
    ensures |d.tlisteners| == |Live(d)| + |Dead(d)|
  {
    DistinctCount(d.tlisteners, Live(d) + Dead(d));
    assert Live(d) !! Dead(d);
  }

  /** `twasted` never undercounts the cancelled entries, so after the sweep at most half of the queue is waste. */
  lemma AtMostHalfIsWaste(states: seq<Dispatcher>, actions: seq<Action>, now: real, k: nat)
    requires IsRun(states, actions) && states[0] == Init(now) && k <= |actions|
    ensures states[k].twasted >= |Dead(states[k])|
    ensures |Sweep(states[k]).tlisteners| <= 2 * |Live(states[k])|
  {
    InitInv(now);
    RunInv(states, actions, k);
    SweepHalves(states[k]);
  }

  lemma SweepHalves(d: Dispatcher)
    requires QueueOk(d)
    ensures |Sweep(d).tlisteners| <= 2 * |Live(d)|
  {
    LiveAndDead(d);
    if d.twasted * 2 > |d.tlisteners| {
      SweepQueue(d);
      LiveOnlyMembers(d.tlisteners, d.listeners);
      hide LiveOnly;
      DistinctCount(Sweep(d).tlisteners, Live(d));
    }
  }

  // ----- The object -----

  /** What a callback may ask of the dispatcher. */
  datatype Call =
    | CallReg(ival: real, nticks: int, abs_time: bool)
    | CallGo(id: nat)
    | CallCancel(id: nat)
    | CallBreak

  class EventDispatcher2 {
    var tlisteners: seq<nat>
    var listeners: seq<Listener>
    var twasted: int
    var last_ts: real
    var endloop: bool
    ghost var inside: Option<(nat, bool)>
    ghost var log: seq<Firing>

    ghost function View(): Dispatcher
      reads this
    {
      Dispatcher(tlisteners, listeners, twasted, last_ts, endloop, inside, log)
    }

    constructor (now: real)
      ensures View() == Init(now)
    {
      tlisteners, listeners, twasted, last_ts, endloop := [], [], 0, now, false;
      inside, log := None, [];
    }

    method RegTimer(now: real, ival: real, nticks: int, absTime: bool, randomize: bool) returns (el: Option<nat>)
      modifies this`last_ts, this`listeners
      ensures View() == Register(old(View()), now, ival, nticks, absTime, randomize)
      ensures el == if nticks == 0 then None else Some(|old(listeners)|)
    {
      last_ts := now;
      if nticks == 0 {
        return None;
      }
      var n := if absTime then 1 else nticks;
      el := Some(|listeners|);
      listeners := listeners + [Listener(now, now, ival, n, absTime, randomize, true, false, false, n)];
    }

    method Start(id: nat, delay: real)
      requires id < |listeners|
      modifies this`listeners, this`tlisteners
      ensures View() == GoTimer(old(View()), id, delay)
    {
      var el := listeners[id];
      el := el.(etime := if el.abs_time then el.ival else el.itime + delay, started := true);
      listeners := listeners[id := el];
      tlisteners := tlisteners + [id];
    }

    method CancelListener(id: nat)
      requires id < |listeners|
      modifies this`listeners, this`twasted
      ensures View() == CancelTimer(old(View()), id)
    {
      var el := listeners[id];
      if el.alive {
        twasted := twasted + 1;
        el := el.(cancelled := true);
      }
      listeners := listeners[id := el.(alive := false)];
    }

    /** Where the heap has its root. */
    method Root() returns (i: nat)
      requires tlisteners != [] && IdsOk(View())
      ensures IsFirst(View(), i)
    {
      i := 0;
      for j := 1 to |tlisteners|
        invariant i < |tlisteners| && forall k :: 0 <= k < j ==> Due(View(), i) <= Due(View(), k)
      {
        if listeners[tlisteners[j]].etime < listeners[tlisteners[i]].etime {
          i := j;
        }
      }
    }

    /** One call made by a callback at time `now`, if the dispatcher admits it. */
    method Perform(call: Call, now: real) returns (ghost action: Option<Action>)
      requires now >= last_ts
      modifies this
      ensures match action
              case None => View() == old(View())
              case Some(a) => Enabled(old(View()), a) && View() == Step(old(View()), a)
      ensures last_ts <= now && inside == old(inside)
    {
      action := None;
      match call {
        case CallReg(ival, nticks, absTime) =>
          var _ := RegTimer(now, ival, nticks, absTime, false);
          action := Some(Action.RegTimer(now, ival, nticks, absTime, false));
        case CallGo(id) =>
          if id < |listeners| && listeners[id].alive && !listeners[id].started {
            var delay := listeners[id].ival;
            Start(id, delay);
            action := Some(Go(id, delay));
          }
        case CallCancel(id) =>
          if id < |listeners| {
            CancelListener(id);
            action := Some(Cancel(id));
          }
        case CallBreak =>
          endloop := true;
          action := Some(BreakLoop);
      }
    }

    /** One turn of the loop up to the callback; the result is whose callback runs, and whether to clean up after. */
    method PopRoot(i: nat, delay: real) returns (runs: Option<(nat, bool)>)
      requires Enabled(View(), Turn(i, delay))
      modifies this
      ensures View() == TakeTurn(old(View()), i, delay)
      ensures inside == runs && endloop == old(endloop) && last_ts == old(last_ts) && |listeners| == |old(listeners)|
    {
      var id := tlisteners[i];
      var el := listeners[id];
      tlisteners := Pop(tlisteners, i);
      if !el.alive {
        twasted := twasted - 1;
        return None;
      }
      log := log + [Firing(id, el.etime, last_ts)];
      var cleanup;
      if el.nticks == -1 || el.nticks > 1 {
        listeners := listeners[id := NextTick(el, delay)];
        tlisteners := tlisteners + [id];
        cleanup := false;
      } else {
        cleanup := true;
      }
      inside := Some((id, cleanup));
      return Some((id, cleanup));
    }

    /** The callback of the listener in `inside`, and the end of the turn. */
    method RunCallback(calls: seq<Call>, now: real, cleanup: (nat, bool),
                       ghost start: seq<Dispatcher>, ghost first: seq<Action>)
      returns (ghost states: seq<Dispatcher>, ghost actions: seq<Action>)
      requires Inv(View()) && inside == Some(cleanup) && last_ts <= now
      requires IsRun(start, first) && RunEnds(start, first, start[0], View())
      modifies this
      ensures Inv(View()) && inside.None? && last_ts <= now
      ensures IsRun(states, actions) && states[0] == start[0] && states[|actions|] == View()
    {
      hide Inv, IsRun, Step, Enabled;
      states, actions := start, first;
      for k := 0 to |calls|
        invariant Inv(View()) && inside == Some(cleanup) && last_ts <= now
        invariant IsRun(states, actions) && RunEnds(states, actions, start[0], View())
      {
        ghost var before := View();
        ghost var action := Perform(calls[k], now);
        if action.Some? {
          StepInv(before, action.value);
          RunSnoc(states, actions, action.value, View());
          states, actions := states + [View()], actions + [action.value];
        }
      }
      ghost var before := View();
      InsideEnabled(before);
      StepInv(before, CallbackReturns);
      inside := None;
      if !endloop && cleanup.1 {
        listeners := listeners[cleanup.0 := listeners[cleanup.0].(alive := false)];
      }
      LeavesSo(before, View());
      RunSnoc(states, actions, CallbackReturns, View());
      states, actions := states + [View()], actions + [CallbackReturns];
    }

    /** `dispatchTimers` for at most `turns` turns; callback number k makes the calls of `script[k]` at its time. What
        it does is a run of the dispatcher; and if it ends by itself without a break, nothing is due. */
    method DispatchTimers(script: seq<(real, seq<Call>)>, jitter: seq<real>, turns: nat)
      returns (finished: bool, ghost states: seq<Dispatcher>, ghost actions: seq<Action>)
      requires Inv(View()) && inside.None? && !endloop && Forwards(script, last_ts)
      modifies this
      ensures IsRun(states, actions) && states[0] == old(View()) && states[|actions|] == View()
      ensures Inv(View()) && inside.None?
      ensures finished && !endloop ==> NothingDue(View())
    {
      states, actions := [View()], [];
      var called := 0;
      finished := false;
      for turn := 0 to turns
        invariant Inv(View()) && inside.None? && !endloop
        invariant called < |script| ==> last_ts <= script[called].0
        invariant IsRun(states, actions) && RunEnds(states, actions, old(View()), View())
      {
        hide Inv, IsRun, Step, IsFirst;
        if |tlisteners| == 0 {
          finished := true;
          return;
        }
        InvIds(View());
        var i := Root();
        var el := listeners[tlisteners[i]];
        if el.alive && el.etime > last_ts {
          finished := true;
          return;
        }
        var delay := if el.randomize && turn < |jitter| then el.ival + jitter[turn] else el.ival;
        ghost var before := View();
        assert Enabled(before, Turn(i, delay));
        var runs := PopRoot(i, delay);
        hide Enabled, TakeTurn;
        TurnsSo(before, i, delay, View());
        StepInv(before, Turn(i, delay));
        RunSnoc(states, actions, Turn(i, delay), View());
        states, actions := states + [View()], actions + [Turn(i, delay)];
        if runs.Some? {
          var (now, calls) := if called < |script| then script[called] else (last_ts, []);
          called := called + 1;
          states, actions := RunCallback(calls, now, runs.value, states, actions);
          if endloop {
            finished := true;
            return;
          }
        }
      }
    }
  }

  /** The callbacks' times do not go back. */
  ghost predicate Forwards(script: seq<(real, seq<Call>)>, start: real) {
    && (script != [] ==> start <= script[0].0)
    && forall k :: 0 < k < |script| ==> script[k - 1].0 <= script[k].0
  }

  ghost predicate RunEnds(states: seq<Dispatcher>, actions: seq<Action>, first: Dispatcher, last: Dispatcher) {
    |states| == |actions| + 1 && states[0] == first && states[|actions|] == last
  }

  lemma RunSnoc(states: seq<Dispatcher>, actions: seq<Action>, a: Action, last: Dispatcher)
    requires IsRun(states, actions) && Enabled(states[|actions|], a) && last == Step(states[|actions|], a)
    ensures IsRun(states + [last], actions + [a])
  {
    hide Enabled, Step;
  }

  lemma InsideEnabled(d: Dispatcher)
    requires Inv(d) && d.inside.Some?
    ensures d.inside.value.0 < |d.listeners| && Enabled(d, CallbackReturns)
  {
  }

  lemma LeavesSo(d: Dispatcher, d': Dispatcher)
    requires Enabled(d, CallbackReturns) && d' == LeaveCallback(d)
    ensures d' == Step(d, CallbackReturns)
  {
  }

  lemma TurnsSo(d: Dispatcher, i: nat, delay: real, d': Dispatcher)
    requires Enabled(d, Turn(i, delay)) && d' == TakeTurn(d, i, delay)
    ensures d' == Step(d, Turn(i, delay))
  {
  }

  lemma InvIds(d: Dispatcher)
    requires Inv(d)
    ensures IdsOk(d)
  {
  }
}
