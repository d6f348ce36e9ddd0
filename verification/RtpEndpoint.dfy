/** The RTP endpoint of `sippy/Rtp/EPoint.py` as a state machine over its lock-protected sections: one updating
    thread races any number of `shutdown` calls. */
module RtpEndpoint {
  import opened Basics

  datatype Event = Created(id: nat) | Closed(id: nat) | Started(id: nat) | Ended(id: nat) | Released

  /** Where the updating thread is, with its local variables. */
  datatype UpdPc =
    | Idle
    | EndOld(old_writer: Option<nat>, channel: Option<nat>, proto: bool, retarget: bool, needNew: bool)
    | CheckSwap(channel: Option<nat>, proto: bool, retarget: bool, needNew: bool)
    | Bind(old_channel: nat, needNew: bool)
    | Swap(old_channel: nat, new_channel: nat, needNew: bool)
    | CloseOld(old_channel: nat, needNew: bool)
    | MakeWriter(needNew: bool)
    | Install(new_writer: nat)

  /** What a `shutdown` call has taken and not yet given back. */
  datatype Task = Task(writer: Option<nat>, channel: Option<nat>, server: bool)

  datatype Endpoint = Endpoint(
    rserv: Option<nat>, writer: Option<nat>, server: bool, hasTarget: bool,
    pc: UpdPc, tasks: seq<Task>, channels: nat, writers: nat, leaked: set<nat>, log: seq<Event>)

  /** How a call that may raise ends: binding a channel, setting its target, making and starting a writer. */
  datatype Outcome = Fine | BindFails | TargetFails | WriterFails

  datatype Action =
    | Update(newTarget: bool, protoChanged: bool, targetChanged: bool, ptimeChanged: bool)
    | UpdaterStep(outcome: Outcome)
    | Shutdown
    | ShutdownStep(i: nat)

  /** A constructed endpoint: its channel is bound, its writer runs if there is a target. A construction that fails
      has released the server and closed the channel, as a shutdown would have; when it is the writer that fails,
      this is left to the shutdown that comes with the end of the object. */
  function NewEndpoint(hasTarget: bool, outcome: Outcome): Endpoint {
    if outcome.BindFails? then
      Endpoint(None, None, false, hasTarget, Idle, [Task(None, None, false)], 0, 0, {}, [Released])
    else if outcome.TargetFails? && hasTarget then
      Endpoint(None, None, false, true, Idle, [Task(None, None, false)], 1, 0, {}, [Created(0), Released, Closed(0)])
    else if hasTarget && !outcome.WriterFails? then
      Endpoint(Some(0), Some(0), true, true, Idle, [], 1, 1, {}, [Created(0), Started(0)])
    else
      Endpoint(Some(0), None, true, hasTarget, Idle, [], 1, 0, {}, [Created(0)])
  }

  /** The first lock-protected section of `update`. */
  function BeginUpdate(e: Endpoint, newTarget: bool, proto: bool, retarget: bool, ptimeChanged: bool): Endpoint {
    var e1 := e.(hasTarget := newTarget);
    if !newTarget then
      e1.(writer := None, pc := EndOld(e.writer, e.rserv, proto, retarget, false))
    else if e.writer.None? then
      e1.(pc := EndOld(None, e.rserv, proto, retarget, true))
    else if ptimeChanged || proto then
      e1.(writer := None, pc := EndOld(e.writer, e.rserv, proto, retarget, true))
    else
      e1.(pc := EndOld(None, e.rserv, proto, retarget, false))
  }

  /** The rest of `update` and `_swap_channel`, section by section; an exception leaves `update` where it is. */
  function AdvanceUpdate(e: Endpoint, outcome: Outcome): Endpoint {
    match e.pc
    case Idle => e
    case EndOld(prev, channel, proto, retarget, needNew) =>
      var e1 := e.(pc := CheckSwap(channel, proto, retarget, needNew));
      if prev.Some? then e1.(log := e.log + [Ended(prev.value)]) else e1
    case CheckSwap(channel, proto, retarget, needNew) =>
      if proto && channel.Some? then
        e.(pc := if e.server && e.rserv == channel then Bind(channel.value, needNew) else MakeWriter(needNew))
      else if retarget && channel.Some? && e.hasTarget && outcome.TargetFails? then e.(pc := Idle)
      else e.(pc := MakeWriter(needNew))
    case Bind(prev, needNew) =>
      var n := e.channels;
      if outcome.BindFails? then e.(pc := Idle)
      else if outcome.TargetFails? && e.hasTarget then  // nobody keeps the channel that was just bound
        e.(pc := Idle, channels := n + 1, leaked := e.leaked + {n}, log := e.log + [Created(n)])
      else e.(pc := Swap(prev, n, needNew), channels := n + 1, log := e.log + [Created(n)])
    case Swap(prev, next, needNew) =>
      if !e.server || e.rserv != Some(prev) then
        e.(pc := MakeWriter(needNew), log := e.log + [Closed(next)])
      else
        e.(rserv := Some(next), pc := CloseOld(prev, needNew))
    case CloseOld(prev, needNew) => e.(pc := MakeWriter(needNew), log := e.log + [Closed(prev)])
    case MakeWriter(needNew) =>
      if needNew && !outcome.WriterFails? then
        e.(pc := Install(e.writers), writers := e.writers + 1, log := e.log + [Started(e.writers)])
      else e.(pc := Idle)
    case Install(w) =>
      if e.rserv.None? || !e.hasTarget then e.(pc := Idle, log := e.log + [Ended(w)])
      else e.(pc := Idle, writer := Some(w))
  }

  /** The lock-protected section of `shutdown`. */
  function BeginShutdown(e: Endpoint): Endpoint {
    e.(tasks := e.tasks + [Task(e.writer, e.rserv, e.server)], writer := None, rserv := None, server := false)
  }

  /** The rest of one `shutdown` call: end the writer, close the channel, release the server. */
  function AdvanceShutdown(e: Endpoint, i: nat): Endpoint {
    if i >= |e.tasks| then e
    else
      var t := e.tasks[i];
      if t.writer.Some? then e.(tasks := e.tasks[i := t.(writer := None)], log := e.log + [Ended(t.writer.value)])
      else if t.channel.Some? then
        e.(tasks := e.tasks[i := t.(channel := None)], log := e.log + [Closed(t.channel.value)])
      else if t.server then e.(tasks := e.tasks[i := t.(server := false)], log := e.log + [Released])
      else e
  }

  function Step(e: Endpoint, a: Action): Endpoint {
    match a
    case Update(newTarget, proto, target, ptime) =>
      if e.pc.Idle? then BeginUpdate(e, newTarget, proto, target, ptime) else e
    case UpdaterStep(outcome) => AdvanceUpdate(e, outcome)
    case Shutdown => BeginShutdown(e)
    case ShutdownStep(i) => AdvanceShutdown(e, i)
  }

  // ----- Conservation: what was created is either held by someone or given back -----

  function Count(log: seq<Event>, x: Event): nat {
    if log == [] then 0 else Count(log[..|log| - 1], x) + One(log[|log| - 1] == x)
  }

  lemma CountSnoc(log: seq<Event>, e: Event, x: Event)
    ensures Count(log + [e], x) == Count(log, x) + One(x == e)
  {
    assert (log + [e])[..|log|] == log;
  }

  function One(b: bool): nat {
    if b then 1 else 0
  }

  function TaskChannels(tasks: seq<Task>, c: nat): nat {
    if tasks == [] then 0 else TaskChannels(tasks[..|tasks| - 1], c) + One(tasks[|tasks| - 1].channel == Some(c))
  }

  function TaskWriters(tasks: seq<Task>, w: nat): nat {
    if tasks == [] then 0 else TaskWriters(tasks[..|tasks| - 1], w) + One(tasks[|tasks| - 1].writer == Some(w))
  }

  function TaskServers(tasks: seq<Task>): nat {
    if tasks == [] then 0 else TaskServers(tasks[..|tasks| - 1]) + One(tasks[|tasks| - 1].server)
  }

  /** Replacing one task changes the sums by the difference of that task. */
  lemma {:induction false} TaskUpdate(tasks: seq<Task>, i: nat, t: Task, c: nat)
    requires i < |tasks|
    ensures TaskChannels(tasks[i := t], c) + One(tasks[i].channel == Some(c))
            == TaskChannels(tasks, c) + One(t.channel == Some(c))
    ensures TaskWriters(tasks[i := t], c) + One(tasks[i].writer == Some(c))
            == TaskWriters(tasks, c) + One(t.writer == Some(c))
    ensures TaskServers(tasks[i := t]) + One(tasks[i].server) == TaskServers(tasks) + One(t.server)
    decreases |tasks|
  {
    var n := |tasks| - 1;
    if i < n {
      assert tasks[i := t][..n] == tasks[..n][i := t];
      TaskUpdate(tasks[..n], i, t, c);
    } else {
      assert tasks[i := t][..n] == tasks[..n];
    }
  }

  lemma TaskAppend(tasks: seq<Task>, t: Task, c: nat)
    ensures TaskChannels(tasks + [t], c) == TaskChannels(tasks, c) + One(t.channel == Some(c))
    ensures TaskWriters(tasks + [t], c) == TaskWriters(tasks, c) + One(t.writer == Some(c))
    ensures TaskServers(tasks + [t]) == TaskServers(tasks) + One(t.server)
  {
    assert (tasks + [t])[..|tasks|] == tasks;
  }

  function HeldChannels(e: Endpoint, c: nat): nat {
    One(e.rserv == Some(c)) + TaskChannels(e.tasks, c)
    + One(e.pc.Swap? && e.pc.new_channel == c) + One(e.pc.CloseOld? && e.pc.old_channel == c)
  }

  function HeldWriters(e: Endpoint, w: nat): nat {
    One(e.writer == Some(w)) + TaskWriters(e.tasks, w)
    + One(e.pc.EndOld? && e.pc.old_writer == Some(w)) + One(e.pc.Install? && e.pc.new_writer == w)
  }

  predicate WantsWriter(pc: UpdPc) {
    match pc
    case Idle => false
    case EndOld(_, _, _, _, needNew) => needNew
    case CheckSwap(_, _, _, needNew) => needNew
    case Bind(_, needNew) => needNew
    case Swap(_, _, needNew) => needNew
    case CloseOld(_, needNew) => needNew
    case MakeWriter(needNew) => needNew
    case Install(_) => true
  }

  ghost predicate ChannelsOk(e: Endpoint, c: nat) {
    && Count(e.log, Created(c)) == One(c < e.channels)
    && Count(e.log, Closed(c)) + HeldChannels(e, c) + One(c in e.leaked) == One(c < e.channels)
  }

  ghost predicate WritersOk(e: Endpoint, w: nat) {
    && Count(e.log, Started(w)) == One(w < e.writers)
    && Count(e.log, Ended(w)) + HeldWriters(e, w) == One(w < e.writers)
    && (WantsWriter(e.pc) ==> e.writer.None?)
  }

  ghost predicate ServerOk(e: Endpoint) {
    && Count(e.log, Released) + One(e.server) + TaskServers(e.tasks) == 1
    && (e.tasks != [] ==> e.rserv.None? && e.writer.None? && !e.server)
    && (e.tasks == [] ==> e.rserv.Some? && e.server)
  }

  /** As seen by one channel or writer number `c`. */
  ghost predicate Inv(e: Endpoint, c: nat) {
    ChannelsOk(e, c) && WritersOk(e, c) && ServerOk(e)
  }

  lemma NewChannels(hasTarget: bool, outcome: Outcome, c: nat)
    ensures ChannelsOk(NewEndpoint(hasTarget, outcome), c)
  {
    CountFew(Created(0), Started(0), Closed(0), Created(c));
    CountFew(Created(0), Started(0), Closed(0), Closed(c));
    hide Count;
    NoneHeld(c);
  }

  lemma NewWriters(hasTarget: bool, outcome: Outcome, w: nat)
    ensures WritersOk(NewEndpoint(hasTarget, outcome), w)
  {
    CountFew(Created(0), Started(0), Closed(0), Started(w));
    CountFew(Created(0), Started(0), Closed(0), Ended(w));
    hide Count;
    NoneHeld(w);
  }

  lemma NewInv(hasTarget: bool, outcome: Outcome, c: nat)
    ensures Inv(NewEndpoint(hasTarget, outcome), c)
    ensures HasReleased(NewEndpoint(hasTarget, outcome)) <==> ConstructionFails(hasTarget, outcome)
  {
    NewChannels(hasTarget, outcome, c);
    NewWriters(hasTarget, outcome, c);
    CountFew(Created(0), Started(0), Closed(0), Released);
    NoneHeld(c);
    hide Count, ChannelsOk, WritersOk;
  }

  lemma NoneHeld(c: nat)
    ensures TaskChannels([Task(None, None, false)], c) == 0 && TaskWriters([Task(None, None, false)], c) == 0
    ensures TaskServers([Task(None, None, false)]) == 0
  {
  }

  predicate ConstructionFails(hasTarget: bool, outcome: Outcome) {
    outcome.BindFails? || (outcome.TargetFails? && hasTarget)
  }

  predicate HasReleased(e: Endpoint) {
    Count(e.log, Released) > 0
  }

  lemma CountFew(a: Event, b: Event, c: Event, x: Event)
    ensures Count([a], x) == One(a == x) && Count([Released], x) == One(Released == x)
    ensures Count([a, b], x) == One(a == x) + One(b == x)
    ensures Count([a, Released, c], x) == One(a == x) + One(Released == x) + One(c == x)
  {
    assert [a, b][..1] == [a];
    assert [a, Released, c][..2] == [a, Released] && [a, Released][..1] == [a];
  }

  /** The event that a step of the updater logs, if any. */
  function UpdaterLogs(e: Endpoint, outcome: Outcome): Option<Event> {
    match e.pc
    case EndOld(prev, _, _, _, _) => if prev.Some? then Some(Ended(prev.value)) else None
    case Bind(_, _) => if outcome.BindFails? then None else Some(Created(e.channels))
    case Swap(prev, next, _) => if !e.server || e.rserv != Some(prev) then Some(Closed(next)) else None
    case CloseOld(prev, _) => Some(Closed(prev))
    case MakeWriter(needNew) => if needNew && !outcome.WriterFails? then Some(Started(e.writers)) else None
    case Install(w) => if e.rserv.None? || !e.hasTarget then Some(Ended(w)) else None
    case _ => None
  }

  /** Appending at most one event adds to the count of that event only. */
  lemma UpdaterLog(e: Endpoint, outcome: Outcome, x: Event)
    ensures var e' := AdvanceUpdate(e, outcome);
            && e'.tasks == e.tasks
            && Count(e'.log, x) == Count(e.log, x) + One(UpdaterLogs(e, outcome) == Some(x))
  {
    hide Count;
    var l := UpdaterLogs(e, outcome);
    if l.Some? {
      CountSnoc(e.log, l.value, x);
      assert AdvanceUpdate(e, outcome).log == e.log + [l.value];
    } else {
      assert AdvanceUpdate(e, outcome).log == e.log;
    }
  }

  lemma UpdaterChannels(e: Endpoint, outcome: Outcome, c: nat)
    requires ChannelsOk(e, c)
    ensures ChannelsOk(AdvanceUpdate(e, outcome), c)
  {
    UpdaterLog(e, outcome, Created(c));
    UpdaterLog(e, outcome, Closed(c));
    hide Count, TaskChannels;
  }

  lemma UpdaterWriters(e: Endpoint, outcome: Outcome, w: nat)
    requires WritersOk(e, w)
    ensures WritersOk(AdvanceUpdate(e, outcome), w)
  {
    UpdaterLog(e, outcome, Started(w));
    UpdaterLog(e, outcome, Ended(w));
    hide Count, TaskWriters;
  }

  lemma UpdaterServer(e: Endpoint, outcome: Outcome)
    requires ServerOk(e)
    ensures ServerOk(AdvanceUpdate(e, outcome))
  {
    UpdaterLog(e, outcome, Released);
    hide Count, TaskServers;
  }

  function ShutdownLogs(t: Task): Option<Event> {
    if t.writer.Some? then Some(Ended(t.writer.value))
    else if t.channel.Some? then Some(Closed(t.channel.value))
    else if t.server then Some(Released)
    else None
  }

  function ShutdownLeaves(t: Task): Task {
    if t.writer.Some? then t.(writer := None) else if t.channel.Some? then t.(channel := None) else t.(server := false)
  }

  lemma ShutdownLog(e: Endpoint, i: nat, x: Event)
    requires i < |e.tasks|
    ensures var e' := AdvanceShutdown(e, i);
            && e' == e.(tasks := e.tasks[i := ShutdownLeaves(e.tasks[i])], log := e'.log)
            && Count(e'.log, x) == Count(e.log, x) + One(ShutdownLogs(e.tasks[i]) == Some(x))
  {
    if ShutdownLogs(e.tasks[i]).Some? {
      CountSnoc(e.log, ShutdownLogs(e.tasks[i]).value, x);
    } else {
      assert e.tasks[i := ShutdownLeaves(e.tasks[i])] == e.tasks;
    }
    hide Count;
  }

  lemma ShutdownChannels(e: Endpoint, i: nat, c: nat)
    requires ChannelsOk(e, c) && i < |e.tasks|
    ensures ChannelsOk(AdvanceShutdown(e, i), c)
  {
    hide Count, TaskChannels, TaskWriters, TaskServers, AdvanceShutdown;
    ShutdownLog(e, i, Created(c));
    ShutdownLog(e, i, Closed(c));
    TaskUpdate(e.tasks, i, ShutdownLeaves(e.tasks[i]), c);
  }

  lemma ShutdownWriters(e: Endpoint, i: nat, w: nat)
    requires WritersOk(e, w) && i < |e.tasks|
    ensures WritersOk(AdvanceShutdown(e, i), w)
  {
    hide Count, TaskChannels, TaskWriters, TaskServers, AdvanceShutdown;
    ShutdownLog(e, i, Started(w));
    ShutdownLog(e, i, Ended(w));
    TaskUpdate(e.tasks, i, ShutdownLeaves(e.tasks[i]), w);
  }

  lemma ShutdownServer(e: Endpoint, i: nat)
    requires ServerOk(e) && i < |e.tasks|
    ensures ServerOk(AdvanceShutdown(e, i))
  {
    hide Count, TaskChannels, TaskWriters, TaskServers, AdvanceShutdown;
    ShutdownLog(e, i, Released);
    TaskUpdate(e.tasks, i, ShutdownLeaves(e.tasks[i]), 0);
  }

  lemma StepInv(e: Endpoint, a: Action, c: nat)
    requires Inv(e, c)
    ensures Inv(Step(e, a), c)
  {
    match a {
      case Update(_, _, _, _) => UpdateInv(e, a, c);
      case UpdaterStep(out) => UpdaterChannels(e, out, c); UpdaterWriters(e, out, c); UpdaterServer(e, out);
      case Shutdown => BeginShutdownInv(e, c);
      case ShutdownStep(i) =>
        if i < |e.tasks| {
          ShutdownChannels(e, i, c);
          ShutdownWriters(e, i, c);
          ShutdownServer(e, i);
        }
    }
    hide ChannelsOk, WritersOk, ServerOk, AdvanceUpdate, BeginUpdate, BeginShutdown;
  }

  lemma UpdateInv(e: Endpoint, a: Action, c: nat)
    requires Inv(e, c) && a.Update?
    ensures Inv(Step(e, a), c)
  {
    hide Count, TaskChannels, TaskWriters, TaskServers;
  }

  lemma BeginShutdownInv(e: Endpoint, c: nat)
    requires Inv(e, c)
    ensures Inv(BeginShutdown(e), c)
  {
    TaskAppend(e.tasks, Task(e.writer, e.rserv, e.server), c);
    hide Count, TaskChannels, TaskWriters, TaskServers;
  }

  function Run(e: Endpoint, actions: seq<Action>): Endpoint
    decreases |actions|
  {
    if actions == [] then e else Run(Step(e, actions[0]), actions[1..])
  }

  lemma {:induction false} RunInv(e: Endpoint, actions: seq<Action>, c: nat)
    requires Inv(e, c)
    ensures Inv(Run(e, actions), c)
    decreases |actions|
  {
    if actions != [] {
      StepInv(e, actions[0], c);
      RunInv(Step(e, actions[0]), actions[1..], c);
    }
  }

  /** The updater is between two updates, and every shutdown call that began has returned. */
  predicate Quiet(e: Endpoint) {
    e.pc.Idle? && forall i :: 0 <= i < |e.tasks| ==> e.tasks[i] == Task(None, None, false)
  }

  lemma {:induction false} DoneTasksHoldNothing(tasks: seq<Task>, c: nat)
    requires forall i :: 0 <= i < |tasks| ==> tasks[i] == Task(None, None, false)
    ensures TaskChannels(tasks, c) == 0 && TaskWriters(tasks, c) == 0 && TaskServers(tasks) == 0
    decreases |tasks|
  {
    if tasks != [] {
      DoneTasksHoldNothing(tasks[..|tasks| - 1], c);
    }
  }

  /** In every interleaving: nothing is closed, ended or released twice; and once an endpoint has been shut down
      and is quiet, every writer was ended once, the server released once, and every channel closed once that was not
      leaked. */
  lemma EverythingGivenBackOnce(hasTarget: bool, outcome: Outcome, actions: seq<Action>, c: nat)
    ensures var e := Run(NewEndpoint(hasTarget, outcome), actions);
            && Count(e.log, Closed(c)) <= Count(e.log, Created(c)) <= 1
            && Count(e.log, Ended(c)) <= Count(e.log, Started(c)) <= 1
            && Count(e.log, Released) <= 1
            && (Quiet(e) && e.tasks != [] ==>
                  && (Count(e.log, Closed(c)) == Count(e.log, Created(c)) <==> c !in e.leaked)
                  && Count(e.log, Ended(c)) == Count(e.log, Started(c))
                  && Count(e.log, Released) == 1)
  {
    hide Count, Run, NewEndpoint, TaskChannels, TaskWriters, TaskServers, WantsWriter;
    NewInv(hasTarget, outcome, c);
    RunInv(NewEndpoint(hasTarget, outcome), actions, c);
    var e := Run(NewEndpoint(hasTarget, outcome), actions);
    if Quiet(e) {
      DoneTasksHoldNothing(e.tasks, c);
    }
  }

  // ----- When a channel is lost -----

  lemma {:induction false} RunSnoc(e: Endpoint, actions: seq<Action>, a: Action)
    ensures Run(e, actions + [a]) == Step(Run(e, actions), a)
    decreases |actions|
  {
    hide Step;
    if actions == [] {
      assert [a][1..] == [];
    } else {
      assert (actions + [a])[1..] == actions[1..] + [a];
      RunSnoc(Step(e, actions[0]), actions[1..], a);
    }
  }

  /** The new channel of a swap is bound, but refuses its target. */
  predicate Leaks(e: Endpoint, a: Action) {
    e.pc.Bind? && e.hasTarget && a == UpdaterStep(TargetFails)
  }

  ghost predicate LeaksIn(e: Endpoint, actions: seq<Action>) {
    exists j :: LeaksAt(e, actions, j)
  }

  ghost predicate LeaksAt(e: Endpoint, actions: seq<Action>, j: nat) {
    j < |actions| && Leaks(Run(e, actions[..j]), actions[j])
  }

  lemma LeaksSnoc(e: Endpoint, before: seq<Action>, a: Action)
    ensures LeaksIn(e, before + [a]) <==> LeaksIn(e, before) || Leaks(Run(e, before), a)
  {
    hide Run, Leaks;
    var all := before + [a];
    forall j: nat | j < |before| ensures LeaksAt(e, all, j) == LeaksAt(e, before, j) {
      assert all[..j] == before[..j];
    }
    assert all[..|before|] == before;
    assert LeaksAt(e, all, |before|) == Leaks(Run(e, before), a);
  }

  lemma StepLeaks(e: Endpoint, a: Action)
    ensures Step(e, a).leaked != {} <==> e.leaked != {} || Leaks(e, a)
  {
  }

  lemma {:induction false} LeakedExactlyWhen(e: Endpoint, actions: seq<Action>)
    requires e.leaked == {}
    ensures Run(e, actions).leaked != {} <==> LeaksIn(e, actions)
    decreases |actions|
  {
    if actions != [] {
      var before, a := actions[..|actions| - 1], actions[|actions| - 1];
      LeakedExactlyWhen(e, before);
      assert actions == before + [a];
      hide *;
      RunSnoc(e, before, a);
      LeaksSnoc(e, before, a);
      StepLeaks(Run(e, before), a);
    }
  }

  /** After a shutdown every channel has been closed exactly when no swap found its new channel refuse the target. */
  lemma AllClosedExactlyWhen(hasTarget: bool, outcome: Outcome, actions: seq<Action>)
    requires Quiet(Run(NewEndpoint(hasTarget, outcome), actions))
    requires Run(NewEndpoint(hasTarget, outcome), actions).tasks != []
    ensures var e := Run(NewEndpoint(hasTarget, outcome), actions);
            (forall c: nat :: Count(e.log, Closed(c)) == Count(e.log, Created(c))) <==>
            !LeaksIn(NewEndpoint(hasTarget, outcome), actions)
  {
    var e0 := NewEndpoint(hasTarget, outcome);
    assert e0.leaked == {};
    LeakedExactlyWhen(e0, actions);
    var e := Run(e0, actions);
    hide Run, Count, Quiet, LeaksIn, NewEndpoint;
    forall c: nat ensures Count(e.log, Closed(c)) == Count(e.log, Created(c)) <==> c !in e.leaked {
      EverythingGivenBackOnce(hasTarget, outcome, actions, c);
    }
    if e.leaked != {} {
      var c :| c in e.leaked;
      assert Count(e.log, Closed(c)) != Count(e.log, Created(c));
    }
  }

  lemma RunFour(e: Endpoint, a: Action, b: Action, c: Action, d: Action, rest: seq<Action>)
    ensures Run(e, [a, b, c, d] + rest) == Run(Step(Step(Step(Step(e, a), b), c), d), rest)
  {
    hide Step;
    var acts := [a, b, c, d] + rest;
    assert acts[1..][1..][1..][1..] == rest;
    var e1 := Step(e, a);
    var e2 := Step(e1, b);
    assert Run(e, acts) == Run(e1, acts[1..]) == Run(e2, acts[1..][1..]);
    assert Run(e2, acts[1..][1..]) == Run(Step(e2, c), acts[1..][1..][1..]);
  }

  /** A transport change whose new channel refuses the target, then a shutdown: channel 1 is never closed. */
  lemma ChannelLost()
    ensures var change := [Update(true, true, false, false), UpdaterStep(Fine), UpdaterStep(Fine),
                           UpdaterStep(TargetFails)];
            var stop := [Shutdown, ShutdownStep(0), ShutdownStep(0), ShutdownStep(0)];
            var e := Run(NewEndpoint(true, Fine), change + stop);
            Quiet(e) && e.tasks != [] && e.leaked == {1}
  {
    var e0 := NewEndpoint(true, Fine);
    var stop := [Shutdown, ShutdownStep(0), ShutdownStep(0), ShutdownStep(0)];
    RunFour(e0, Update(true, true, false, false), UpdaterStep(Fine), UpdaterStep(Fine), UpdaterStep(TargetFails), stop);
    var e4 := Step(Step(Step(Step(e0, Update(true, true, false, false)), UpdaterStep(Fine)), UpdaterStep(Fine)),
                   UpdaterStep(TargetFails));
    assert e4.leaked == {1} && e4.pc.Idle? && e4.tasks == [];
    assert stop == stop + [];
    RunFour(e4, Shutdown, ShutdownStep(0), ShutdownStep(0), ShutdownStep(0), []);
  }

  // ----- The object -----

  class RTPEPoint {
    var rserv: Option<nat>
    var writer: Option<nat>
    var rtp_server: bool
    var rtp_target: bool
    var updater: UpdPc
    var shutdowns: seq<Task>
    var channels: nat
    var writers: nat
    ghost var leaked: set<nat>
    ghost var log: seq<Event>

    ghost function View(): Endpoint
      reads this
    {
      Endpoint(rserv, writer, rtp_server, rtp_target, updater, shutdowns, channels, writers, leaked, log)
    }

    /** `make_udp_server` and `writer_setup`; when the constructor raises, nobody uses the object. */
    constructor (hasTarget: bool, outcome: Outcome)
      ensures View() == NewEndpoint(hasTarget, outcome)
    {
      rserv, writer, rtp_server, rtp_target := None, None, true, hasTarget;
      updater, shutdowns, channels, writers, leaked, log := Idle, [], 0, 0, {}, [];
      new;
      if !outcome.BindFails? {
        rserv, channels, log := Some(0), 1, [Created(0)];
      }
      if outcome.BindFails? || (hasTarget && outcome.TargetFails?) {
        rtp_server, shutdowns := false, [Task(None, None, false)];
        log := log + [Released];
        if rserv.Some? {
          rserv, log := None, log + [Closed(0)];
        }
      } else if hasTarget && !outcome.WriterFails? {
        writer, writers, log := Some(0), 1, log + [Started(0)];
      }
    }

    /** `with self.state_lock` at the head of `update`. */
    method UpdateSection(newTarget: bool, protoChanged: bool, targetChanged: bool, ptimeChanged: bool)
      requires updater.Idle?
      modifies this
      ensures View() == BeginUpdate(old(View()), newTarget, protoChanged, targetChanged, ptimeChanged)
    {
      var old_writer, need_new_writer := None, false;
      rtp_target := newTarget;
      var channel := rserv;
      if !rtp_target {
        old_writer := writer;
        writer := None;
      } else if writer.None? {
        need_new_writer := true;
      } else if ptimeChanged || protoChanged {
        old_writer := writer;
        writer := None;
        need_new_writer := true;
      }
      updater := EndOld(old_writer, channel, protoChanged, targetChanged, need_new_writer);
    }

    /** Binding the new channel in `_swap_channel`, and setting its target. */
    method BindSection(outcome: Outcome)
      requires updater.Bind?
      modifies this
      ensures View() == AdvanceUpdate(old(View()), outcome)
    {
      var Bind(old_channel, needNew) := updater;
      updater := Idle;
      if outcome.BindFails? {
        return;
      }
      var new_channel := channels;
      channels, log := channels + 1, log + [Created(new_channel)];
      if rtp_target && outcome.TargetFails? {
        leaked := leaked + {new_channel};
        return;
      }
      updater := Swap(old_channel, new_channel, needNew);
    }

    /** `with self.state_lock` at the end of `_swap_channel`. */
    method SwapSection()
      requires updater.Swap?
      modifies this
      ensures View() == AdvanceUpdate(old(View()), Fine)
    {
      var needNew := updater.needNew;
      if !rtp_server || rserv != Some(updater.old_channel) {
        log := log + [Closed(updater.new_channel)];
        updater := MakeWriter(needNew);
      } else {
        rserv := Some(updater.new_channel);
        updater := CloseOld(updater.old_channel, needNew);
      }
    }

    /** `with self.state_lock` at the end of `update`. */
    method InstallSection()
      requires updater.Install?
      modifies this
      ensures View() == AdvanceUpdate(old(View()), Fine)
    {
      if rserv.None? || !rtp_target {
        log := log + [Ended(updater.new_writer)];
      } else {
        writer := Some(updater.new_writer);
      }
      updater := Idle;
    }

    /** `with self.state_lock` in `shutdown`. */
    method ShutdownSection()
      modifies this
      ensures View() == BeginShutdown(old(View()))
    {
      shutdowns := shutdowns + [Task(writer, rserv, rtp_server)];
      writer, rserv, rtp_server := None, None, false;
    }
  }
}

/** `sippy/Rtp/Singletons.py`: the server that all endpoints of a process share, and its reference count. */
module RtpSingletons {
  import opened Basics
  import opened RtpEndpoint

  /** `made` counts the servers ever created; a server is its number. */
  datatype Shared = Shared(singleton: Option<nat>, refcount: nat, made: nat)

  function Acquire(s: Shared): (Shared, nat) {
    var s1 := if s.singleton.None? then s.(singleton := Some(s.made), made := s.made + 1) else s;
    (s1.(refcount := s.refcount + 1), s1.singleton.value)
  }

  function Release(s: Shared, server: nat): Shared {
    if s.singleton != Some(server) then s
    else
      var n := if s.refcount > 0 then s.refcount - 1 else 0;
      s.(refcount := n, singleton := if n == 0 then None else s.singleton)
  }

  class Singletons {
    var rtp_server_singleton: Option<nat>
    var rtp_server_refcount: nat
    var made: nat

    function View(): Shared
      reads this
    {
      Shared(rtp_server_singleton, rtp_server_refcount, made)
    }

    constructor ()
      ensures View() == Shared(None, 0, 0)
    {
      rtp_server_singleton, rtp_server_refcount, made := None, 0, 0;
    }

    method AcquireRtpServer() returns (server: nat)
      modifies this
      ensures (View(), server) == Acquire(old(View()))
    {
      if rtp_server_singleton.None? {
        rtp_server_singleton := Some(made);
        made := made + 1;
      }
      rtp_server_refcount := rtp_server_refcount + 1;
      server := rtp_server_singleton.value;
    }

    method ReleaseRtpServer(server: nat)
      modifies this
      ensures View() == Release(old(View()), server)
    {
      if rtp_server_singleton.None? {
        return;
      }
      if server != rtp_server_singleton.value {
        return;
      }
      if rtp_server_refcount > 0 {
        rtp_server_refcount := rtp_server_refcount - 1;
      }
      if rtp_server_refcount == 0 {
        rtp_server_singleton := None;
      }
    }
  }

  // ----- All endpoints of a process -----

  /** `constructing` holds the servers of the endpoints whose constructors have not returned. */
  datatype Process = Process(shared: Shared, endpoints: seq<Endpoint>, servers: seq<nat>, constructing: seq<nat>)

  datatype Act =
    | BeginConstruct
    | FinishConstruct(c: nat, hasTarget: bool, outcome: Outcome)
    | Do(i: nat, a: Action)

  /** An endpoint's action, with the call of `release_rtp_server` when this is what it does. */
  function ProcessStep(p: Process, act: Act): Process
    requires |p.servers| == |p.endpoints|
  {
    match act
    case BeginConstruct =>
      var (shared, server) := Acquire(p.shared);
      p.(shared := shared, constructing := p.constructing + [server])
    case FinishConstruct(c, hasTarget, outcome) =>
      if c >= |p.constructing| then p
      else
        Process(if ConstructionFails(hasTarget, outcome) then Release(p.shared, p.constructing[c]) else p.shared,
                p.endpoints + [NewEndpoint(hasTarget, outcome)], p.servers + [p.constructing[c]],
                p.constructing[..c] + p.constructing[c + 1..])
    case Do(i, a) =>
      if i >= |p.endpoints| then p
      else
        var e' := Step(p.endpoints[i], a);
        p.(shared := if |e'.log| > |p.endpoints[i].log| && e'.log[|e'.log| - 1] == Released
                     then Release(p.shared, p.servers[i]) else p.shared,
           endpoints := p.endpoints[i := e'])
  }

  function Holders(endpoints: seq<Endpoint>): nat {
    if endpoints == [] then 0
    else Holders(endpoints[..|endpoints| - 1]) + One(!HasReleased(endpoints[|endpoints| - 1]))
  }

  lemma {:induction false} HoldersUpdate(endpoints: seq<Endpoint>, i: nat, e: Endpoint)
    requires i < |endpoints|
    ensures Holders(endpoints[i := e]) + One(!HasReleased(endpoints[i])) == Holders(endpoints) + One(!HasReleased(e))
    decreases |endpoints|
  {
    var n := |endpoints| - 1;
    if i < n {
      assert endpoints[i := e][..n] == endpoints[..n][i := e];
      HoldersUpdate(endpoints[..n], i, e);
    } else {
      assert endpoints[i := e][..n] == endpoints[..n];
    }
  }

  ghost predicate EndpointsOk(p: Process) {
    |p.servers| == |p.endpoints| && forall i :: 0 <= i < |p.endpoints| ==> RtpEndpoint.Inv(p.endpoints[i], 0)
  }

  /** Every endpoint that is being constructed or has not released its server holds the shared one. */
  ghost predicate SharedOk(p: Process) {
    && |p.servers| == |p.endpoints|
    && p.shared.refcount == Holders(p.endpoints) + |p.constructing|
    && (p.shared.singleton.Some? <==> p.shared.refcount > 0)
    && (forall c :: 0 <= c < |p.constructing| ==> p.shared.singleton == Some(p.constructing[c]))
    && (forall i :: 0 <= i < |p.endpoints| && !HasReleased(p.endpoints[i]) ==> p.shared.singleton == Some(p.servers[i]))
  }

  predicate ReleasesNow(e: Endpoint, a: Action) {
    var e' := Step(e, a);
    |e'.log| > |e.log| && e'.log[|e'.log| - 1] == Released
  }

  /** A step logs at most one event. */
  lemma StepLogs(e: Endpoint, a: Action)
    ensures var e' := Step(e, a);
            e'.log == e.log || (|e'.log| == |e.log| + 1 && e'.log[..|e.log|] == e.log)
  {
  }

  /** An endpoint that releases its server has not done so before. */
  lemma ReleasesOnce(e: Endpoint, a: Action)
    requires RtpEndpoint.Inv(e, 0)
    ensures RtpEndpoint.Inv(Step(e, a), 0)
    ensures ReleasesNow(e, a) <==> !HasReleased(e) && HasReleased(Step(e, a))
    ensures HasReleased(e) ==> HasReleased(Step(e, a))
  {
    StepInv(e, a, 0);
    StepLogs(e, a);
    AtMostOneRelease(e);
    AtMostOneRelease(Step(e, a));
    hide RtpEndpoint.Inv, RtpEndpoint.Step;
  }

  lemma AtMostOneRelease(e: Endpoint)
    requires RtpEndpoint.Inv(e, 0)
    ensures Count(e.log, Released) <= 1
  {
    hide Count, TaskServers, ChannelsOk, WritersOk;
  }

  lemma {:induction false} SomeHolder(endpoints: seq<Endpoint>, i: nat)
    requires i < |endpoints| && !HasReleased(endpoints[i])
    ensures Holders(endpoints) >= 1
    decreases |endpoints|
  {
    if i < |endpoints| - 1 {
      SomeHolder(endpoints[..|endpoints| - 1], i);
    }
  }

  lemma DoEndpoints(p: Process, i: nat, a: Action)
    requires EndpointsOk(p) && i < |p.endpoints|
    ensures EndpointsOk(ProcessStep(p, Do(i, a)))
  {
    StepInv(p.endpoints[i], a, 0);
    hide RtpEndpoint.Inv, RtpEndpoint.Step, Release;
  }

  /** Endpoint `i` becomes `e`, which has released its server now or at the same time as before. */
  lemma SharedAfter(p: Process, i: nat, e: Endpoint, released: bool)
    requires SharedOk(p) && i < |p.endpoints|
    requires released <==> !HasReleased(p.endpoints[i]) && HasReleased(e)
    requires HasReleased(p.endpoints[i]) ==> HasReleased(e)
    ensures SharedOk(p.(shared := if released then Release(p.shared, p.servers[i]) else p.shared,
                        endpoints := p.endpoints[i := e]))
  {
    HoldersUpdate(p.endpoints, i, e);
    hide HasReleased, Holders;
    var endpoints := p.endpoints[i := e];
    if released {
      SomeHolder(p.endpoints, i);
    }
    forall j | 0 <= j < |endpoints| && !HasReleased(endpoints[j]) ensures Holders(endpoints) >= 1 {
      SomeHolder(endpoints, j);
    }
  }

  lemma DoShared(p: Process, i: nat, a: Action)
    requires SharedOk(p) && i < |p.endpoints| && RtpEndpoint.Inv(p.endpoints[i], 0)
    ensures SharedOk(ProcessStep(p, Do(i, a)))
  {
    ReleasesOnce(p.endpoints[i], a);
    hide RtpEndpoint.Inv, RtpEndpoint.Step, HasReleased, Holders, SharedOk, Release;
    assert |p.servers| == |p.endpoints| by {
      SharedSizes(p);
    }
    SharedAfter(p, i, Step(p.endpoints[i], a), ReleasesNow(p.endpoints[i], a));
  }

  lemma SharedSizes(p: Process)
    requires SharedOk(p)
    ensures |p.servers| == |p.endpoints|
  {
  }

  lemma HoldersAppend(endpoints: seq<Endpoint>, e: Endpoint)
    ensures Holders(endpoints + [e]) == Holders(endpoints) + One(!HasReleased(e))
  {
    hide HasReleased;
    assert (endpoints + [e])[..|endpoints|] == endpoints;
  }

  lemma BeginShared(p: Process)
    requires SharedOk(p)
    ensures SharedOk(ProcessStep(p, BeginConstruct))
  {
    hide HasReleased, Holders;
    forall i | 0 <= i < |p.endpoints| && !HasReleased(p.endpoints[i]) ensures p.shared.singleton.Some? {
      SomeHolder(p.endpoints, i);
    }
  }

  lemma FinishShared(p: Process, c: nat, e: Endpoint)
    requires SharedOk(p) && c < |p.constructing|
    ensures SharedOk(Process(if HasReleased(e) then Release(p.shared, p.constructing[c]) else p.shared,
                             p.endpoints + [e], p.servers + [p.constructing[c]],
                             p.constructing[..c] + p.constructing[c + 1..]))
  {
    HoldersAppend(p.endpoints, e);
    hide HasReleased, Holders;
    forall i | 0 <= i < |p.endpoints| && !HasReleased(p.endpoints[i]) ensures Holders(p.endpoints) >= 1 {
      SomeHolder(p.endpoints, i);
    }
  }

  lemma AppendEndpoint(p: Process, p': Process, e: Endpoint, server: nat)
    requires EndpointsOk(p) && RtpEndpoint.Inv(e, 0)
    requires p'.endpoints == p.endpoints + [e] && p'.servers == p.servers + [server]
    ensures EndpointsOk(p')
  {
    hide RtpEndpoint.Inv;
  }

  ghost predicate ProcessInv(p: Process) {
    EndpointsOk(p) && SharedOk(p)
  }

  lemma ProcessStepInv(p: Process, act: Act)
    requires ProcessInv(p)
    ensures ProcessInv(ProcessStep(p, act))
  {
    hide RtpEndpoint.Inv, Step, HasReleased, Holders, NewEndpoint;
    match act
    case BeginConstruct => BeginShared(p);
    case FinishConstruct(c, hasTarget, outcome) =>
      if c < |p.constructing| {
        NewInv(hasTarget, outcome, 0);
        FinishShared(p, c, NewEndpoint(hasTarget, outcome));
        AppendEndpoint(p, ProcessStep(p, act), NewEndpoint(hasTarget, outcome), p.constructing[c]);
      }
    case Do(i, a) =>
      if i < |p.endpoints| {
        DoEndpoints(p, i, a);
        DoShared(p, i, a);
      }
  }

  function ProcessRun(p: Process, acts: seq<Act>): Process
    requires |p.servers| == |p.endpoints|
    decreases |acts|
  {
    if acts == [] then p else ProcessRun(ProcessStep(p, acts[0]), acts[1..])
  }

  lemma {:induction false} ProcessRunInv(p: Process, acts: seq<Act>)
    requires ProcessInv(p)
    ensures ProcessInv(ProcessRun(p, acts))
    decreases |acts|
  {
    if acts != [] {
      ProcessStepInv(p, acts[0]);
      ProcessRunInv(ProcessStep(p, acts[0]), acts[1..]);
    }
  }

  /** For any set of endpoints and any interleaving of their threads, with constructors that succeed or fail: the
      reference count is the number of endpoints that are being constructed or have not released the server, and the
      shared server exists exactly while there is one. */
  lemma CountIsNumberOfHolders(acts: seq<Act>)
    ensures var p := ProcessRun(Process(Shared(None, 0, 0), [], [], []), acts);
            && p.shared.refcount == Holders(p.endpoints) + |p.constructing|
            && (p.shared.singleton.Some? <==> Holders(p.endpoints) + |p.constructing| > 0)
            && |p.servers| == |p.endpoints|
            && (forall c :: 0 <= c < |p.constructing| ==> p.shared.singleton == Some(p.constructing[c]))
            && forall i :: 0 <= i < |p.endpoints| && !HasReleased(p.endpoints[i]) ==>
                             p.shared.singleton == Some(p.servers[i])
  {
    ProcessRunInv(Process(Shared(None, 0, 0), [], [], []), acts);
  }
}
