/** What one update, one shutdown and the construction of an RTP endpoint do when nothing races with them: which
    writer sends, which channel is bound, and in what order the old ones are given back (`sippy/Rtp/EPoint.py`). */
module RtpUpdates {
  import opened Basics
  import opened RtpEndpoint

  /** The updating thread runs alone; a call that can end in `outcome` does. */
  predicate Alone(steps: seq<Action>, outcome: Outcome) {
    forall i :: 0 <= i < |steps| ==> steps[i] == UpdaterStep(outcome)
  }

  lemma Advance(e: Endpoint, steps: seq<Action>, outcome: Outcome)
    requires Alone(steps, outcome) && steps != []
    ensures Run(e, steps) == Run(AdvanceUpdate(e, outcome), steps[1..]) && Alone(steps[1..], outcome)
  {
    assert steps[0] == UpdaterStep(outcome);
    hide AdvanceUpdate;
  }

  lemma {:induction false} IdleStays(e: Endpoint, steps: seq<Action>, outcome: Outcome)
    requires Alone(steps, outcome) && e.pc.Idle?
    ensures Run(e, steps) == e
    decreases |steps|
  {
    if steps != [] {
      Advance(e, steps, outcome);
      IdleStays(e, steps[1..], outcome);
    }
  }

  function Lone(b: bool, x: Event): seq<Event> {
    if b then [x] else []
  }

  lemma AppendLone(log: seq<Event>, x: Event)
    ensures log + Lone(true, x) == log + [x] && log + Lone(false, x) == log
  {
  }

  /** From the making of the writer on. */
  lemma WriterPart(e: Endpoint, needNew: bool, steps: seq<Action>, outcome: Outcome)
    requires Alone(steps, outcome) && |steps| >= 2 && e.pc == MakeWriter(needNew)
    requires e.rserv.Some? && (needNew ==> e.hasTarget)
    ensures var made := needNew && !outcome.WriterFails?;
            var e' := Run(e, steps);
            && e' == e.(pc := Idle, writer := if made then Some(e.writers) else e.writer,
                        writers := e'.writers, log := e.log + Lone(made, Started(e.writers)))
            && e'.writers >= e.writers
  {
    Advance(e, steps, outcome);
    var e1 := AdvanceUpdate(e, outcome);
    AppendLone(e.log, Started(e.writers));
    if e1.pc.Idle? {
      IdleStays(e1, steps[1..], outcome);
    } else {
      Advance(e1, steps[1..], outcome);
      IdleStays(AdvanceUpdate(e1, outcome), steps[1..][1..], outcome);
    }
    hide Run, Alone;
  }

  /** Which calls raise: nothing of the update is done after them. */
  predicate Raises(newTarget: bool, proto: bool, retarget: bool, outcome: Outcome) {
    (proto && outcome.BindFails?) || (newTarget && (proto || retarget) && outcome.TargetFails?)
  }

  /** What the exchange of the channel or of its target leaves. */
  ghost predicate Exchanged(e: Endpoint, e': Endpoint, proto: bool, retarget: bool, needNew: bool, outcome: Outcome)
    requires e.rserv.Some?
  {
    var raised := Raises(e.hasTarget, proto, retarget, outcome);
    && e'.rserv == Some(if proto && !raised then e.channels else e.rserv.value)
    && e'.writer == e.writer && e'.writers == e.writers && e'.hasTarget == e.hasTarget && e'.tasks == e.tasks
    && e'.server && e'.pc == (if raised then Idle else MakeWriter(needNew))
    && e'.log == e.log + Lone(proto && !outcome.BindFails?, Created(e.channels))
                 + Lone(proto && !raised, Closed(e.rserv.value))
  }

  lemma ChannelPart(e: Endpoint, proto: bool, retarget: bool, needNew: bool, steps: seq<Action>, outcome: Outcome)
    returns (e': Endpoint, rest: seq<Action>)
    requires Alone(steps, outcome) && |steps| >= 6
    requires e.rserv.Some? && e.server && e.pc == CheckSwap(e.rserv, proto, retarget, needNew)
    ensures Exchanged(e, e', proto, retarget, needNew, outcome)
    ensures Run(e, steps) == Run(e', rest) && Alone(rest, outcome) && |rest| >= 2
  {
    Advance(e, steps, outcome);
    e', rest := AdvanceUpdate(e, outcome), steps[1..];
    AppendLone(e.log, Created(e.channels));
    AppendLone(e.log, Closed(e.rserv.value));
    if proto {
      Advance(e', rest, outcome);
      e', rest := AdvanceUpdate(e', outcome), rest[1..];
      AppendLone(e.log + [Created(e.channels)], Closed(e.rserv.value));
      if e'.pc.Swap? {
        Advance(e', rest, outcome);
        e', rest := AdvanceUpdate(e', outcome), rest[1..];
        Advance(e', rest, outcome);
        e', rest := AdvanceUpdate(e', outcome), rest[1..];
      }
    }
    hide Run, Alone;
  }

  /** A state between two updates in which nobody has called `shutdown`. */
  predicate Undisturbed(e: Endpoint) {
    e.pc.Idle? && e.tasks == []
  }

  lemma ReachesUndisturbed(hasTarget: bool, outcome: Outcome, before: seq<Action>)
    ensures var e := Run(NewEndpoint(hasTarget, outcome), before);
            && (Undisturbed(e) ==> e.rserv.Some? && e.server)
            && Count(e.log, Created(e.channels)) == 0 && Count(e.log, Started(e.writers)) == 0
  {
    var e := Run(NewEndpoint(hasTarget, outcome), before);
    NewInv(hasTarget, outcome, e.channels);
    NewInv(hasTarget, outcome, e.writers);
    RunInv(NewEndpoint(hasTarget, outcome), before, e.channels);
    RunInv(NewEndpoint(hasTarget, outcome), before, e.writers);
    hide Run, Count, HeldChannels, HeldWriters, TaskServers, NewEndpoint;
  }

  /** The endpoint that an update leaves, seen from the one that it found. */
  ghost predicate Updated(e: Endpoint, e': Endpoint, newTarget: bool, proto: bool, retarget: bool, ptime: bool,
                          outcome: Outcome)
    requires e.rserv.Some?
  {
    var raised := Raises(newTarget, proto, retarget, outcome);
    var ends := e.writer.Some? && (!newTarget || ptime || proto);
    var starts := newTarget && (e.writer.None? || ptime || proto) && !raised && !outcome.WriterFails?;
    && Undisturbed(e') && e'.server && e'.hasTarget == newTarget
    && e'.rserv == Some(if proto && !raised then e.channels else e.rserv.value)
    && e'.writer == (if starts then Some(e.writers) else if ends then None else e.writer)
    && e'.log == e.log + (if ends then [Ended(e.writer.value)] else [])
                 + Lone(proto && !outcome.BindFails?, Created(e.channels))
                 + Lone(proto && !raised, Closed(e.rserv.value)) + Lone(starts, Started(e.writers))
  }

  /** After the first section and the end of the old writer. */
  lemma FirstPart(e: Endpoint, newTarget: bool, proto: bool, retarget: bool, ptime: bool, steps: seq<Action>,
                  outcome: Outcome)
    requires Undisturbed(e) && e.rserv.Some? && Alone(steps, outcome) && |steps| >= 7
    ensures var ends := e.writer.Some? && (!newTarget || ptime || proto);
            var needNew := newTarget && (e.writer.None? || ptime || proto);
            var e1 := e.(hasTarget := newTarget, writer := if ends then None else e.writer,
                         pc := CheckSwap(e.rserv, proto, retarget, needNew),
                         log := e.log + if ends then [Ended(e.writer.value)] else []);
            && Run(e, [Update(newTarget, proto, retarget, ptime)] + steps) == Run(e1, steps[1..])
            && Alone(steps[1..], outcome)
  {
    var u := Update(newTarget, proto, retarget, ptime);
    assert ([u] + steps)[1..] == steps;
    assert Run(e, [u] + steps) == Run(Step(e, u), steps);
    Advance(Step(e, u), steps, outcome);
    assert e.log + [] == e.log;
    hide Run, Alone;
  }

  /** In every reachable state without a shutdown, an update that runs alone comes to its end. The endpoint then has a
      writer exactly when it has a target, unless a call raised. The writer is a new one exactly when there was none
      or the packet time or the transport has changed, and the channel is a new one exactly when the transport has;
      what is replaced is given back, and every event of the update is the next in the log. */
  lemma UpdateDelivers(hasTarget: bool, made: Outcome, before: seq<Action>, newTarget: bool, proto: bool,
                       retarget: bool, ptime: bool, steps: seq<Action>, outcome: Outcome)
    requires Undisturbed(Run(NewEndpoint(hasTarget, made), before)) && Alone(steps, outcome) && |steps| >= 7
    ensures var e := Run(NewEndpoint(hasTarget, made), before);
            var e' := Run(e, [Update(newTarget, proto, retarget, ptime)] + steps);
            && e.rserv.Some? && Updated(e, e', newTarget, proto, retarget, ptime, outcome)
            && Count(e.log, Created(e.channels)) == 0 && Count(e.log, Started(e.writers)) == 0
            && (outcome.Fine? ==> (e'.writer.Some? <==> newTarget))
  {
    ReachesUndisturbed(hasTarget, made, before);
    var e := Run(NewEndpoint(hasTarget, made), before);
    hide Run, NewEndpoint, Count, Updated;
    UpdateAlone(e, newTarget, proto, retarget, ptime, steps, outcome);
    UpdatedWriter(e, Run(e, [Update(newTarget, proto, retarget, ptime)] + steps), newTarget, proto, retarget, ptime,
                  outcome);
  }

  lemma UpdatedWriter(e: Endpoint, e': Endpoint, newTarget: bool, proto: bool, retarget: bool, ptime: bool,
                      outcome: Outcome)
    requires e.rserv.Some? && Updated(e, e', newTarget, proto, retarget, ptime, outcome)
    ensures outcome.Fine? ==> (e'.writer.Some? <==> newTarget)
  {
  }

  lemma UpdateAlone(e: Endpoint, newTarget: bool, proto: bool, retarget: bool, ptime: bool, steps: seq<Action>,
                    outcome: Outcome)
    requires Undisturbed(e) && e.rserv.Some? && e.server && Alone(steps, outcome) && |steps| >= 7
    ensures Updated(e, Run(e, [Update(newTarget, proto, retarget, ptime)] + steps), newTarget, proto, retarget, ptime,
                    outcome)
  {
    hide Run, Alone;
    FirstPart(e, newTarget, proto, retarget, ptime, steps, outcome);
    var ends := e.writer.Some? && (!newTarget || ptime || proto);
    var needNew := newTarget && (e.writer.None? || ptime || proto);
    var e1 := e.(hasTarget := newTarget, writer := if ends then None else e.writer,
                 pc := CheckSwap(e.rserv, proto, retarget, needNew),
                 log := e.log + if ends then [Ended(e.writer.value)] else []);
    var e2, rest := ChannelPart(e1, proto, retarget, needNew, steps[1..], outcome);
    hide Exchanged;
    ExchangedTarget(e1, e2, proto, retarget, needNew, outcome);
    LastPart(e2, needNew, rest, outcome);
    hide Lone, AdvanceUpdate, Updated, Raises;
    Together(e, e1, e2, Run(e2, rest), newTarget, proto, retarget, ptime, outcome);
  }

  lemma ExchangedTarget(e: Endpoint, e': Endpoint, proto: bool, retarget: bool, needNew: bool, outcome: Outcome)
    requires e.rserv.Some? && Exchanged(e, e', proto, retarget, needNew, outcome)
    ensures e'.rserv.Some? && e'.hasTarget == e.hasTarget && (e'.pc.Idle? || e'.pc == MakeWriter(needNew))
  {
  }

  lemma Together(e: Endpoint, e1: Endpoint, e2: Endpoint, e': Endpoint, newTarget: bool, proto: bool, retarget: bool,
                 ptime: bool, outcome: Outcome)
    requires Undisturbed(e) && e.rserv.Some? && e.server
    requires var ends := e.writer.Some? && (!newTarget || ptime || proto);
             e1 == e.(hasTarget := newTarget, writer := if ends then None else e.writer, pc := e1.pc,
                      log := e.log + if ends then [Ended(e.writer.value)] else [])
    requires var needNew := newTarget && (e.writer.None? || ptime || proto);
             && Exchanged(e1, e2, proto, retarget, needNew, outcome)
             && var made := e2.pc.MakeWriter? && needNew && !outcome.WriterFails?;
                e' == e2.(pc := Idle, writer := if made then Some(e2.writers) else e2.writer,
                          writers := e'.writers, log := e2.log + Lone(made, Started(e2.writers)))
    ensures Updated(e, e', newTarget, proto, retarget, ptime, outcome)
  {
    hide Lone;
  }

  /** Unless a call has raised before it. */
  lemma LastPart(e: Endpoint, needNew: bool, steps: seq<Action>, outcome: Outcome)
    requires Alone(steps, outcome) && |steps| >= 2 && (e.pc.Idle? || e.pc == MakeWriter(needNew))
    requires e.rserv.Some? && (needNew ==> e.hasTarget)
    ensures var made := e.pc.MakeWriter? && needNew && !outcome.WriterFails?;
            var e' := Run(e, steps);
            e' == e.(pc := Idle, writer := if made then Some(e.writers) else e.writer,
                     writers := e'.writers, log := e.log + Lone(made, Started(e.writers)))
  {
    if e.pc.Idle? {
      IdleStays(e, steps, outcome);
      AppendLone(e.log, Started(e.writers));
    } else {
      WriterPart(e, needNew, steps, outcome);
    }
    hide Run, Alone;
  }

  /** A constructed endpoint has its channel bound, and a writer exactly when it has a target. */
  lemma ConstructionDelivers(hasTarget: bool)
    ensures var e := NewEndpoint(hasTarget, Fine);
            && Undisturbed(e) && e.server && e.hasTarget == hasTarget && e.rserv == Some(0)
            && e.writer == (if hasTarget then Some(0) else None)
            && e.log == [Created(0)] + Lone(hasTarget, Started(0))
  {
    AppendLone([Created(0)], Started(0));
    assert [Created(0)] + [Started(0)] == [Created(0), Started(0)];
  }

  // ----- A shutdown -----

  predicate Stopping(steps: seq<Action>, i: nat) {
    forall k :: 0 <= k < |steps| ==> steps[k] == ShutdownStep(i)
  }

  lemma StopStep(e: Endpoint, steps: seq<Action>, i: nat)
    requires Stopping(steps, i) && steps != []
    ensures Run(e, steps) == Run(AdvanceShutdown(e, i), steps[1..]) && Stopping(steps[1..], i)
  {
    assert steps[0] == ShutdownStep(i);
    hide AdvanceShutdown;
  }

  /** A call that has given everything back changes nothing more. */
  lemma {:induction false} StoppedStays(e: Endpoint, steps: seq<Action>, i: nat)
    requires Stopping(steps, i) && i < |e.tasks| && e.tasks[i] == Task(None, None, false)
    ensures Run(e, steps) == e
    decreases |steps|
  {
    if steps != [] {
      StopStep(e, steps, i);
      StoppedStays(e, steps[1..], i);
    }
  }

  function TaskEvents(t: Task): seq<Event> {
    (if t.writer.Some? then [Ended(t.writer.value)] else [])
    + (if t.channel.Some? then [Closed(t.channel.value)] else []) + Lone(t.server, Released)
  }

  /** How many things are still to be given back. */
  function ToDo(t: Task): nat {
    One(t.writer.Some?) + One(t.channel.Some?) + One(t.server)
  }

  lemma {:induction false} TaskEnds(e: Endpoint, steps: seq<Action>, i: nat)
    requires Stopping(steps, i) && i < |e.tasks| && |steps| >= ToDo(e.tasks[i])
    ensures Run(e, steps) == e.(tasks := e.tasks[i := Task(None, None, false)], log := e.log + TaskEvents(e.tasks[i]))
    decreases ToDo(e.tasks[i])
  {
    var t := e.tasks[i];
    if ToDo(t) == 0 {
      assert TaskEvents(t) == [] && e.log + [] == e.log && e.tasks[i := t] == e.tasks;
      StoppedStays(e, steps, i);
    } else {
      StopStep(e, steps, i);
      var e1 := AdvanceShutdown(e, i);
      assert e1.tasks[i := Task(None, None, false)] == e.tasks[i := Task(None, None, false)];
      assert e1.log + TaskEvents(e1.tasks[i]) == e.log + TaskEvents(t);
      TaskEnds(e1, steps[1..], i);
    }
  }

  /** From any state at all, a shutdown whose thread then runs on ends the writer, closes the channel and releases the
      server, in this order and each where there is one, and leaves the endpoint with none of them. */
  lemma ShutdownDelivers(e: Endpoint, steps: seq<Action>)
    requires Stopping(steps, |e.tasks|) && |steps| >= 3
    ensures var e' := Run(e, [Shutdown] + steps);
            && e'.writer.None? && e'.rserv.None? && !e'.server && e'.pc == e.pc
            && e'.tasks == e.tasks + [Task(None, None, false)]
            && e'.log == e.log + (if e.writer.Some? then [Ended(e.writer.value)] else [])
                         + (if e.rserv.Some? then [Closed(e.rserv.value)] else []) + Lone(e.server, Released)
  {
    assert ([Shutdown] + steps)[1..] == steps;
    var e1 := BeginShutdown(e);
    assert Run(e, [Shutdown] + steps) == Run(e1, steps);
    var t := e1.tasks[|e.tasks|];
    TaskEnds(e1, steps, |e.tasks|);
    hide Run, Stopping;
    assert e.log + TaskEvents(t)
           == e.log + (if e.writer.Some? then [Ended(e.writer.value)] else [])
              + (if e.rserv.Some? then [Closed(e.rserv.value)] else []) + Lone(e.server, Released);
    assert e1.tasks[|e.tasks| := Task(None, None, false)] == e.tasks + [Task(None, None, false)];
  }
}
