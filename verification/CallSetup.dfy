/** Call set-up on the calling side (`sippy/UacStateIdle.py`, `UacStateTrying.py`, `UacStateRinging.py`,
    `UacStateCancelling.py`, `UA.py`): one timer at a time stands in for three deadlines. SDP callbacks are absent. */
module CallSetup {
  import opened Basics

  datatype Phase = Idle | Trying | Ringing | Connected | Failed | Cancelling | Disconnected | Dead

  /** What the leg tells the other side of the call. */
  datatype Report = Ring(code: int) | Connect | Fail(code: int) | TimedOut(due: real)

  /** The timer fields of `UA`; a timer is the time at which it is due. */
  datatype Leg = Leg(
    phase: Phase,
    expireTime: Option<real>, noProgressTime: Option<real>, noReplyTime: Option<real>,
    expireAt: real, noProgressAt: real,
    expireTimer: Option<real>, noProgressTimer: Option<real>, noReplyTimer: Option<real>)

  datatype Input =
    | Try(rtime: real)
    | Response(code: int, tagged: bool, challenged: bool)
    | Abandon
    | Tick(now: real)

  predicate ValidInput(i: Input) {
    i.Response? ==> 100 <= i.code <= 999
  }

  function NewLeg(expireTime: Option<real>, noProgressTime: Option<real>, noReplyTime: Option<real>): Leg {
    Leg(Idle, expireTime, noProgressTime, noReplyTime, 0.0, 0.0, None, None, None)
  }

  predicate AtLeast(a: Option<real>, b: Option<real>) {
    a.Some? && b.Some? && a.value >= b.value
  }

  /** `UacStateIdle.recvEvent` on a CCEventTry: a deadline that cannot come first is dropped, and the first is armed. */
  function OnTry(l: Leg, rtime: real): Leg {
    var np := if AtLeast(l.noProgressTime, l.expireTime) then None else l.noProgressTime;
    var nr := if l.noReplyTime.Some? && l.noReplyTime.value < 32.0
                 && !AtLeast(l.noReplyTime, l.expireTime) && !AtLeast(l.noReplyTime, np) then l.noReplyTime else None;
    var at := l.(phase := Trying, noProgressTime := np, noReplyTime := nr,
                 expireAt := if l.expireTime.Some? then rtime + l.expireTime.value else l.expireAt,
                 noProgressAt := if l.noProgressTime.Some? then rtime + l.noProgressTime.value else l.noProgressAt);
    if nr.Some? then at.(noReplyTimer := Some(rtime + nr.value))
    else if np.Some? then at.(noProgressTimer := Some(at.noProgressAt))
    else if l.expireTime.Some? then at.(expireTimer := Some(at.expireAt))
    else at
  }

  function Disarmed(l: Leg): Leg {
    l.(expireTimer := None, noProgressTimer := None, noReplyTimer := None)
  }

  /** The timer hand-over at the head of `UacStateTrying._recvResponse`. */
  function AfterReply(l: Leg, code: int): Leg {
    if l.noReplyTimer.None? then l
    else
      var l1 := l.(noReplyTimer := None);
      if code == 100 && l.noProgressTime.Some? then l1.(noProgressTimer := Some(l.noProgressAt))
      else if code < 200 && l.expireTime.Some? then l1.(expireTimer := Some(l.expireAt))
      else l1
  }

  function AfterProgress(l: Leg, code: int): Leg {
    if l.noProgressTimer.None? then l
    else
      var l1 := l.(noProgressTimer := None);
      if code < 200 && l.expireTime.Some? then l1.(expireTimer := Some(l.expireAt)) else l1
  }

  function FinalPhase(code: int, tagged: bool): Phase {
    if code < 300 && tagged then Connected else Failed
  }

  function FinalReport(code: int, tagged: bool): Report {
    if code < 300 then (if tagged then Connect else Fail(502)) else Fail(code)
  }

  /** `recvResponse` of the current state; a 401 or 407 that `processChallenge` answers does not reach it. */
  function OnResponse(l: Leg, code: int, tagged: bool, challenged: bool): (Leg, seq<Report>) {
    if challenged && (code == 401 || code == 407) then (l, [])
    else
      match l.phase
      case Trying =>
        var l1 := AfterReply(l, code);
        if code == 100 then (l1, [Ring(code)])
        else
          var l2 := AfterProgress(l1, code);
          if code < 200 then (l2.(phase := Ringing), [Ring(code)])
          else (l2.(expireTimer := None, phase := FinalPhase(code, tagged)), [FinalReport(code, tagged)])
      case Ringing =>
        if code < 200 then (l, [Ring(code)])
        else (l.(expireTimer := None, phase := FinalPhase(code, tagged)), [FinalReport(code, tagged)])
      case Cancelling =>
        if code < 200 then (l, []) else (l.(phase := if code < 300 then Disconnected else Dead), [])
      case _ => (l, [])
  }

  /** `recvEvent` when the other side gives up. */
  function OnAbandon(l: Leg): Leg {
    match l.phase
    case Idle => l.(phase := Dead)
    case Trying => Disarmed(l).(phase := Cancelling)
    case Ringing => l.(expireTimer := None, phase := Cancelling)
    case _ => l
  }

  predicate Due(timer: Option<real>, now: real) {
    timer.Some? && timer.value <= now
  }

  /** `no_reply_expires`, `no_progress_expires` or `expires`: the timer field is cleared and the leg disconnects. */
  function OnTick(l: Leg, now: real): (Leg, seq<Report>) {
    if Due(l.noReplyTimer, now) then (OnAbandon(l.(noReplyTimer := None)), [TimedOut(l.noReplyTimer.value)])
    else if Due(l.noProgressTimer, now) then
      (OnAbandon(l.(noProgressTimer := None)), [TimedOut(l.noProgressTimer.value)])
    else if Due(l.expireTimer, now) then (OnAbandon(l.(expireTimer := None)), [TimedOut(l.expireTimer.value)])
    else (l, [])
  }

  function Step(l: Leg, i: Input): (Leg, seq<Report>) {
    match i
    case Try(rtime) => (if l.phase == Idle then OnTry(l, rtime) else l, [])
    case Response(code, tagged, challenged) => OnResponse(l, code, tagged, challenged)
    case Abandon => (OnAbandon(l), [])
    case Tick(now) => OnTick(l, now)
  }

  // ----- The reference: three independent deadlines -----

  datatype Deadlines = Deadlines(noReply: Option<real>, noProgress: Option<real>, expiry: Option<real>)

  datatype Reference = Reference(phase: Phase, limits: Deadlines, running: Deadlines)

  function Earlier(a: Option<real>, b: Option<real>): Option<real> {
    if a.None? then b else if b.None? then a else if a.value <= b.value then a else b
  }

  function First(d: Deadlines): Option<real> {
    Earlier(d.noReply, Earlier(d.noProgress, d.expiry))
  }

  const UNLIMITED := Deadlines(None, None, None)

  function From(rtime: real, limit: Option<real>): Option<real> {
    if limit.Some? then Some(rtime + limit.value) else None
  }

  /** Any response ends the wait for a reply, any but 100 the wait for progress, a final one the wait for an answer. */
  function Relax(d: Deadlines, code: int): Deadlines {
    if code >= 200 then UNLIMITED
    else Deadlines(None, if code == 100 then d.noProgress else None, d.expiry)
  }

  predicate SettingUp(p: Phase) {
    p == Trying || p == Ringing
  }

  function RefStep(r: Reference, i: Input): (Reference, seq<Report>) {
    match i
    case Try(rtime) =>
      if r.phase != Idle then (r, [])
      else
        var nr := if r.limits.noReply.Some? && r.limits.noReply.value >= 32.0 then None else r.limits.noReply;
        (r.(phase := Trying,
            running := Deadlines(From(rtime, nr), From(rtime, r.limits.noProgress), From(rtime, r.limits.expiry))), [])
    case Response(code, tagged, challenged) =>
      if challenged && (code == 401 || code == 407) then (r, [])
      else if SettingUp(r.phase) then
        if code >= 300 then (r.(phase := Failed, running := UNLIMITED), [Fail(code)])
        else if code >= 200 && tagged then (r.(phase := Connected, running := UNLIMITED), [Connect])
        else if code >= 200 then (r.(phase := Failed, running := UNLIMITED), [Fail(502)])
        else (r.(phase := if code == 100 then r.phase else Ringing, running := Relax(r.running, code)), [Ring(code)])
      else if r.phase == Cancelling && code >= 200 then (r.(phase := if code < 300 then Disconnected else Dead), [])
      else (r, [])
    case Abandon =>
      if r.phase == Idle then (r.(phase := Dead), [])
      else if SettingUp(r.phase) then (r.(phase := Cancelling, running := UNLIMITED), [])
      else (r, [])
    case Tick(now) =>
      if SettingUp(r.phase) && First(r.running).Some? && First(r.running).value <= now then
        (r.(phase := Cancelling, running := UNLIMITED), [TimedOut(First(r.running).value)])
      else (r, [])
  }

  // ----- The refinement -----

  function Armed(l: Leg): nat {
    (if l.noReplyTimer.Some? then 1 else 0) + (if l.noProgressTimer.Some? then 1 else 0)
    + (if l.expireTimer.Some? then 1 else 0)
  }

  /** What the chain of timers knows of the deadlines it has not armed. */
  ghost predicate Remembers(l: Leg, d: Deadlines) {
    && d.expiry == (if l.expireTime.Some? then Some(l.expireAt) else None)
    && (l.noProgressTimer.Some? || l.noReplyTimer.Some? ==>
          if l.noProgressTime.Some? then
            d.noProgress == Some(l.noProgressAt) && Earlier(d.noProgress, d.expiry) == d.noProgress
          else Earlier(d.noProgress, d.expiry) == d.expiry)
    && (l.noProgressTimer.Some? ==> l.noProgressTime.Some? && l.noProgressTimer == d.noProgress)
    && (l.noReplyTimer.None? && l.noProgressTimer.None? ==>
          l.expireTimer == d.expiry && Earlier(d.noProgress, d.expiry) == d.expiry)
  }

  ghost predicate Refines(l: Leg, r: Reference) {
    && l.phase == r.phase
    && Armed(l) <= 1
    && match l.phase
       case Idle =>
         Armed(l) == 0 && r.limits == Deadlines(l.noReplyTime, l.noProgressTime, l.expireTime)
       case Trying =>
         && First(r.running) == Earlier(l.noReplyTimer, Earlier(l.noProgressTimer, l.expireTimer))
         && Remembers(l, r.running)
       case Ringing =>
         && l.noReplyTimer.None? && l.noProgressTimer.None?
         && r.running == Deadlines(None, None, l.expireTimer)
       case _ => Armed(l) == 0
  }

  lemma TryRefines(l: Leg, r: Reference, rtime: real)
    requires Refines(l, r)
    ensures Refines(Step(l, Try(rtime)).0, RefStep(r, Try(rtime)).0)
  {
  }

  lemma ResponseRefines(l: Leg, r: Reference, i: Input)
    requires Refines(l, r) && i.Response? && ValidInput(i)
    ensures Refines(Step(l, i).0, RefStep(r, i).0) && Step(l, i).1 == RefStep(r, i).1
  {
  }

  /** The leg times out when, and only when, the first of the three running deadlines has passed. */
  lemma TickRefines(l: Leg, r: Reference, now: real)
    requires Refines(l, r)
    ensures Refines(Step(l, Tick(now)).0, RefStep(r, Tick(now)).0) && Step(l, Tick(now)).1 == RefStep(r, Tick(now)).1
  {
  }

  function Reports(l: Leg, inputs: seq<Input>): seq<seq<Report>>
    decreases |inputs|
  {
    if inputs == [] then [] else [Step(l, inputs[0]).1] + Reports(Step(l, inputs[0]).0, inputs[1..])
  }

  function RefReports(r: Reference, inputs: seq<Input>): seq<seq<Report>>
    decreases |inputs|
  {
    if inputs == [] then [] else [RefStep(r, inputs[0]).1] + RefReports(RefStep(r, inputs[0]).0, inputs[1..])
  }

  function After(l: Leg, inputs: seq<Input>): Leg
    decreases |inputs|
  {
    if inputs == [] then l else After(Step(l, inputs[0]).0, inputs[1..])
  }

  lemma {:induction false} RunRefines(l: Leg, r: Reference, inputs: seq<Input>)
    requires Refines(l, r) && forall i :: i in inputs ==> ValidInput(i)
    ensures Reports(l, inputs) == RefReports(r, inputs)
    ensures Armed(After(l, inputs)) <= 1
    ensures !SettingUp(After(l, inputs).phase) ==> Armed(After(l, inputs)) == 0
    decreases |inputs|
  {
    if inputs != [] {
      var i := inputs[0];
      match i {
        case Try(rtime) => TryRefines(l, r, rtime);
        case Response(_, _, _) => ResponseRefines(l, r, i);
        case Abandon =>
        case Tick(now) => TickRefines(l, r, now);
      }
      RunRefines(Step(l, i).0, RefStep(r, i).0, inputs[1..]);
    }
  }

  /** For every sequence of responses, abandonments and clock ticks: the chained timer reports exactly what three
      independent deadlines would, time-outs and their due times included; at most one timer is ever armed, and
      none outside Trying and Ringing. */
  lemma ChainRefinesDeadlines(expire: Option<real>, noProgress: Option<real>, noReply: Option<real>, inputs: seq<Input>)
    requires forall i :: i in inputs ==> ValidInput(i)
    ensures var l := NewLeg(expire, noProgress, noReply);
            && Reports(l, inputs)
               == RefReports(Reference(Idle, Deadlines(noReply, noProgress, expire), UNLIMITED), inputs)
            && Armed(After(l, inputs)) <= 1
            && (!SettingUp(After(l, inputs).phase) ==> Armed(After(l, inputs)) == 0)
  {
    RunRefines(NewLeg(expire, noProgress, noReply),
               Reference(Idle, Deadlines(noReply, noProgress, expire), UNLIMITED), inputs);
  }

  // ----- What is told, and when -----

  /** What the input `i` makes of the phase, and what the other side is told. */
  predicate Tells(before: Phase, i: Input, after: Phase, told: seq<Report>) {
    match i
    case Try(_) => told == [] && after == if before == Idle then Trying else before
    case Abandon =>
      told == [] && after == if before == Idle then Dead else if SettingUp(before) then Cancelling else before
    case Tick(now) =>
      || (told == [] && after == before)
      || (|told| == 1 && told[0].TimedOut? && told[0].due <= now && SettingUp(before) && after == Cancelling)
    case Response(code, tagged, challenged) =>
      if challenged && (code == 401 || code == 407) then told == [] && after == before
      else if SettingUp(before) then
        if code == 100 then told == [Ring(100)] && after == before
        else if code < 200 then told == [Ring(code)] && after == Ringing
        else if code >= 300 then told == [Fail(code)] && after == Failed
        else if tagged then told == [Connect] && after == Connected
        else told == [Fail(502)] && after == Failed
      else
        told == [] && after == if before == Cancelling && code >= 200 then (if code < 300 then Disconnected else Dead)
                               else before
  }

  /** Every final code while the call is set up decides it: 2xx with a tag connects, 2xx without one fails as 502, any
      other fails with its own code. A provisional one rings. After giving up nothing is told any more, and the leg
      waits for the final code. */
  lemma FinalCodeDecides(expire: Option<real>, noProgress: Option<real>, noReply: Option<real>, inputs: seq<Input>,
                         i: Input)
    requires (forall i :: i in inputs ==> ValidInput(i)) && ValidInput(i)
    ensures var l := After(NewLeg(expire, noProgress, noReply), inputs);
            Tells(l.phase, i, Step(l, i).0.phase, Step(l, i).1)
  {
    var r0 := Reference(Idle, Deadlines(noReply, noProgress, expire), UNLIMITED);
    AfterRefines(NewLeg(expire, noProgress, noReply), r0, inputs);
    var l := After(NewLeg(expire, noProgress, noReply), inputs);
    if i.Tick? {
      TickRefines(l, RefAfter(r0, inputs), i.now);
    }
  }

  function RefAfter(r: Reference, inputs: seq<Input>): Reference
    decreases |inputs|
  {
    if inputs == [] then r else RefAfter(RefStep(r, inputs[0]).0, inputs[1..])
  }

  lemma {:induction false} AfterRefines(l: Leg, r: Reference, inputs: seq<Input>)
    requires Refines(l, r) && forall i :: i in inputs ==> ValidInput(i)
    ensures Refines(After(l, inputs), RefAfter(r, inputs))
    decreases |inputs|
  {
    if inputs != [] {
      var i := inputs[0];
      match i {
        case Try(rtime) => TryRefines(l, r, rtime);
        case Response(_, _, _) => ResponseRefines(l, r, i);
        case Abandon =>
        case Tick(now) => TickRefines(l, r, now);
      }
      AfterRefines(Step(l, i).0, RefStep(r, i).0, inputs[1..]);
    }
  }

  /** Only 100 Trying, or other provisional responses as well. */
  predicate AllTrying(inputs: seq<Input>) {
    forall k :: 0 <= k < |inputs| ==> inputs[k].Response? && inputs[k].code == 100
  }

  predicate AllProvisional(inputs: seq<Input>) {
    forall k :: 0 <= k < |inputs| ==> inputs[k].Response? && 100 <= inputs[k].code < 200
  }

  /** `due` ends one of the waits that still go on when `inputs` have come since `rtime`: for any response, if none has
      and the wait is less than 32 seconds; for progress, if there was nothing but 100; for an answer. */
  predicate Awaited(expire: Option<real>, noProgress: Option<real>, noReply: Option<real>, rtime: real,
                    inputs: seq<Input>, due: real)
  {
    || (noReply.Some? && noReply.value < 32.0 && inputs == [] && due == rtime + noReply.value)
    || (noProgress.Some? && AllTrying(inputs) && due == rtime + noProgress.value)
    || (expire.Some? && due == rtime + expire.value)
  }

  lemma {:induction false} ProvisionalDeadlines(r: Reference, inputs: seq<Input>)
    requires SettingUp(r.phase) && AllProvisional(inputs)
    ensures var r' := RefAfter(r, inputs);
            && SettingUp(r'.phase)
            && r'.running == Deadlines(if inputs == [] then r.running.noReply else None,
                                       if AllTrying(inputs) then r.running.noProgress else None, r.running.expiry)
    decreases |inputs|
  {
    if inputs != [] {
      ProvisionalDeadlines(RefStep(r, inputs[0]).0, inputs[1..]);
      assert AllTrying(inputs) <==> inputs[0].code == 100 && AllTrying(inputs[1..]);
    }
  }

  /** When a call has been tried at `rtime` and only provisional responses have come, a look at the clock reports the
      earliest of the waits that still go on if its time has come, and nothing otherwise. */
  lemma EarliestWaitIsReported(expire: Option<real>, noProgress: Option<real>, noReply: Option<real>, rtime: real,
                               inputs: seq<Input>, now: real)
    requires AllProvisional(inputs)
    ensures var told := Step(After(NewLeg(expire, noProgress, noReply), [Try(rtime)] + inputs), Tick(now)).1;
            if exists due :: Awaited(expire, noProgress, noReply, rtime, inputs, due) && due <= now then
              && |told| == 1 && told[0].TimedOut?
              && Awaited(expire, noProgress, noReply, rtime, inputs, told[0].due)
              && forall due :: Awaited(expire, noProgress, noReply, rtime, inputs, due) ==> told[0].due <= due
            else told == []
  {
    var r0 := Reference(Idle, Deadlines(noReply, noProgress, expire), UNLIMITED);
    var all := [Try(rtime)] + inputs;
    assert all[1..] == inputs;
    AfterRefines(NewLeg(expire, noProgress, noReply), r0, all);
    var r1 := RefStep(r0, Try(rtime)).0;
    assert RefAfter(r0, all) == RefAfter(r1, inputs);
    ProvisionalDeadlines(r1, inputs);
    TickRefines(After(NewLeg(expire, noProgress, noReply), all), RefAfter(r0, all), now);
    hide After, RefAfter, Refines, Step, AllTrying;
    var d := RefAfter(r0, all).running;
    FirstIsAwaited(expire, noProgress, noReply, rtime, inputs, d);
  }

  lemma FirstIsAwaited(expire: Option<real>, noProgress: Option<real>, noReply: Option<real>, rtime: real,
                       inputs: seq<Input>, d: Deadlines)
    requires d.noReply == if noReply.Some? && noReply.value < 32.0 && inputs == [] then Some(rtime + noReply.value)
                          else None
    requires d.noProgress == if noProgress.Some? && AllTrying(inputs) then Some(rtime + noProgress.value) else None
    requires d.expiry == if expire.Some? then Some(rtime + expire.value) else None
    ensures First(d).Some? ==> Awaited(expire, noProgress, noReply, rtime, inputs, First(d).value)
    ensures forall due :: Awaited(expire, noProgress, noReply, rtime, inputs, due) ==>
                            First(d).Some? && First(d).value <= due
  {
    hide AllTrying;
  }

  // ----- The object with its fields -----

  class UacLeg {
    var phase: Phase
    var expire_time: Option<real>
    var no_progress_time: Option<real>
    var no_reply_time: Option<real>
    var expire_mtime: real
    var no_progress_mtime: real
    var expire_timer: Option<real>
    var no_progress_timer: Option<real>
    var no_reply_timer: Option<real>
    var equeue: seq<Report>

    function View(): Leg
      reads this
    {
      Leg(phase, expire_time, no_progress_time, no_reply_time, expire_mtime, no_progress_mtime,
          expire_timer, no_progress_timer, no_reply_timer)
    }

    constructor (expire_time: Option<real>, no_progress_time: Option<real>, no_reply_time: Option<real>)
      ensures View() == NewLeg(expire_time, no_progress_time, no_reply_time) && equeue == []
    {
      phase := Idle;
      this.expire_time, this.no_progress_time, this.no_reply_time := expire_time, no_progress_time, no_reply_time;
      expire_mtime, no_progress_mtime := 0.0, 0.0;
      expire_timer, no_progress_timer, no_reply_timer := None, None, None;
      equeue := [];
    }

    method RecvTry(rtime: real)
      modifies this
      ensures View() == Step(old(View()), Try(rtime)).0 && equeue == old(equeue)
    {
      if phase != Idle {
        return;
      }
      if expire_time.Some? {
        expire_mtime := rtime + expire_time.value;
      }
      if no_progress_time.Some? {
        no_progress_mtime := rtime + no_progress_time.value;
        if expire_time.Some? && no_progress_time.value >= expire_time.value {
          no_progress_time := None;
        }
      }
      var no_reply_mtime := 0.0;
      if no_reply_time.Some? {
        if no_reply_time.value < 32.0 {
          no_reply_mtime := rtime + no_reply_time.value;
          if expire_time.Some? && no_reply_time.value >= expire_time.value {
            no_reply_time := None;
          } else if no_progress_time.Some? && no_reply_time.value >= no_progress_time.value {
            no_reply_time := None;
          }
        } else {
          no_reply_time := None;
        }
      }
      if no_reply_time.Some? {
        no_reply_timer := Some(no_reply_mtime);
      } else if no_progress_time.Some? {
        no_progress_timer := Some(no_progress_mtime);
      } else if expire_time.Some? {
        expire_timer := Some(expire_mtime);
      }
      phase := Trying;
    }

    method RecvResponse(code: int, tagged: bool, challenged: bool)
      modifies this
      ensures View() == OnResponse(old(View()), code, tagged, challenged).0
      ensures equeue == old(equeue) + OnResponse(old(View()), code, tagged, challenged).1
    {
      if challenged && (code == 401 || code == 407) {
        return;
      }
      match phase
      case Trying => TryingResponse(code, tagged);
      case Ringing =>
        if code < 200 {
          equeue := equeue + [Ring(code)];
        } else {
          expire_timer := None;
          equeue := equeue + [FinalReport(code, tagged)];
          phase := FinalPhase(code, tagged);
        }
      case Cancelling =>
        if code >= 200 {
          phase := if code < 300 then Disconnected else Dead;
        }
      case _ =>
    }

    method TryingResponse(code: int, tagged: bool)
      requires phase == Trying
      modifies this
      ensures View() == OnResponse(old(View()), code, tagged, false).0
      ensures equeue == old(equeue) + OnResponse(old(View()), code, tagged, false).1
    {
      if no_reply_timer.Some? {
        no_reply_timer := None;
        if code == 100 && no_progress_time.Some? {
          no_progress_timer := Some(no_progress_mtime);
        } else if code < 200 && expire_time.Some? {
          expire_timer := Some(expire_mtime);
        }
      }
      if code == 100 {
        equeue := equeue + [Ring(code)];
        return;
      }
      if no_progress_timer.Some? {
        no_progress_timer := None;
        if code < 200 && expire_time.Some? {
          expire_timer := Some(expire_mtime);
        }
      }
      if code < 200 {
        equeue := equeue + [Ring(code)];
        phase := Ringing;
        return;
      }
      expire_timer := None;
      equeue := equeue + [FinalReport(code, tagged)];
      phase := FinalPhase(code, tagged);
    }

    method RecvAbandon()
      modifies this
      ensures View() == OnAbandon(old(View())) && equeue == old(equeue)
    {
      if phase == Idle {
        phase := Dead;
      } else if phase == Trying {
        expire_timer := None;
        no_progress_timer := None;
        no_reply_timer := None;
        phase := Cancelling;
      } else if phase == Ringing {
        expire_timer := None;
        phase := Cancelling;
      }
    }

    /** The dispatcher runs whichever timer is due. */
    method RunTimers(now: real)
      modifies this
      ensures View() == OnTick(old(View()), now).0
      ensures equeue == old(equeue) + OnTick(old(View()), now).1
    {
      if no_reply_timer.Some? && no_reply_timer.value <= now {
        equeue := equeue + [TimedOut(no_reply_timer.value)];
        no_reply_timer := None;
        RecvAbandon();
      } else if no_progress_timer.Some? && no_progress_timer.value <= now {
        equeue := equeue + [TimedOut(no_progress_timer.value)];
        no_progress_timer := None;
        RecvAbandon();
      } else if expire_timer.Some? && expire_timer.value <= now {
        equeue := equeue + [TimedOut(expire_timer.value)];
        expire_timer := None;
        RecvAbandon();
      }
    }
  }
}
