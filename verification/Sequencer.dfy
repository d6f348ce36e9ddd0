/** Commands to the RTP proxy in order: `sippy/Rtp_proxy/Cmd/sequencer.py`, and how a session uses it to update and
    delete its streams: `sippy/Rtp_proxy/session.py`, `sippy/Rtp_proxy/Session/side.py`. */
module Sequencer {
  import opened Basics

  /** An update or a deletion of the stream with an index, or any other command. */
  datatype Command = U(index: nat) | D(index: nat) | Other(id: nat)

  /** `accepted` are the commands that were not ignored, `sent` those passed on, `called` those whose callback ran. */
  datatype Queue = Queue(
    client: bool, comqueue: seq<Command>, inflight: Option<Command>, deleted: bool,
    accepted: seq<Command>, sent: seq<Command>, called: seq<Command>)

  const NEW_QUEUE := Queue(true, [], None, false, [], [], [])

  function SendCommand(q: Queue, c: Command): Queue {
    if !q.client then q
    else if q.inflight.Some? then q.(comqueue := q.comqueue + [c], accepted := q.accepted + [c])
    else q.(inflight := Some(c), accepted := q.accepted + [c], sent := q.sent + [c])
  }

  /** `result_callback` up to the command's own callback. */
  function TakeResult(q: Queue): Queue
    requires q.inflight.Some?
  {
    var q1 := q.(inflight := None, called := q.called + [q.inflight.value]);
    if q.client && q.comqueue != [] then
      q1.(inflight := Some(q.comqueue[0]), comqueue := q.comqueue[1..], sent := q.sent + [q.comqueue[0]])
    else q1
  }

  function Delete(q: Queue): Queue {
    if q.inflight.Some? then q.(deleted := true) else q.(client := false)
  }

  // ----- A session -----

  /** `cut`, `top` and `spared` record what the deletion found: how many commands had been accepted, the highest
      index, and the index that had timed out; `raised` whether the latest callback raised an exception. */
  datatype Session = Session(
    q: Queue, client: bool, max_index: int, media_timeout_index: Option<nat>,
    cut: nat, top: int, spared: Option<nat>, raised: bool)

  const NEW_SESSION := Session(NEW_QUEUE, true, -1, None, 0, -1, None, false)

  /** What a user of the session may do, also inside a callback. */
  datatype Call = Update(index: nat) | Send(id: nat) | MediaTimeout(index: nat) | DeleteSession

  function UpdateSide(s: Session, index: nat): Session {
    var s1 := s.(max_index := if index > s.max_index then index else s.max_index);
    if !s.client then s1                  // the source raises AttributeError here
    else s1.(q := SendCommand(s.q, U(index)))
  }

  /** The loop in `delete`. */
  function SendDeletes(q: Queue, maxIndex: int, timedOut: Option<nat>): Queue
    decreases maxIndex + 1
  {
    if maxIndex < 0 then q
    else SendDeletes(if timedOut == Some(maxIndex) then q else SendCommand(q, D(maxIndex)), maxIndex - 1, timedOut)
  }

  function DeleteAll(s: Session): Session {
    if !s.client then s
    else
      s.(q := Delete(SendDeletes(s.q, s.max_index, s.media_timeout_index)), client := false,
         max_index := if s.max_index >= 0 then -1 else s.max_index,
         cut := |s.q.accepted|, top := s.max_index, spared := s.media_timeout_index)
  }

  function Perform(s: Session, c: Call): Session {
    match c
    case Update(index) => UpdateSide(s, index)
    case Send(id) => s.(q := SendCommand(s.q, Other(id)))
    case MediaTimeout(index) => s.(media_timeout_index := Some(index))
    case DeleteSession => DeleteAll(s)
  }

  function PerformAll(s: Session, cs: seq<Call>): Session
    decreases |cs|
  {
    if cs == [] then s else PerformAll(Perform(s, cs[0]), cs[1..])
  }

  /** A result arrives: the next command goes out, the callback makes its calls, and a deferred delete is done, unless
      the callback raises an exception, which leaves before that. */
  function HandleResult(s: Session, calls: seq<Call>, raised: bool): Session
    requires s.q.inflight.Some?
  {
    var s1 := PerformAll(s.(q := TakeResult(s.q)), calls).(raised := raised);
    if !raised && s1.q.deleted then s1.(q := Delete(s1.q)) else s1
  }

  datatype Action = Do(c: Call) | Arrives(calls: seq<Call>, raised: bool)

  /** A deletion command has no callback. */
  predicate Enabled(s: Session, a: Action) {
    a.Arrives? ==> s.q.inflight.Some? && (s.q.inflight.value.D? ==> a.calls == [] && !a.raised)
  }

  function Step(s: Session, a: Action): Session
    requires Enabled(s, a)
  {
    match a
    case Do(c) => Perform(s, c)
    case Arrives(calls, raised) => HandleResult(s, calls, raised)
  }

  ghost predicate IsRun(states: seq<Session>, actions: seq<Action>) {
    && |states| == |actions| + 1
    && forall k :: 0 <= k < |actions| ==> Enabled(states[k], actions[k]) && states[k + 1] == Step(states[k], actions[k])
  }

  // ----- The queue -----

  function Waiting(o: Option<Command>): seq<Command> {
    if o.Some? then [o.value] else []
  }

  /** What was accepted is called, in flight or queued, in this order; commands go out in the order they came. */
  ghost predicate QueueOk(q: Queue) {
    && q.accepted == q.called + Waiting(q.inflight) + q.comqueue
    && q.sent == q.called + Waiting(q.inflight)
    && (q.inflight.None? ==> q.comqueue == [])
    && (!q.client ==> q.inflight.None?)
  }

  lemma SendOk(q: Queue, c: Command)
    requires QueueOk(q)
    ensures QueueOk(SendCommand(q, c))
    ensures SendCommand(q, c).accepted == if q.client then q.accepted + [c] else q.accepted
    ensures SendCommand(q, c).client == q.client && SendCommand(q, c).deleted == q.deleted
    ensures q.inflight.Some? ==> SendCommand(q, c).inflight.Some?
  {
  }

  lemma TakeOk(q: Queue)
    requires QueueOk(q) && q.inflight.Some?
    ensures QueueOk(TakeResult(q)) && TakeResult(q).accepted == q.accepted
    ensures TakeResult(q).called == q.called + [q.sent[|q.called|]]
  {
  }

  // ----- Deletion -----

  /** The commands that delete indexes `top` down to 0, but for the one that timed out. */
  function Deletes(top: int, spared: Option<nat>): seq<Command>
    decreases top + 1
  {
    if top < 0 then []
    else (if spared == Some(top) then [] else [D(top)]) + Deletes(top - 1, spared)
  }

  lemma {:induction false} SendDeletesOk(q: Queue, top: int, spared: Option<nat>)
    requires QueueOk(q) && q.client
    ensures var q' := SendDeletes(q, top, spared);
            && QueueOk(q') && q'.client && q'.deleted == q.deleted
            && q'.accepted == q.accepted + Deletes(top, spared)
            && (q.inflight.Some? ==> q'.inflight.Some?)
    decreases top + 1
  {
    hide SendCommand, QueueOk;
    if top < 0 {
      assert q.accepted + [] == q.accepted;
    } else if spared == Some(top) {
      SendDeletesOk(q, top - 1, spared);
      assert [] + Deletes(top - 1, spared) == Deletes(top - 1, spared);
    } else {
      SendOk(q, D(top));
      SendDeletesOk(SendCommand(q, D(top)), top - 1, spared);
      assert q.accepted + [D(top)] + Deletes(top - 1, spared) == q.accepted + Deletes(top, spared);
    }
  }

  function Occurrences(cs: seq<Command>, c: Command): nat {
    if cs == [] then 0 else Occurrences(cs[..|cs| - 1], c) + if cs[|cs| - 1] == c then 1 else 0
  }

  lemma {:induction false} OccurrencesConcat(a: seq<Command>, b: seq<Command>, c: Command)
    ensures Occurrences(a + b, c) == Occurrences(a, c) + Occurrences(b, c)
    decreases |b|
  {
    if b == [] {
      assert a + b == a;
    } else {
      assert (a + b)[..|a| + |b| - 1] == a + b[..|b| - 1];
      OccurrencesConcat(a, b[..|b| - 1], c);
    }
  }

  lemma {:induction false} NoOccurrence(cs: seq<Command>, c: Command)
    ensures Occurrences(cs, c) == 0 <==> c !in cs
    decreases |cs|
  {
    if cs != [] {
      NoOccurrence(cs[..|cs| - 1], c);
    }
  }

  lemma {:induction false} DeletesOnce(top: int, spared: Option<nat>, i: nat)
    ensures Occurrences(Deletes(top, spared), D(i)) == if i <= top && spared != Some(i) then 1 else 0
    ensures forall c :: c in Deletes(top, spared) ==> c.D?
    decreases top + 1
  {
    if top >= 0 {
      DeletesOnce(top - 1, spared, i);
      var first: seq<Command> := if spared == Some(top) then [] else [D(top)];
      OccurrencesConcat(first, Deletes(top - 1, spared), D(i));
      assert Occurrences([D(top)], D(i)) == if top == i then 1 else 0 by {
        assert [D(top)][..0] == [];
      }
    }
  }

  // ----- The session -----

  /** Before the deletion: no D, and every updated index is within reach of the deletion. */
  ghost predicate Open(s: Session) {
    && s.client && s.q.client && !s.q.deleted && s.max_index >= -1
    && forall k :: 0 <= k < |s.q.accepted| ==>
         !s.q.accepted[k].D? && (s.q.accepted[k].U? ==> s.q.accepted[k].index <= s.max_index)
  }

  /** After it: the commands before, the deletions, and then neither updates nor deletions. */
  ghost predicate Closed(s: Session) {
    && !s.client && (s.q.deleted || !s.q.client)
    && var n, m := s.cut, s.cut + |Deletes(s.top, s.spared)|;
       && m <= |s.q.accepted|
       && (forall k :: 0 <= k < n ==> !s.q.accepted[k].D? && (s.q.accepted[k].U? ==> s.q.accepted[k].index <= s.top))
       && s.q.accepted[n..m] == Deletes(s.top, s.spared)
       && (forall k :: m <= k < |s.q.accepted| ==> s.q.accepted[k].Other?)
  }

  ghost predicate Inv(s: Session) {
    QueueOk(s.q) && (Open(s) || Closed(s))
  }

  lemma DeleteInv(s: Session)
    requires Inv(s)
    ensures Inv(DeleteAll(s))
  {
    if s.client {
      hide SendDeletes, Deletes, QueueOk;
      SendDeletesOk(s.q, s.max_index, s.media_timeout_index);
    }
  }

  lemma PerformInv(s: Session, c: Call)
    requires Inv(s)
    ensures Inv(Perform(s, c))
  {
    hide SendCommand, QueueOk, Deletes, DeleteAll;
    match c {
      case Update(index) =>
        if s.client { SendOk(s.q, U(index)); }
      case Send(id) =>
        SendOk(s.q, Other(id));
      case MediaTimeout(_) =>
      case DeleteSession => DeleteInv(s);
    }
  }

  lemma {:induction false} PerformAllInv(s: Session, cs: seq<Call>)
    requires Inv(s)
    ensures Inv(PerformAll(s, cs))
    decreases |cs|
  {
    hide Inv, Perform;
    if cs != [] {
      PerformInv(s, cs[0]);
      PerformAllInv(Perform(s, cs[0]), cs[1..]);
    }
  }

  /** A delete that was put off is done when nothing is in flight, unless the latest callback raised. */
  ghost predicate AtRest(s: Session) {
    s.q.deleted && s.q.inflight.None? ==> (s.q.client <==> s.raised)
  }

  /** While a callback runs, the put-off delete is not done. */
  ghost predicate Deferred(s: Session) {
    s.q.deleted ==> s.q.client
  }

  lemma PerformRest(s: Session, c: Call)
    requires Inv(s)
    ensures AtRest(s) ==> AtRest(Perform(s, c))
    ensures Deferred(s) ==> Deferred(Perform(s, c))
  {
    match c {
      case Update(index) => SendOk(s.q, U(index));
      case Send(id) => SendOk(s.q, Other(id));
      case MediaTimeout(_) =>
      case DeleteSession =>
        if s.client { SendDeletesOk(s.q, s.max_index, s.media_timeout_index); }
    }
    hide SendDeletes, Deletes, Closed;
  }

  lemma {:induction false} PerformAllRest(s: Session, cs: seq<Call>)
    requires Inv(s) && Deferred(s)
    ensures Deferred(PerformAll(s, cs))
    decreases |cs|
  {
    hide Inv, Perform, Deferred;
    if cs != [] {
      PerformInv(s, cs[0]);
      PerformRest(s, cs[0]);
      PerformAllRest(Perform(s, cs[0]), cs[1..]);
    }
  }

  lemma ResultInv(s: Session, calls: seq<Call>, raised: bool)
    requires Inv(s) && s.q.inflight.Some?
    ensures Inv(HandleResult(s, calls, raised)) && AtRest(HandleResult(s, calls, raised))
  {
    hide PerformAll, TakeResult, Inv, Deferred, AtRest, Delete;
    var s1 := s.(q := TakeResult(s.q));
    TakeInv(s);
    PerformAllInv(s1, calls);
    PerformAllRest(s1, calls);
    AfterCallback(PerformAll(s1, calls), raised);
  }

  lemma TakeInv(s: Session)
    requires Inv(s) && s.q.inflight.Some?
    ensures Inv(s.(q := TakeResult(s.q))) && Deferred(s.(q := TakeResult(s.q)))
  {
    TakeOk(s.q);
    hide TakeResult, Deletes;
  }

  lemma AfterCallback(s: Session, raised: bool)
    requires Inv(s) && Deferred(s)
    ensures var s1 := s.(raised := raised);
            var s' := if !raised && s1.q.deleted then s1.(q := Delete(s1.q)) else s1;
            Inv(s') && AtRest(s')
  {
    hide Deletes;
  }

  lemma StepInv(s: Session, a: Action)
    requires Inv(s) && AtRest(s) && Enabled(s, a)
    ensures Inv(Step(s, a)) && AtRest(Step(s, a))
  {
    match a {
      case Do(c) =>
        PerformInv(s, c);
        PerformRest(s, c);
      case Arrives(calls, raised) => ResultInv(s, calls, raised);
    }
    hide Perform, HandleResult, Inv, AtRest;
  }

  lemma {:induction false} RunInv(states: seq<Session>, actions: seq<Action>, k: nat)
    requires IsRun(states, actions) && states[0] == NEW_SESSION && k <= |actions|
    ensures Inv(states[k]) && AtRest(states[k])
    decreases k
  {
    hide Step, Enabled, Inv, AtRest;
    if k > 0 {
      RunInv(states, actions, k - 1);
      StepInv(states[k - 1], actions[k - 1]);
    } else {
      NewInv();
    }
  }

  lemma NewInv()
    ensures Inv(NEW_SESSION) && AtRest(NEW_SESSION)
  {
  }

  // ----- Main results -----

  /** In every run, with commands issued and deletions asked for inside callbacks, and with callbacks that raise:
      accepted commands go out and are called in the order in which they came, each once, one at a time, and nothing
      waits while nothing is in flight. When the last result is in, a deferred deletion has been done if and only if
      the callback of that result did not raise. */
  lemma FirstInFirstOut(states: seq<Session>, actions: seq<Action>, k: nat)
    requires IsRun(states, actions) && states[0] == NEW_SESSION && k <= |actions|
    ensures var q := states[k].q;
            && q.called <= q.sent <= q.accepted
            && |q.sent| <= |q.called| + 1
            && (q.inflight.None? ==> q.called == q.accepted)
            && (q.deleted && q.inflight.None? ==> (!q.client <==> !states[k].raised))
  {
    RunInv(states, actions, k);
    hide IsRun, Open, Closed;
  }

  /** A run in which a deferred deletion is never done: the only stream has timed out, so that no deletion command is
      sent, and the callback of its update, still in flight when the session is deleted, raises. */
  lemma RaisingCallbackKeepsTheClient()
    ensures var actions := [Do(Update(0)), Do(MediaTimeout(0)), Do(DeleteSession), Arrives([], true)];
            exists states: seq<Session> :: IsRun(states, actions) && states[0] == NEW_SESSION
                             && states[4].q.deleted && states[4].q.inflight.None? && states[4].q.client
  {
    var actions := [Do(Update(0)), Do(MediaTimeout(0)), Do(DeleteSession), Arrives([], true)];
    var s1 := Perform(NEW_SESSION, Update(0));
    var s2 := Perform(s1, MediaTimeout(0));
    var s3 := Perform(s2, DeleteSession);
    assert SendDeletes(s2.q, 0, Some(0)) == SendDeletes(s2.q, -1, Some(0)) == s2.q;
    assert s3.q.inflight == Some(U(0)) && s3.q.deleted && s3.q.comqueue == [];
    var s4 := HandleResult(s3, [], true);
    var states := [NEW_SESSION, s1, s2, s3, s4];
    assert IsRun(states, actions);
  }

  /** Every update of stream `i` comes before every deletion. */
  ghost predicate UpdatesFirst(cs: seq<Command>, i: nat) {
    forall u, d :: 0 <= u < |cs| && 0 <= d < |cs| && cs[u] == U(i) && cs[d].D? ==> u < d
  }

  /** In every run that deletes the session: a stream that was updated gets exactly one deletion, unless it had timed
      out, and all its updates come before the deletion. */
  lemma EachStreamDeletedOnce(states: seq<Session>, actions: seq<Action>, k: nat, i: nat)
    requires IsRun(states, actions) && states[0] == NEW_SESSION && k <= |actions|
    requires !states[k].client && U(i) in states[k].q.accepted
    ensures var s := states[k];
            && Occurrences(s.q.accepted, D(i)) == (if s.spared == Some(i) then 0 else 1)
            && UpdatesFirst(s.q.accepted, i)
  {
    RunInv(states, actions, k);
    hide IsRun, QueueOk, AtRest;
    ClosedDeletes(states[k], i);
  }

  lemma CountInParts(before: seq<Command>, top: int, spared: Option<nat>, after: seq<Command>, i: nat)
    requires i <= top && D(i) !in before && D(i) !in after
    ensures Occurrences(before + (Deletes(top, spared) + after), D(i)) == if spared == Some(i) then 0 else 1
  {
    DeletesOnce(top, spared, i);
    hide Deletes;
    OccurrencesConcat(before, Deletes(top, spared) + after, D(i));
    OccurrencesConcat(Deletes(top, spared), after, D(i));
    NoOccurrence(before, D(i));
    NoOccurrence(after, D(i));
  }

  lemma UpdatesAreEarly(s: Session, i: nat)
    requires Closed(s)
    ensures forall u :: 0 <= u < |s.q.accepted| && s.q.accepted[u] == U(i) ==> u < s.cut && i <= s.top
  {
    var all, ds := s.q.accepted, Deletes(s.top, s.spared);
    DeletesOnce(s.top, s.spared, i);
    hide Deletes;
    forall x | s.cut <= x < s.cut + |ds| ensures all[x].D? {
      assert all[s.cut..s.cut + |ds|][x - s.cut] == ds[x - s.cut] && ds[x - s.cut] in ds;
    }
  }

  lemma ClosedDeletes(s: Session, i: nat)
    requires Closed(s) && U(i) in s.q.accepted
    ensures Occurrences(s.q.accepted, D(i)) == if s.spared == Some(i) then 0 else 1
    ensures UpdatesFirst(s.q.accepted, i)
  {
    var all, n, ds := s.q.accepted, s.cut, Deletes(s.top, s.spared);
    UpdatesAreEarly(s, i);
    hide Deletes, Occurrences;
    assert all == all[..n] + (ds + all[n + |ds|..]);
    CountInParts(all[..n], s.top, s.spared, all[n + |ds|..], i);
  }

  // ----- The objects -----

  class RtpProxyCmdSequencer {
    var rtp_proxy_client: bool
    var comqueue: seq<Command>
    var inflight: Option<Command>
    var deleted: bool
    ghost var accepted: seq<Command>
    ghost var sent: seq<Command>
    ghost var called: seq<Command>

    ghost function View(): Queue
      reads this
    {
      Queue(rtp_proxy_client, comqueue, inflight, deleted, accepted, sent, called)
    }

    constructor ()
      ensures View() == NEW_QUEUE
    {
      rtp_proxy_client, comqueue, inflight, deleted := true, [], None, false;
      accepted, sent, called := [], [], [];
    }

    method Submit(command: Command)
      modifies this
      ensures View() == SendCommand(old(View()), command)
    {
      if !rtp_proxy_client {
        return;
      }
      accepted := accepted + [command];
      if inflight.Some? {
        comqueue := comqueue + [command];
        return;
      }
      inflight := Some(command);
      sent := sent + [command];
    }

    /** `result_callback` up to the command's own callback. */
    method NextCommand()
      requires inflight.Some?
      modifies this
      ensures View() == TakeResult(old(View()))
    {
      called := called + [inflight.value];
      inflight := None;
      if rtp_proxy_client && |comqueue| > 0 {
        inflight := Some(comqueue[0]);
        sent := sent + [comqueue[0]];
        comqueue := comqueue[1..];
      }
    }

    method DeleteQueue()
      modifies this
      ensures View() == Delete(old(View()))
    {
      if inflight.Some? {
        deleted := true;
        return;
      }
      rtp_proxy_client := false;
    }
  }

  class RtpProxySession {
    const rtpp_seq: RtpProxyCmdSequencer
    var rtp_proxy_client: bool
    var max_index: int
    var media_timeout_index: Option<nat>
    ghost var cut: nat
    ghost var top: int
    ghost var spared: Option<nat>
    ghost var raised: bool

    ghost function View(): Session
      reads this, rtpp_seq
    {
      Session(rtpp_seq.View(), rtp_proxy_client, max_index, media_timeout_index, cut, top, spared, raised)
    }

    constructor ()
      ensures View() == NEW_SESSION && fresh(rtpp_seq)
    {
      rtpp_seq := new RtpProxyCmdSequencer();
      rtp_proxy_client, max_index, media_timeout_index := true, -1, None;
      cut, top, spared, raised := 0, -1, None, false;
    }

    method UpdateStream(index: nat)
      modifies this, rtpp_seq
      ensures View() == UpdateSide(old(View()), index)
    {
      max_index := if index > max_index then index else max_index;
      if rtp_proxy_client {
        rtpp_seq.Submit(U(index));
      }
    }

    method DeleteStreams()
      modifies this, rtpp_seq
      ensures View() == DeleteAll(old(View()))
    {
      if !rtp_proxy_client {
        return;
      }
      cut, top, spared := |rtpp_seq.accepted|, max_index, media_timeout_index;
      hide SendCommand;
      while max_index >= 0
        invariant max_index <= old(max_index)
        invariant max_index >= -1 || max_index == old(max_index)
        invariant SendDeletes(rtpp_seq.View(), max_index, media_timeout_index)
                  == SendDeletes(old(rtpp_seq.View()), old(max_index), media_timeout_index)
        invariant media_timeout_index == old(media_timeout_index) && cut == |old(rtpp_seq.accepted)|
        invariant top == old(max_index) && spared == media_timeout_index && raised == old(raised)
      {
        if media_timeout_index.None? || max_index != media_timeout_index.value {
          rtpp_seq.Submit(D(max_index));
        }
        max_index := max_index - 1;
      }
      rtp_proxy_client := false;
      rtpp_seq.DeleteQueue();
    }

    method Call(c: Call)
      modifies this, rtpp_seq
      ensures View() == Perform(old(View()), c)
    {
      match c {
        case Update(index) => UpdateStream(index);
        case Send(id) => rtpp_seq.Submit(Other(id));
        case MediaTimeout(index) => media_timeout_index := Some(index);
        case DeleteSession => DeleteStreams();
      }
    }

    /** The sequencer's `result_callback`, with the calls that the command's own callback makes before it returns or
        raises. */
    method ResultCallback(calls: seq<Call>, raises: bool)
      requires rtpp_seq.inflight.Some?
      modifies this, rtpp_seq
      ensures View() == HandleResult(old(View()), calls, raises)
    {
      rtpp_seq.NextCommand();
      hide Perform, TakeResult;
      for i := 0 to |calls|
        invariant PerformAll(View(), calls[i..])
                  == PerformAll(old(View()).(q := TakeResult(old(rtpp_seq.View()))), calls)
      {
        assert calls[i..][1..] == calls[i + 1..];
        Call(calls[i]);
      }
      raised := raises;
      if raises {
        return;
      }
      if rtpp_seq.deleted {
        rtpp_seq.DeleteQueue();
      }
    }
  }
}
