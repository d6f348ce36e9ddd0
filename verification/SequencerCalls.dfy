/** What each call of a session's user does to the commands for the RTP proxy (`sippy/Rtp_proxy/session.py`,
    `sippy/Rtp_proxy/Session/side.py`, `sippy/Rtp_proxy/Cmd/sequencer.py`). */
module SequencerCalls {
  import opened Basics
  import opened Sequencer

  /** The commands that are accepted by one step, after those that were before. */
  predicate Accepts(s: Session, s': Session, cs: seq<Command>) {
    s'.q.accepted == s.q.accepted + if s.q.client then cs else []
  }

  /** Deletions from the highest index down to 0, each once, but for the one that has timed out. */
  predicate AllDeleted(cs: seq<Command>, top: int, timedOut: Option<nat>) {
    && (forall j :: 0 <= j < |cs| ==> cs[j].D? && cs[j].index <= top && timedOut != Some(cs[j].index))
    && (forall i, j :: 0 <= i < j < |cs| ==> cs[i].index > cs[j].index)
    && (forall i: nat :: i <= top && timedOut != Some(i) ==> D(i) in cs)
  }

  /** The results that have come stay; the queue takes what it is given as long as it has its client, and keeps its
      client until a deletion. */
  ghost predicate Performed(s: Session, c: Call, s': Session) {
    && s'.q.called == s.q.called && s'.raised == s.raised
    && match c
       case Update(index) =>
         && Accepts(s, s', if s.client then [U(index)] else [])
         && s'.max_index == (if index > s.max_index then index else s.max_index)
         && s'.client == s.client && s'.media_timeout_index == s.media_timeout_index
         && s'.q.client == s.q.client && s'.q.deleted == s.q.deleted
       case Send(id) =>
         && Accepts(s, s', [Other(id)]) && s'.max_index == s.max_index
         && s'.client == s.client && s'.media_timeout_index == s.media_timeout_index
         && s'.q.client == s.q.client && s'.q.deleted == s.q.deleted
       case MediaTimeout(index) => s' == s.(media_timeout_index := Some(index))
       case DeleteSession =>
         if !s.client then s' == s
         else
           && (exists cs :: AllDeleted(cs, s.max_index, s.media_timeout_index) && Accepts(s, s', cs))
           && !s'.client && s'.max_index < 0 && s'.spared == s.media_timeout_index && s'.top == s.max_index
           && (s'.q.inflight.Some? ==> s'.q.deleted && s'.q.client == s.q.client)
           && (s'.q.inflight.None? ==> !s'.q.client && s'.q.deleted == s.q.deleted)
  }

  lemma OneMoreDeleted(rest: seq<Command>, top: nat, timedOut: Option<nat>)
    requires AllDeleted(rest, top - 1, timedOut)
    ensures timedOut != Some(top) ==> AllDeleted([D(top)] + rest, top, timedOut)
    ensures timedOut == Some(top) ==> AllDeleted(rest, top, timedOut)
  {
    var all := [D(top)] + rest;
    assert forall j :: 1 <= j < |all| ==> all[j] == rest[j - 1];
    forall i: nat | i <= top && timedOut != Some(i) ensures D(i) in all {
      if i < top {
        assert D(i) in rest;
      } else {
        assert all[0] == D(i);
      }
    }
  }

  lemma {:induction false} DeletesAll(top: int, timedOut: Option<nat>)
    ensures AllDeleted(Deletes(top, timedOut), top, timedOut)
    decreases top + 1
  {
    if top >= 0 {
      DeletesAll(top - 1, timedOut);
      hide AllDeleted;
      OneMoreDeleted(Deletes(top - 1, timedOut), top, timedOut);
      assert [] + Deletes(top - 1, timedOut) == Deletes(top - 1, timedOut);
    }
  }

  /** Whether or not there is a client, what is called and how the queue is deleted does not change. */
  lemma {:induction false} SendDeletesAccepts(q: Queue, top: int, timedOut: Option<nat>)
    ensures var q' := SendDeletes(q, top, timedOut);
            && q'.client == q.client && q'.deleted == q.deleted && q'.called == q.called
            && q'.accepted == q.accepted + if q.client then Deletes(top, timedOut) else []
    decreases top + 1
  {
    if top < 0 {
      assert q.accepted + [] == q.accepted;
    } else if timedOut == Some(top) {
      SendDeletesAccepts(q, top - 1, timedOut);
      assert [] + Deletes(top - 1, timedOut) == Deletes(top - 1, timedOut);
    } else {
      SendDeletesAccepts(SendCommand(q, D(top)), top - 1, timedOut);
      assert q.accepted + [D(top)] + Deletes(top - 1, timedOut) == q.accepted + Deletes(top, timedOut);
    }
  }

  lemma PerformSays(s: Session, c: Call)
    requires Inv(s)
    ensures Performed(s, c, Perform(s, c))
  {
    assert s.q.accepted + [] == s.q.accepted;
    if c.DeleteSession? && s.client {
      SendDeletesAccepts(s.q, s.max_index, s.media_timeout_index);
      DeletesAll(s.max_index, s.media_timeout_index);
      hide SendDeletes, Deletes, AllDeleted;
      assert Accepts(s, Perform(s, c), Deletes(s.max_index, s.media_timeout_index));
    }
    hide AllDeleted, Closed, QueueOk;
  }

  ghost predicate AllPerformed(chain: seq<Session>, cs: seq<Call>) {
    |chain| == |cs| + 1 && forall j :: 0 <= j < |cs| ==> Performed(chain[j], cs[j], chain[j + 1])
  }

  lemma {:induction false} PerformAllSays(s: Session, cs: seq<Call>) returns (chain: seq<Session>)
    requires Inv(s)
    ensures AllPerformed(chain, cs) && chain[0] == s && chain[|cs|] == PerformAll(s, cs)
    decreases |cs|
  {
    hide Inv, Perform, Performed;
    if cs == [] {
      chain := [s];
    } else {
      PerformSays(s, cs[0]);
      PerformInv(s, cs[0]);
      var rest := PerformAllSays(Perform(s, cs[0]), cs[1..]);
      chain := [s] + rest;
      forall j | 0 <= j < |cs| ensures Performed(chain[j], cs[j], chain[j + 1]) {
        if j > 0 {
          assert Performed(rest[j - 1], cs[1..][j - 1], rest[j]);
        }
      }
    }
  }

  /** The result of the command in flight is in, and the next command is, unless the client has gone. */
  predicate ResultIn(s: Session, s': Session) {
    && s.q.inflight.Some? && s'.q.called == s.q.called + [s.q.inflight.value]
    && s'.q.accepted == s.q.accepted && s'.q.client == s.q.client && s'.q.deleted == s.q.deleted
    && s'.client == s.client && s'.max_index == s.max_index && s'.media_timeout_index == s.media_timeout_index
  }

  /** After the callback: a deferred deletion is done, unless the callback raised or a command is in flight. */
  predicate Finished(s: Session, s': Session, raised: bool) {
    && s'.raised == raised && s'.q.called == s.q.called && s'.q.accepted == s.q.accepted && s'.q.sent == s.q.sent
    && s'.client == s.client && s'.max_index == s.max_index && s'.media_timeout_index == s.media_timeout_index
    && s'.q.client == (s.q.client && (raised || !s.q.deleted || s.q.inflight.Some?))
  }

  ghost predicate Handled(s: Session, s': Session, calls: seq<Call>, raised: bool, chain: seq<Session>) {
    AllPerformed(chain, calls) && ResultIn(s, chain[0]) && Finished(chain[|calls|], s', raised)
  }

  ghost predicate ResultHandled(s: Session, s': Session, calls: seq<Call>, raised: bool) {
    exists chain :: Handled(s, s', calls, raised, chain)
  }

  lemma ResultSays(s: Session, calls: seq<Call>, raised: bool)
    requires Inv(s) && s.q.inflight.Some?
    ensures ResultHandled(s, HandleResult(s, calls, raised), calls, raised)
  {
    TakeInv(s);
    var chain := PerformAllSays(s.(q := TakeResult(s.q)), calls);
    hide Inv, PerformAll, AllPerformed;
    assert ResultIn(s, chain[0]);
    assert Finished(chain[|calls|], HandleResult(s, calls, raised), raised);
    assert Handled(s, HandleResult(s, calls, raised), calls, raised, chain);
  }

  /** In every run: each call outside and inside of callbacks has its command accepted while the client is there, a
      deletion has one command for each index up to the highest, and a result is that of the command in flight. */
  lemma EveryCall(states: seq<Session>, actions: seq<Action>, k: nat)
    requires IsRun(states, actions) && states[0] == NEW_SESSION && k < |actions|
    ensures match actions[k]
            case Do(c) => Performed(states[k], c, states[k + 1])
            case Arrives(calls, raised) => ResultHandled(states[k], states[k + 1], calls, raised)
  {
    RunInv(states, actions, k);
    hide Inv, AtRest, Perform, HandleResult, Performed, ResultHandled;
    match actions[k]
    case Do(c) => PerformSays(states[k], c);
    case Arrives(calls, raised) => ResultSays(states[k], calls, raised);
  }
}
