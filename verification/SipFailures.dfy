/** Concrete inputs for which the transaction layer does not give what its users count on. */
module SipFailures {
  import opened Basics
  import opened TwoGeneration
  import opened SipTransactions
  import Runs = SipRuns
  import Server = ServerRuns

  // ----- Two INVITEs of one dialog answered with the same To tag -----

  const DIALOG := Dialog("c", Some("f"), 1)

  function Invite(branch: string): Datagram {
    Request(INVITE, INVITE, DIALOG, Some(branch), [], Some("t"), None, branch)
  }

  function Accept(): Reply {
    Reply(200, Some("t"), "g", false)
  }

  /** The TU answers 200 with the To tag that the request carries. */
  function Accepting(): TuReaction {
    Returned([], Some(TuReturn(Some(Accept()), false, false)))
  }

  function TagKey(): ServerKey {
    ServerKey(DIALOG, Some("t"))
  }

  /** What a manager with no other entry for the branch does with such an INVITE. */
  lemma AcceptedSo(s: State, branch: string, now: real)
    requires Shape(s) && s.tclient == map[] && Lookup(s.cache, Invite(branch)).None?
    requires BranchKey(Invite(branch)) !in s.tserver
    ensures var s1 := Log(AddServer(s, Invite(branch), now), Handed(Invite(branch)));
            HandleIncoming(s, Invite(branch), Accepting(), "", now) == FinallyInvite(s1, |s.sobjs|, Accept(), now)
  {
    hide FinallyInvite, Lookup;
    var h := |s.sobjs|;
    var s1 := Log(AddServer(s, Invite(branch), now), Handed(Invite(branch)));
    assert TuCalls(s1, [], now) == s1;
    assert s1.sobjs[h := s1.sobjs[h].(cancelCb := false, noackCb := false)] == s1.sobjs;
    assert !LoopDetected(s, Invite(branch)) && LookupKey(Invite(branch)) == BranchKey(Invite(branch));
  }

  /** The first INVITE is answered and waits for its ACK under the To-tag key. */
  lemma FirstIsAnswered(now: real)
    ensures var s := HandleIncoming(Init(0.0, now), Invite("b1"), Accepting(), "", now);
            && Shape(s) && s.tserver == map[TagKey() := 0] && |s.sobjs| == 1 && s.tclient == map[]
            && s.sobjs[0].live && s.sobjs[0].key == TagKey() && s.sobjs[0].state == SCompleted
            && Lookup(s.cache, Invite("b2")).None? && Server.ServerTable(s)
  {
    AcceptedSo(Init(0.0, now), "b1", now);
    assert Invite("b1").bytes != Invite("b2").bytes;
    assert BranchKey(Invite("b1")).last != TagKey().last;
  }

  lemma SecondTakesTheEntry(s: State, now: real)
    requires Shape(s) && s.tserver == map[TagKey() := 0] && |s.sobjs| == 1 && s.tclient == map[]
    requires s.sobjs[0].live && s.sobjs[0].key == TagKey() && Lookup(s.cache, Invite("b2")).None?
    ensures var s' := HandleIncoming(s, Invite("b2"), Accepting(), "", now);
            && s'.tserver == map[TagKey() := 1] && |s'.sobjs| == 2
            && s'.sobjs[0] == s.sobjs[0] && s'.sobjs[1].live
  {
    assert BranchKey(Invite("b2")).last != TagKey().last;
    AcceptedSo(s, "b2", now);
    hide HandleIncoming, Lookup;
  }

  /** When one INVITE arrives on two branches and the TU answers both with the dialog's To tag, the second answer
      takes the table entry of the first, which stays alive outside the table, where no ACK can find it. */
  lemma SameTagTwice(now: real) returns (s1: State, s2: State)
    ensures Shape(Init(0.0, now)) && Runs.Enabled(Init(0.0, now), Receive(Invite("b1"), Accepting(), ""), now)
    ensures s1 == Step(Init(0.0, now), Receive(Invite("b1"), Accepting(), ""), now)
    ensures Shape(s1) && Server.ServerTable(s1) && s2 == Step(s1, Receive(Invite("b2"), Accepting(), ""), now)
    ensures s2.tserver == map[TagKey() := 1] && |s2.sobjs| == 2 && s2.sobjs[0].live && s2.sobjs[0].key == TagKey()
    ensures !Server.ServerTable(s2)
  {
    FirstIsAnswered(now);
    FirstIsAllowed(now);
    s1 := HandleIncoming(Init(0.0, now), Invite("b1"), Accepting(), "", now);
    assert s1.clock == now by { AcceptedSo(Init(0.0, now), "b1", now); }
    assert s1.(clock := now) == s1;
    hide HandleIncoming, Lookup;
    SecondTakesTheEntry(s1, now);
    s2 := HandleIncoming(s1, Invite("b2"), Accepting(), "", now);
  }

  lemma FirstIsAllowed(now: real)
    ensures Runs.Enabled(Init(0.0, now), Receive(Invite("b1"), Accepting(), ""), now)
  {
    var s := Init(0.0, now);
    var s1 := Log(AddServer(s, Invite("b1"), now), Handed(Invite("b1")));
    assert s.(clock := now) == s && TuCalls(s1, [], now) == s1;
    assert Server.TagFree(s1, 0, Accept());
  }

  // ----- A refusal goes past the transaction -----

  /** The INVITE was answered with 400, and its transaction waits for the TU. */
  predicate Refused400(s: State, now: real) {
    && s.clock == now && s.tclient == map[] && s.cobjs == []
    && s.sobjs == [NewServerTxn(Invite("b1"), now)] && s.tserver == map[BranchKey(Invite("b1")) := 0]
    && s.strace == [Handed(Invite("b1")), Refused(0)]
    && s.wire == [Answer(400, Invite("b1"), Some("t"))]
  }

  lemma RefusedSo(now: real)
    ensures Refused400(HandleIncoming(Init(0.0, now), Invite("b1"), Raised([], Some(400)), "", now), now)
    ensures Runs.Enabled(Init(0.0, now), Receive(Invite("b1"), Raised([], Some(400)), ""), now)
  {
    var s := Init(0.0, now);
    var s1 := Log(AddServer(s, Invite("b1"), now), Handed(Invite("b1")));
    assert s.(clock := now) == s && TuCalls(s1, [], now) == s1;
  }

  /** 300 seconds later timer E ends the transaction. */
  lemma ExpiresSo(s: State, now: real)
    requires Refused400(s, now)
    ensures Shape(s) && Runs.Enabled(s, FireServer(0, E, "g"), now + 300.0)
    ensures var s' := Step(s, FireServer(0, E, "g"), now + 300.0);
            && s'.strace == s.strace + [Final(0, Invite("b1"))]
            && s'.wire == s.wire + [Answer(487, Invite("b1"), Some("t"))]
  {
    hide CompletedTxn;
  }

  lemma TwoAnswers()
    ensures var trace := [Handed(Invite("b1")), Refused(0)] + [Final(0, Invite("b1"))];
            Server.Finals(trace, 0) + Server.Refusals(trace, 0) == 2
  {
    var d := Invite("b1");
    Server.TraceSnoc([], Handed(d), 0, d);
    Server.TraceSnoc([Handed(d)], Refused(0), 0, d);
    Server.TraceSnoc([Handed(d), Refused(0)], Final(0, d), 0, d);
    assert [] + [Handed(d)] == [Handed(d)];
    assert [Handed(d)] + [Refused(0)] == [Handed(d), SipTransactions.Refused(0)];
  }

  /** The manager sends the response that a parse error of the TU carries and leaves the transaction open; timer E
      then gives the same INVITE a second final response. */
  lemma RefusedThenTerminated(now: real) returns (s1: State, s2: State)
    ensures Shape(Init(0.0, now))
    ensures Runs.Enabled(Init(0.0, now), Receive(Invite("b1"), Raised([], Some(400)), ""), now)
    ensures s1 == Step(Init(0.0, now), Receive(Invite("b1"), Raised([], Some(400)), ""), now)
    ensures Shape(s1) && Runs.Enabled(s1, FireServer(0, E, "g"), now + 300.0)
    ensures s2 == Step(s1, FireServer(0, E, "g"), now + 300.0)
    ensures s2.wire == [Answer(400, Invite("b1"), Some("t")), Answer(487, Invite("b1"), Some("t"))]
    ensures Server.Finals(s2.strace, 0) + Server.Refusals(s2.strace, 0) == 2
  {
    RefusedSo(now);
    assert Init(0.0, now).(clock := now) == Init(0.0, now);
    s1 := HandleIncoming(Init(0.0, now), Invite("b1"), Raised([], Some(400)), "", now);
    assert s1 == Step(Init(0.0, now), Receive(Invite("b1"), Raised([], Some(400)), ""), now);
    hide HandleIncoming, Step;
    ExpiresSo(s1, now);
    s2 := Step(s1, FireServer(0, E, "g"), now + 300.0);
    TwoAnswers();
  }

  // ----- Callbacks that raise -----

  /** The TU accepts the INVITE and asks to be told when no ACK comes. */
  function Expecting(): TuReaction {
    Returned([], Some(TuReturn(Some(Accept()), false, true)))
  }

  lemma ExpectingSo(now: real)
    ensures var s := HandleIncoming(Init(0.0, now), Invite("b1"), Expecting(), "", now);
            && Shape(s) && s.clock == now && |s.sobjs| == 1 && s.tserver == map[TagKey() := 0]
            && s.sobjs[0].live && s.sobjs[0].key == TagKey() && s.sobjs[0].state == SCompleted && s.sobjs[0].noackCb
            && s.sobjs[0].teD == Some(now + 32.0) && s.sobjs[0].teE.None? && s.sobjs[0].teF.None?
    ensures Runs.Enabled(Init(0.0, now), Receive(Invite("b1"), Expecting(), ""), now)
  {
    var s := Init(0.0, now);
    var s1 := Log(AddServer(s, Invite("b1"), now), Handed(Invite("b1")));
    assert s.(clock := now) == s && TuCalls(s1, [], now) == s1;
    assert Server.TagFree(s1, 0, Accept());
    assert BranchKey(Invite("b1")).last != TagKey().last;
  }

  /** Timer D tells the TU that no ACK came; the callback raises, and the transaction stays in the table without a
      timer. */
  lemma NoAckCallbackRaises(now: real) returns (s1: State, s2: State)
    ensures Shape(Init(0.0, now)) && Runs.Enabled(Init(0.0, now), Receive(Invite("b1"), Expecting(), ""), now)
    ensures s1 == Step(Init(0.0, now), Receive(Invite("b1"), Expecting(), ""), now)
    ensures Shape(s1) && Runs.Enabled(s1, FireServer(0, D(true), ""), now + 32.0)
    ensures s2 == Step(s1, FireServer(0, D(true), ""), now + 32.0)
    ensures s2.tserver == map[TagKey() := 0] && s2.sobjs[0].live && Server.NothingArmed(s2.sobjs[0])
  {
    ExpectingSo(now);
    s1 := HandleIncoming(Init(0.0, now), Invite("b1"), Expecting(), "", now);
    assert Init(0.0, now).(clock := now) == Init(0.0, now);
    hide HandleIncoming;
    s2 := StepAt(s1.(clock := now + 32.0), FireServer(0, D(true), ""), now + 32.0);
  }

  const CALL := ClientKey(DIALOG, INVITE, Some("z"))

  function Busy(tag: string): Datagram {
    Response(486, CALL, Some(tag), tag)
  }

  /** The manager with one client transaction. */
  function Calling(now: real): State {
    NewClient(Init(0.0, now), CALL, None, true, now, None)
  }

  /** A final response whose callback raises leaves the transaction where it is; another one is told again. */
  lemma ToldTwice(now: real) returns (s1: State, s2: State, s3: State)
    ensures Shape(Init(0.0, now)) && Runs.Enabled(Init(0.0, now), StartClient(CALL, None, true), now)
    ensures s1 == Step(Init(0.0, now), StartClient(CALL, None, true), now)
    ensures Shape(s1) && Runs.Enabled(s1, Receive(Busy("a"), Raised([], None), ""), now)
    ensures s2 == Step(s1, Receive(Busy("a"), Raised([], None), ""), now)
    ensures Shape(s2) && Runs.Enabled(s2, Receive(Busy("b"), NoTu, ""), now)
    ensures s3 == Step(s2, Receive(Busy("b"), NoTu, ""), now)
    ensures s2.ctrace == [Told(0, 486, true)] && |s2.cobjs| == 1 && s2.cobjs[0].live
    ensures s3.ctrace == [Told(0, 486, true), Told(0, 486, false)]
  {
    assert Init(0.0, now).(clock := now) == Init(0.0, now);
    s1 := Calling(now);
    assert s1.(clock := now) == s1;
    hide IncomingRequest;
    s2 := HandleIncoming(s1, Busy("a"), Raised([], None), "", now);
    assert Busy("a").bytes != Busy("b").bytes;
    assert s2.(clock := now) == s2;
    s3 := HandleIncoming(s2, Busy("b"), NoTu, "", now);
  }
}
