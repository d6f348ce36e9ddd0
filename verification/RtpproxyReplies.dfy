/** What the callers of the RTP proxy's UDP client get and what goes out to the proxy, in terms of what happened:
    the answers read, the timers run and the commands asked for (`sippy/Rtp_proxy/Client/udp.py`). */
module RtpproxyReplies {
  import opened Basics
  import opened RtpproxyUdp

  /** The timer `a` finds no try left, or nobody to send. */
  predicate Exhausted(s: Client, cookie: nat)
    requires cookie < |s.reqs|
  {
    !s.worker || |s.reqs[cookie].sends| >= AtLeastOne(s.reqs[cookie].nretr)
  }

  /** The commands that `a` leads to: the one asked for, or those that a callback asks for. */
  function Asked(s: Client, a: Action): seq<Command> {
    match a
    case Send(c, _) => [c]
    case Timer(cookie, _, nested) => if cookie < |s.reqs| && Exhausted(s, cookie) then nested else []
    case Answer(cookie, _, _, _, nested, _) => if cookie in s.pending then nested else []
    case Shutdown => []
  }

  /** `s'` has one request more for each of the commands `cs`, each sent at `now` and waiting four times the delay
      estimate; the others are as they were. */
  ghost predicate Adds(s: Client, s': Client, cs: seq<Command>, now: real) {
    && |s'.reqs| == |s.reqs| + |cs| && s.reqs <= s'.reqs
    && s'.worker == s.worker && s'.lastval == s.lastval
    && (forall c :: 0 <= c < |s.reqs| ==> (c in s'.pending <==> c in s.pending))
    && Fresh(s', |s.reqs|, cs, 4.0 * s.lastval, now)
  }

  /** From `first` on there are the requests for `cs`. */
  ghost predicate Fresh(s: Client, first: nat, cs: seq<Command>, wait: real, now: real) {
    |s.reqs| == first + |cs| && forall i :: 0 <= i < |cs| ==> NewAt(s, first + i, cs[i], wait, now)
  }

  predicate NewAt(s: Client, cookie: nat, c: Command, wait: real, now: real) {
    && cookie < |s.reqs| && cookie in s.pending
    && var p := s.reqs[cookie];
       && p.command == c && p.sends == [now] && p.stime == now && p.first == wait
       && p.timer == Some(now + wait) && p.calls == []
  }

  lemma SendAdds(s: Client, c: Command, now: real)
    requires Inv(s)
    ensures Adds(s, SendCommand(s, c, now), if s.worker then [c] else [], now)
  {
    SendInv(s, c, now);
    hide Inv, Tries;
  }

  lemma AddsJoin(s: Client, s1: Client, s2: Client, c: Command, cs: seq<Command>, now: real)
    requires Adds(s, s1, [c], now) && Adds(s1, s2, cs, now)
    ensures Adds(s, s2, [c] + cs, now)
  {
    assert NewAt(s1, |s.reqs|, [c][0], 4.0 * s.lastval, now);
    forall i | 0 <= i < |[c] + cs| ensures NewAt(s2, |s.reqs| + i, ([c] + cs)[i], 4.0 * s.lastval, now) {
      if i > 0 {
        assert NewAt(s2, |s1.reqs| + (i - 1), cs[i - 1], 4.0 * s1.lastval, now);
      }
    }
  }

  lemma {:induction false} SendAllAdds(s: Client, cs: seq<Command>, now: real)
    requires Inv(s)
    ensures Adds(s, SendAll(s, cs, now), if s.worker then cs else [], now)
    decreases |cs|
  {
    if cs != [] {
      var s1 := SendCommand(s, cs[0], now);
      SendAdds(s, cs[0], now);
      SendInv(s, cs[0], now);
      SendAllAdds(s1, cs[1..], now);
      hide Inv, SendCommand, NewAt;
      if s.worker {
        hide Adds;
        AddsJoin(s, s1, SendAll(s1, cs[1..], now), cs[0], cs[1..], now);
        assert [cs[0]] + cs[1..] == cs;
      }
    }
  }

  /** What a timer or an answer does to the pending request that it is for. */
  ghost predicate Served(s: Client, s': Client, a: Action, cookie: nat)
    requires cookie < |s.reqs| && cookie < |s'.reqs| && (a.Timer? || a.Answer?)
  {
    var (p, p') := (s.reqs[cookie], s'.reqs[cookie]);
    && p'.command == p.command && p'.first == p.first && p'.stime == p.stime
    && if a.Timer? && !Exhausted(s, cookie) then
         && cookie in s'.pending && p'.calls == p.calls
         && p'.sends == p.sends + [a.now]
         && p'.timer.Some? && p'.timer.value == a.now + p.first * Pow2(|p.sends|) as real
       else
         && cookie !in s'.pending && p'.sends == p.sends && p'.timer.None?
         && p'.calls == p.calls + [Call(if a.Timer? then Nothing else Reply(a.text), a.now)]
  }

  predicate For(a: Action, cookie: nat) {
    (a.Timer? || a.Answer?) && a.cookie == cookie
  }

  function At(a: Action): real {
    if a.Shutdown? then 0.0 else a.now
  }

  /** The delay estimate takes a sample from an answer to a command that was sent once, unless the callback raised. */
  predicate Samples(s: Client, a: Action) {
    a.Answer? && a.cookie in s.pending && a.cookie < |s.reqs| && !a.raises && |s.reqs[a.cookie].sends| == 1
  }

  ghost predicate StepSays(s: Client, a: Action, s': Client) {
    var asked := if s.worker then Asked(s, a) else [];
    && s'.worker == (s.worker && !a.Shutdown?)
    && s'.lastval == (if Samples(s, a) then 0.95 * s.lastval + 0.05 * (a.rtime - s.reqs[a.cookie].stime)
                      else s.lastval)
    && Fresh(s', |s.reqs|, asked, 4.0 * s.lastval, At(a))
    && forall c :: 0 <= c < |s.reqs| ==>
                     if For(a, c) && c in s.pending then Served(s, s', a, c)
                     else s'.reqs[c] == s.reqs[c] && (c in s'.pending <==> c in s.pending)
  }

  lemma FreshFrame(s: Client, s': Client, first: nat, cs: seq<Command>, wait: real, now: real)
    requires Fresh(s, first, cs, wait, now) && s'.reqs == s.reqs && s'.pending == s.pending
    ensures Fresh(s', first, cs, wait, now)
  {
    forall i | 0 <= i < |cs| ensures NewAt(s', first + i, cs[i], wait, now) {
      assert NewAt(s, first + i, cs[i], wait, now);
    }
  }

  /** One request changes and then others are added. */
  lemma ServedThenAdds(s: Client, s0: Client, s1: Client, a: Action, cookie: nat, now: real)
    requires cookie < |s.reqs| && (a.Timer? || a.Answer?) && a.cookie == cookie && a.now == now && cookie in s.pending
    requires s0 == s.(pending := s0.pending, reqs := s0.reqs) && |s0.reqs| == |s.reqs|
    requires forall c :: 0 <= c < |s.reqs| && c != cookie ==>
                           s0.reqs[c] == s.reqs[c] && (c in s0.pending <==> c in s.pending)
    requires Served(s, s0, a, cookie) && Adds(s0, s1, if s.worker then Asked(s, a) else [], now)
    ensures StepSays(s, a, s1.(lastval := if Samples(s, a)
                                          then 0.95 * s.lastval + 0.05 * (a.rtime - s.reqs[cookie].stime)
                                          else s.lastval))
  {
    var asked := if s.worker then Asked(s, a) else [];
    var s2 := s1.(lastval := if Samples(s, a) then 0.95 * s.lastval + 0.05 * (a.rtime - s.reqs[cookie].stime)
                             else s.lastval);
    FreshFrame(s1, s2, |s.reqs|, asked, 4.0 * s.lastval, now);
    hide Exhausted, Fresh;
    forall c | 0 <= c < |s.reqs|
      ensures if c == cookie then Served(s, s1, a, c)
              else s1.reqs[c] == s.reqs[c] && (c in s1.pending <==> c in s.pending)
    {
      assert s1.reqs[c] == s0.reqs[c];
    }
  }

  lemma TimerSays(s: Client, cookie: nat, now: real, nested: seq<Command>)
    requires Inv(s) && Enabled(s, Timer(cookie, now, nested))
    ensures StepSays(s, Timer(cookie, now, nested), Retransmit(s, cookie, now, nested))
  {
    var a, p := Timer(cookie, now, nested), s.reqs[cookie];
    assert ReqOk(s, cookie);
    TriesLeft(s, cookie);
    if OutOfTries(s, p) {
      var s0 := s.(pending := s.pending - {cookie}, reqs := s.reqs[cookie := GiveUp(p, now)]);
      GiveUpOk(p, now, s.worker);
      ReqChanged(s, cookie, GiveUp(p, now), s.pending - {cookie});
      hide Inv, Pow2, StepSays, Adds;
      SendAllAdds(s0, nested, now);
      ServedThenAdds(s, s0, SendAll(s0, nested, now), a, cookie, now);
    } else {
      var s0 := s.(reqs := s.reqs[cookie := TryAgain(p, now)]);
      hide Inv, StepSays;
      NextWait(p);
      assert Adds(s0, s0, [], now);
      ServedThenAdds(s, s0, s0, a, cookie, now);
    }
  }

  lemma TriesLeft(s: Client, cookie: nat)
    requires Inv(s) && cookie in s.pending
    ensures cookie < |s.reqs| && (OutOfTries(s, s.reqs[cookie]) <==> Exhausted(s, cookie))
  {
    assert ReqOk(s, cookie);
    hide Span, Pow2;
  }

  lemma NextWait(p: Req)
    requires SentOk(p) && WaitingOk(p)
    ensures p.next_retr * 2.0 == p.first * Pow2(|p.sends|) as real
  {
    NextPlan(p);
    hide Span, Pow2;
  }

  lemma AnswerSays(s: Client, cookie: nat, text: string, rtime: real, now: real, nested: seq<Command>, raises: bool)
    requires Inv(s) && cookie in s.pending
    ensures StepSays(s, Answer(cookie, text, rtime, now, nested, raises),
                     ProcessReply(s, cookie, text, rtime, now, nested, raises))
  {
    var a := Answer(cookie, text, rtime, now, nested, raises);
    assert ReqOk(s, cookie);
    var p := s.reqs[cookie];
    assert p.retransmits == |p.sends| - 1;
    AnsweredInv(s, cookie, text, now);
    var s0 := s.(pending := s.pending - {cookie}, reqs := s.reqs[cookie := Answered(p, text, now)]);
    hide Inv, Pow2, StepSays, Adds, ReqOk;
    SendAllAdds(s0, nested, now);
    var s1 := SendAll(s0, nested, now);
    assert s1.lastval == s.lastval by {
      AddsKeeps(s0, s1, if s.worker then nested else [], now);
    }
    ServedThenAdds(s, s0, s1, a, cookie, now);
    hide SendAll;
  }

  lemma AddsKeeps(s: Client, s': Client, cs: seq<Command>, now: real)
    requires Adds(s, s', cs, now)
    ensures s'.lastval == s.lastval
  {
  }

  lemma AddsSays(s: Client, s': Client, c: Command, now: real)
    requires s.worker && Adds(s, s', [c], now)
    ensures StepSays(s, Send(c, now), s')
  {
    hide Fresh;
    forall k | 0 <= k < |s.reqs| ensures s'.reqs[k] == s.reqs[k] && (k in s'.pending <==> k in s.pending) {
    }
  }

  lemma StepSaysSo(s: Client, a: Action)
    requires Inv(s) && Enabled(s, a)
    ensures StepSays(s, a, Step(s, a))
  {
    match a
    case Send(c, now) =>
      SendAdds(s, c, now);
      hide Inv, SendCommand;
      assert s.worker && [c][0] == c;
      AddsSays(s, SendCommand(s, c, now), c, now);
    case Timer(cookie, now, nested) => TimerSays(s, cookie, now, nested);
    case Answer(cookie, text, rtime, now, nested, raises) =>
      if cookie in s.pending { AnswerSays(s, cookie, text, rtime, now, nested, raises); }
    case Shutdown =>
  }

  /** Every step of every run, seen from outside. A command goes out at once and waits four times the delay estimate; a
      timer sends it again and doubles the wait while there is a try left, and otherwise gives up; an answer hands its
      text to the callback; what a callback asks for goes out; no other request changes. The delay estimate moves by a
      twentieth towards the delay of an answer, if the command was sent once and the callback did not raise. */
  lemma EveryStep(states: seq<Client>, actions: seq<Action>, k: nat)
    requires IsRun(states, actions) && states[0] == Init() && k < |actions|
    ensures StepSays(states[k], actions[k], states[k + 1]) && states[0].lastval == 0.25 && states[0].reqs == []
  {
    RunInv(states, actions, k);
    hide Step, Inv, StepSays;
    StepSaysSo(states[k], actions[k]);
  }

  lemma AddedNew(s: Client, a: Action, s': Client, cookie: nat)
    requires StepSays(s, a, s') && |s.reqs| <= cookie < |s'.reqs|
    ensures cookie in s'.pending && s'.reqs[cookie].calls == []
  {
    var asked := if s.worker then Asked(s, a) else [];
    var i := cookie - |s.reqs|;
    assert NewAt(s', |s.reqs| + i, asked[i], 4.0 * s.lastval, At(a));
  }

  lemma {:induction false} NotBefore(states: seq<Client>, actions: seq<Action>, i: nat, k: nat, cookie: nat)
    requires IsRun(states, actions) && states[0] == Init() && i <= k <= |actions| && cookie >= |states[k].reqs|
    ensures cookie !in states[i].pending
    decreases k - i
  {
    hide Step, Enabled, NewAt;
    if i < k {
      EveryStep(states, actions, k - 1);
      NotBefore(states, actions, i, k - 1, cookie);
    } else {
      RunInv(states, actions, k);
    }
  }

  /** The request `cookie` is pending until action `j`, which ends it: by its text, if it is an answer. */
  ghost predicate EndedBy(states: seq<Client>, actions: seq<Action>, j: nat, cookie: nat, calls: seq<Call>) {
    && j < |actions| < |states| && For(actions[j], cookie)
    && cookie in states[j].pending && cookie !in states[j + 1].pending
    && calls == [Call(if actions[j].Answer? then Reply(actions[j].text) else Nothing, actions[j].now)]
    && forall i :: 0 <= i < j && cookie in states[i].pending ==> !(actions[i].Answer? && actions[i].cookie == cookie)
  }

  /** In every run, what the callback of a finished command was told, once, is the text of the first answer that came
      for the command, at the time when it was read; or nothing, at the time of the timer that gave up. */
  lemma {:induction false} CalledWithTheFirstAnswer(states: seq<Client>, actions: seq<Action>, k: nat, cookie: nat)
    requires IsRun(states, actions) && states[0] == Init() && k <= |actions| && cookie < |states[k].reqs|
    ensures if cookie in states[k].pending then
              && states[k].reqs[cookie].calls == []
              && forall i :: 0 <= i < k && cookie in states[i].pending ==>
                               !(actions[i].Answer? && actions[i].cookie == cookie)
            else exists j: nat :: j < k && EndedBy(states, actions, j, cookie, states[k].reqs[cookie].calls)
    decreases k
  {
    hide Step, Enabled, NewAt;
    if k > 0 {
      EveryStep(states, actions, k - 1);
      if cookie < |states[k - 1].reqs| {
        CalledWithTheFirstAnswer(states, actions, k - 1, cookie);
        var (s0, a, s1) := (states[k - 1], actions[k - 1], states[k]);
        assert StepSays(s0, a, s1);
        assert if For(a, cookie) && cookie in s0.pending then Served(s0, s1, a, cookie)
                     else s1.reqs[cookie] == s0.reqs[cookie] && (cookie in s1.pending <==> cookie in s0.pending);
        if For(actions[k - 1], cookie) && cookie in states[k - 1].pending && cookie !in states[k].pending {
          assert EndedBy(states, actions, k - 1, cookie, states[k].reqs[cookie].calls);
        }
      } else {
        forall i | 0 <= i < k ensures cookie !in states[i].pending {
          NotBefore(states, actions, i, k - 1, cookie);
        }
        assert cookie in states[k].pending && states[k].reqs[cookie].calls == [] by {
          AddedNew(states[k - 1], actions[k - 1], states[k], cookie);
        }
      }
    }
  }

  /** In every run, a command that does not say how often to be sent has as many tries as fit into ten seconds for an I,
      one for a G and three for any other, when each waits twice as long as the one before: one more would not fit. */
  lemma TriesFitTheTimeout(states: seq<Client>, actions: seq<Action>, k: nat, cookie: nat)
    requires IsRun(states, actions) && states[0] == Init() && k <= |actions| && cookie < |states[k].reqs|
    ensures var p := states[k].reqs[cookie];
            var timeout := if p.command.kind == 'I' then 10.0 else if p.command.kind == 'G' then 1.0 else 3.0;
            p.command.nretr.None? ==>
              && p.nretr >= 0
              && p.first * (Pow2(p.nretr) as real - 1.0) <= timeout < p.first * (Pow2(p.nretr + 1) as real - 1.0)
  {
    RunInv(states, actions, k);
    assert ReqOk(states[k], cookie);
    var p := states[k].reqs[cookie];
    if p.command.nretr.None? {
      RetriesFit(p.first, ExpTime(p.command.kind));
    }
    hide IsRun, Pow2, Retries;
  }
}
