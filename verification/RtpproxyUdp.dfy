/** The UDP client of the RTP proxy: `sippy/Rtp_proxy/Client/udp.py`, with the delay filter of
    `sippy/Math/recfilter.py`. */
module RtpproxyUdp {
  import opened Basics

  // ----- How many tries fit into a timeout -----

  /** The time that `n` tries take when the first waits `x` and each waits twice as long as the one before. */
  function Span(x: real, n: nat): real {
    x * (Pow2(n) as real - 1.0)
  }

  lemma SpanStep(x: real, n: nat)
    ensures Span(x, n + 1) == Span(x, n) + x * Pow2(n) as real
    ensures Span(x, n + 1) == x + Span(2.0 * x, n)
  {
    var p := Pow2(n) as real;
    assert Pow2(n + 1) as real == 2.0 * p;
    assert x * (2.0 * p - 1.0) == x * (p - 1.0) + x * p;
    assert x * (2.0 * p - 1.0) == x + (2.0 * x) * (p - 1.0);
  }

  lemma {:induction false} SpanMonotone(x: real, j: nat, k: nat)
    requires x > 0.0 && j < k
    ensures Span(x, j) < Span(x, k)
    decreases k
  {
    SpanStep(x, k - 1);
    assert x * Pow2(k - 1) as real > 0.0;
    hide Span;
    if j < k - 1 {
      SpanMonotone(x, j, k - 1);
    }
  }

  lemma FloorHalves(x: real, timeout: real)
    requires x > 0.0 && timeout >= x
    ensures 0 <= ((timeout - x) / (2.0 * x)).Floor < (timeout / x).Floor
  {
    var q := timeout / x;
    assert q * x == timeout;
    assert q >= 1.0;
    var g := (q - 1.0) / 2.0;
    assert g * (2.0 * x) == timeout - x;
    Quotient(g, 2.0 * x);
    assert (timeout - x) / (2.0 * x) == g;
    FloorLess(q, g);
  }

  lemma FloorLess(q: real, g: real)
    requires q >= 1.0 && 2.0 * g == q - 1.0
    ensures 0 <= g.Floor < q.Floor
  {
    assert q.Floor as real > 0.0;
    assert g.Floor as real <= g < q.Floor as real;
  }

  lemma Quotient(g: real, d: real)
    requires d > 0.0
    ensures (g * d) / d == g
  {
  }

  /** `getnretrans`, step by step. */
  function Retries(x: real, timeout: real): nat
    requires x > 0.0
    decreases if timeout >= x then (timeout / x).Floor + 1 else 0
  {
    if timeout - x < 0.0 then 0
    else
      FloorHalves(x, timeout);
      1 + Retries(2.0 * x, timeout - x)
  }

  lemma {:induction false} RetriesFit(x: real, timeout: real)
    requires x > 0.0 && timeout >= 0.0
    ensures Span(x, Retries(x, timeout)) <= timeout < Span(x, Retries(x, timeout) + 1)
    decreases Retries(x, timeout)
  {
    if timeout - x >= 0.0 {
      var n := Retries(2.0 * x, timeout - x);
      RetriesFit(2.0 * x, timeout - x);
      SpanStep(x, n);
      SpanStep(x, n + 1);
      hide Span;
    } else {
      assert Pow2(0) == 1 && Pow2(1) == 2;
    }
  }

  /** The number of tries is the only one that fits: `n` tries end by the timeout, and one more would not. */
  lemma RetriesUnique(x: real, timeout: real, n: nat)
    requires x > 0.0 && timeout >= 0.0
    ensures n == Retries(x, timeout) <==> Span(x, n) <= timeout < Span(x, n + 1)
  {
    RetriesFit(x, timeout);
    var m := Retries(x, timeout);
    hide Span, Retries;
    if n < m {
      SpanLess(x, n + 1, m);
    } else if n > m {
      SpanLess(x, m + 1, n);
    }
  }

  lemma SpanLess(x: real, j: nat, k: nat)
    requires x > 0.0 && j <= k
    ensures Span(x, j) <= Span(x, k)
  {
    if j < k {
      SpanMonotone(x, j, k);
    }
  }

  /** A non-positive first wait raises ValueError. */
  method Getnretrans(first: real, time: real) returns (r: Option<nat>)
    ensures r == if first <= 0.0 then None else Some(Retries(first, time))
  {
    if first <= 0.0 {
      return None;
    }
    var first_rert, timeout, n := first, time, 0;
    while true
      invariant first_rert > 0.0
      invariant Retries(first, time) == n + Retries(first_rert, timeout)
      decreases if timeout >= first_rert then (timeout / first_rert).Floor + 1 else 0
    {
      ghost var before := timeout;
      timeout := timeout - first_rert;
      if timeout < 0.0 {
        break;
      }
      FloorHalves(first_rert, before);
      first_rert := 2.0 * first_rert;
      n := n + 1;
    }
    return Some(n);
  }

  // ----- Requests -----

  datatype Outcome = Reply(text: string) | Nothing

  datatype Call = Call(outcome: Outcome, at: real)

  /** A pending request, and its history: the command, what it began with, when it was sent, when its callback was
      called, and whether one of its timers ran late. */
  datatype Req = Req(
    command: Command,
    next_retr: real, triesleft: int, retransmits: nat, stime: real, timer: Option<real>,
    first: real, nretr: int, sends: seq<real>, calls: seq<Call>, late: bool)

  /** A request's cookie is its number. */
  datatype Client = Client(pending: set<nat>, reqs: seq<Req>, lastval: real, worker: bool)

  /** What the caller asks for: the command's first letter, and how often to send if that is not to be reckoned. */
  datatype Command = Command(kind: char, nretr: Option<int>)

  datatype Action =
    | Send(c: Command, now: real)
    | Timer(cookie: nat, now: real, nested: seq<Command>)
    | Answer(cookie: nat, text: string, rtime: real, now: real, nested: seq<Command>, raises: bool)
    | Shutdown

  function Init(): Client {
    Client({}, [], 0.25, true)
  }

  function ExpTime(kind: char): real {
    if kind == 'I' then 10.0 else if kind == 'G' then 1.0 else 3.0
  }

  function Tries(c: Command, x: real): int {
    match c.nretr
    case Some(n) => n
    case None => if x > 0.0 then Retries(x, ExpTime(c.kind)) else 0
  }

  function NewReq(c: Command, x: real, n: int, now: real): Req {
    Req(c, x, n - 1, 0, now, Some(now + x), x, n, [now], [], false)
  }

  /** The check in `getnretrans` that can fail. */
  predicate CanSend(s: Client, c: Command) {
    s.worker && (c.nretr.Some? || s.lastval * 4.0 > 0.0)
  }

  function SendCommand(s: Client, c: Command, now: real): Client {
    if !CanSend(s, c) then s
    else
      var x := s.lastval * 4.0;
      s.(pending := s.pending + {|s.reqs|}, reqs := s.reqs + [NewReq(c, x, Tries(c, x), now)])
  }

  /** The commands that a callback sends. */
  function SendAll(s: Client, cs: seq<Command>, now: real): Client
    decreases |cs|
  {
    if cs == [] then s else SendAll(SendCommand(s, cs[0], now), cs[1..], now)
  }

  function Apply(lastval: real, x: real): real {
    0.05 * x + 0.95 * lastval
  }

  function GiveUp(p: Req, now: real): Req {
    p.(timer := None, calls := p.calls + [Call(Nothing, now)], late := p.late || p.timer != Some(now))
  }

  function TryAgain(p: Req, now: real): Req {
    p.(retransmits := p.retransmits + 1, next_retr := p.next_retr * 2.0, timer := Some(now + p.next_retr * 2.0),
       sends := p.sends + [now], triesleft := p.triesleft - 1, late := p.late || p.timer != Some(now))
  }

  predicate OutOfTries(s: Client, p: Req) {
    p.triesleft <= 0 || !s.worker
  }

  function Retransmit(s: Client, cookie: nat, now: real, nested: seq<Command>): Client
    requires cookie < |s.reqs|
  {
    var p := s.reqs[cookie];
    if OutOfTries(s, p) then
      SendAll(s.(pending := s.pending - {cookie}, reqs := s.reqs[cookie := GiveUp(p, now)]), nested, now)
    else
      s.(reqs := s.reqs[cookie := TryAgain(p, now)])
  }

  function Answered(p: Req, text: string, now: real): Req {
    p.(timer := None, calls := p.calls + [Call(Reply(text), now)])
  }

  /** An unknown cookie is ignored. The callback runs, and sends what it sends, before the delay is filtered; if it
      raises an exception, the delay is not. */
  function ProcessReply(s: Client, cookie: nat, text: string, rtime: real, now: real, nested: seq<Command>,
                        raises: bool): Client
  {
    if cookie !in s.pending || cookie >= |s.reqs| then s
    else
      var p := s.reqs[cookie];
      var s0 := s.(pending := s.pending - {cookie}, reqs := s.reqs[cookie := Answered(p, text, now)]);
      var s1 := SendAll(s0, nested, now);
      if !raises && p.retransmits == 0 then s1.(lastval := Apply(s1.lastval, rtime - p.stime)) else s1
  }

  /** Timers run at or after their due time and only while armed; a reply is read after the request it answers. */
  predicate Enabled(s: Client, a: Action) {
    match a
    case Send(_, _) => s.worker
    case Timer(cookie, now, _) =>
      && cookie in s.pending && cookie < |s.reqs|
      && s.reqs[cookie].timer.Some? && s.reqs[cookie].timer.value <= now
    case Answer(cookie, _, rtime, _, _, _) => cookie in s.pending && cookie < |s.reqs| ==> rtime > s.reqs[cookie].stime
    case Shutdown => true
  }

  function Step(s: Client, a: Action): Client
    requires Enabled(s, a)
  {
    match a
    case Send(c, now) => SendCommand(s, c, now)
    case Timer(cookie, now, nested) => Retransmit(s, cookie, now, nested)
    case Answer(cookie, text, rtime, now, nested, raises) => ProcessReply(s, cookie, text, rtime, now, nested, raises)
    case Shutdown => s.(worker := false)
  }

  ghost predicate IsRun(states: seq<Client>, actions: seq<Action>) {
    && |states| == |actions| + 1
    && forall k :: 0 <= k < |actions| ==> Enabled(states[k], actions[k]) && states[k + 1] == Step(states[k], actions[k])
  }

  // ----- What holds of every request -----

  function AtLeastOne(n: int): nat {
    if n >= 1 then n else 1
  }

  /** The time of the `k`-th send, and after the last one of giving up, if no timer is late. */
  function Planned(p: Req, k: nat): real {
    p.stime + Span(p.first, k)
  }

  /** A pending request has its timer armed, planned for the time when its tries so far are over. */
  ghost predicate WaitingOk(p: Req) {
    && p.calls == []
    && p.timer.Some? && p.timer.value >= Planned(p, p.retransmits + 1)
    && (!p.late ==> p.timer.value == Planned(p, p.retransmits + 1))
    && p.next_retr == p.first * Pow2(p.retransmits) as real
    && p.triesleft == p.nretr - 1 - p.retransmits
  }

  ghost predicate SentOk(p: Req) {
    && p.first > 0.0 && p.nretr == Tries(p.command, p.first)
    && |p.sends| == p.retransmits + 1 <= AtLeastOne(p.nretr)
    && forall k :: 0 <= k < |p.sends| ==> p.sends[k] >= Planned(p, k) && (!p.late ==> p.sends[k] == Planned(p, k))
  }

  /** A finished request has had its callback called once; it gave up after all its tries unless the worker stopped. */
  ghost predicate DoneOk(p: Req, worker: bool) {
    && |p.calls| == 1
    && (p.calls[0].outcome == Nothing && worker ==>
          && |p.sends| == AtLeastOne(p.nretr)
          && p.calls[0].at >= Planned(p, AtLeastOne(p.nretr))
          && (!p.late ==> p.calls[0].at == Planned(p, AtLeastOne(p.nretr))))
  }

  ghost predicate ReqOk(s: Client, cookie: nat)
    requires cookie < |s.reqs|
  {
    var p := s.reqs[cookie];
    SentOk(p) && if cookie in s.pending then WaitingOk(p) else DoneOk(p, s.worker)
  }

  ghost predicate Inv(s: Client) {
    && s.lastval > 0.0
    && (forall c :: c in s.pending ==> c < |s.reqs|)
    && (forall c :: 0 <= c < |s.reqs| ==> ReqOk(s, c))
  }

  lemma NewReqOk(c: Command, x: real, now: real)
    requires x > 0.0
    ensures SentOk(NewReq(c, x, Tries(c, x), now)) && WaitingOk(NewReq(c, x, Tries(c, x), now))
  {
    assert Pow2(0) == 1 && Pow2(1) == 2;
    assert Span(x, 0) == 0.0 && Span(x, 1) == x;
    hide Span;
  }

  lemma SendInv(s: Client, c: Command, now: real)
    requires Inv(s)
    ensures Inv(SendCommand(s, c, now)) && SendCommand(s, c, now).worker == s.worker
    ensures SendCommand(s, c, now).lastval == s.lastval
    ensures CanSend(s, c) <==> s.worker
  {
    var x := s.lastval * 4.0;
    var s' := SendCommand(s, c, now);
    NewReqOk(c, x, now);
    hide SentOk, WaitingOk, DoneOk, NewReq, Tries;
    forall k | 0 <= k < |s'.reqs| ensures ReqOk(s', k) {
      if k < |s.reqs| {
        assert ReqOk(s, k);
      }
    }
  }

  lemma {:induction false} SendAllInv(s: Client, cs: seq<Command>, now: real)
    requires Inv(s)
    ensures Inv(SendAll(s, cs, now)) && SendAll(s, cs, now).lastval == s.lastval
    decreases |cs|
  {
    hide Inv, SendCommand;
    if cs != [] {
      SendInv(s, cs[0], now);
      SendAllInv(SendCommand(s, cs[0], now), cs[1..], now);
    }
  }

  lemma NextPlan(p: Req)
    requires p.next_retr == p.first * Pow2(p.retransmits) as real
    ensures p.next_retr * 2.0 == p.first * Pow2(p.retransmits + 1) as real
    ensures Planned(p, p.retransmits + 2) == Planned(p, p.retransmits + 1) + p.next_retr * 2.0
  {
    SpanStep(p.first, p.retransmits + 1);
    var r := Pow2(p.retransmits) as real;
    assert Pow2(p.retransmits + 1) as real == 2.0 * r;
    assert (p.first * r) * 2.0 == p.first * (2.0 * r);
    hide Span, Pow2;
  }

  lemma TryAgainOk(p: Req, now: real)
    requires SentOk(p) && WaitingOk(p) && p.timer.value <= now && p.triesleft > 0
    ensures SentOk(TryAgain(p, now)) && WaitingOk(TryAgain(p, now))
  {
    hide Span, Pow2;
    NextPlan(p);
  }

  lemma GiveUpOk(p: Req, now: real, worker: bool)
    requires SentOk(p) && WaitingOk(p) && p.timer.value <= now && (p.triesleft <= 0 || !worker)
    ensures SentOk(GiveUp(p, now)) && DoneOk(GiveUp(p, now), worker)
  {
    hide Span, Pow2;
  }

  /** One request changes, none is added. */
  lemma ReqChanged(s: Client, cookie: nat, p: Req, pending: set<nat>)
    requires Inv(s) && cookie < |s.reqs| && cookie in s.pending
    requires pending == s.pending || pending == s.pending - {cookie}
    requires SentOk(p) && if cookie in pending then WaitingOk(p) else DoneOk(p, s.worker)
    ensures Inv(s.(pending := pending, reqs := s.reqs[cookie := p]))
  {
    var s' := s.(pending := pending, reqs := s.reqs[cookie := p]);
    hide SentOk, WaitingOk, DoneOk;
    forall k | 0 <= k < |s'.reqs| ensures ReqOk(s', k) {
      assert ReqOk(s, k);
    }
  }

  lemma TimerInv(s: Client, cookie: nat, now: real, nested: seq<Command>)
    requires Inv(s) && Enabled(s, Timer(cookie, now, nested))
    ensures Inv(Retransmit(s, cookie, now, nested))
  {
    var p := s.reqs[cookie];
    assert ReqOk(s, cookie);
    if OutOfTries(s, p) {
      GiveUpOk(p, now, s.worker);
      hide SentOk, WaitingOk, DoneOk, GiveUp;
      ReqChanged(s, cookie, GiveUp(p, now), s.pending - {cookie});
      SendAllInv(s.(pending := s.pending - {cookie}, reqs := s.reqs[cookie := GiveUp(p, now)]), nested, now);
    } else {
      TryAgainOk(p, now);
      hide SentOk, WaitingOk, DoneOk, TryAgain;
      ReqChanged(s, cookie, TryAgain(p, now), s.pending);
    }
  }

  lemma AnswerInv(s: Client, cookie: nat, text: string, rtime: real, now: real, nested: seq<Command>, raises: bool)
    requires Inv(s) && cookie in s.pending && rtime > s.reqs[cookie].stime
    ensures Inv(ProcessReply(s, cookie, text, rtime, now, nested, raises))
  {
    var p := s.reqs[cookie];
    assert ReqOk(s, cookie);
    var q := Answered(p, text, now);
    assert SentOk(q) && DoneOk(q, s.worker) by {
      hide Span, Pow2;
    }
    hide SentOk, WaitingOk, DoneOk, Answered;
    ReqChanged(s, cookie, q, s.pending - {cookie});
    var s0 := s.(pending := s.pending - {cookie}, reqs := s.reqs[cookie := q]);
    SendAllInv(s0, nested, now);
    var s1 := SendAll(s0, nested, now);
    hide SendAll;
    LastvalInv(s1, Apply(s1.lastval, rtime - p.stime));
  }

  lemma LastvalInv(s: Client, v: real)
    requires Inv(s)
    ensures v > 0.0 ==> Inv(s.(lastval := v))
  {
    hide SentOk, WaitingOk, DoneOk;
    var s' := s.(lastval := v);
    forall k | 0 <= k < |s'.reqs| ensures ReqOk(s', k) {
      assert ReqOk(s, k);
    }
  }

  lemma ShutdownInv(s: Client)
    requires Inv(s)
    ensures Inv(s.(worker := false))
  {
    hide SentOk, WaitingOk;
    var s' := s.(worker := false);
    forall k | 0 <= k < |s'.reqs| ensures ReqOk(s', k) {
      assert ReqOk(s, k);
    }
  }

  lemma StepInv(s: Client, a: Action)
    requires Inv(s) && Enabled(s, a)
    ensures Inv(Step(s, a))
  {
    match a {
      case Send(c, now) => SendInv(s, c, now);
      case Timer(cookie, now, nested) => TimerInv(s, cookie, now, nested);
      case Answer(cookie, text, rtime, now, nested, raises) =>
        if cookie in s.pending && cookie < |s.reqs| { AnswerInv(s, cookie, text, rtime, now, nested, raises); }
      case Shutdown => ShutdownInv(s);
    }
    hide Inv, SendCommand, Retransmit, ProcessReply;
  }

  lemma {:induction false} RunInv(states: seq<Client>, actions: seq<Action>, k: nat)
    requires IsRun(states, actions) && states[0] == Init() && k <= |actions|
    ensures Inv(states[k])
    decreases k
  {
    hide Step, Enabled;
    if k > 0 {
      RunInv(states, actions, k - 1);
      StepInv(states[k - 1], actions[k - 1]);
    }
  }

  // ----- Main results -----

  /** In every run, with replies, duplicates and timers in any order: the callback of a command that is no longer
      pending has been called once, that of a pending command not yet, and a pending command has a timer armed. */
  lemma CallbackExactlyOnce(states: seq<Client>, actions: seq<Action>, k: nat, cookie: nat)
    requires IsRun(states, actions) && states[0] == Init() && k <= |actions| && cookie < |states[k].reqs|
    ensures var p := states[k].reqs[cookie];
            if cookie in states[k].pending then p.calls == [] && p.timer.Some? else |p.calls| == 1
  {
    RunInv(states, actions, k);
    assert ReqOk(states[k], cookie);
    hide IsRun, Span, Pow2;
  }

  /** In every run a command goes out at most max(1, n) times, and each time no sooner than planned; while the worker
      runs it fails only after all of them, at x(2^max(1, n) - 1) after the request if no timer is late. Unless the
      command says how often to send, n is the number of tries that fits into its timeout T, and then the failure
      comes at the latest max(T, x) after the request. */
  lemma TriesAndTiming(states: seq<Client>, actions: seq<Action>, k: nat, cookie: nat)
    requires IsRun(states, actions) && states[0] == Init() && k <= |actions| && cookie < |states[k].reqs|
    ensures var p := states[k].reqs[cookie];
            var n := AtLeastOne(p.nretr);
            && p.first > 0.0
            && p.nretr == (match p.command.nretr
                           case Some(m) => m
                           case None => Retries(p.first, ExpTime(p.command.kind)))
            && 1 <= |p.sends| <= n
            && (forall j :: 0 <= j < |p.sends| ==> p.sends[j] >= p.stime + Span(p.first, j))
            && (forall j :: 0 <= j < |p.calls| && p.calls[j].outcome == Nothing && states[k].worker ==>
                              && |p.sends| == n
                              && p.calls[j].at >= p.stime + Span(p.first, n)
                              && (!p.late ==> p.calls[j].at == p.stime + Span(p.first, n))
                              && (!p.late && p.command.nretr.None? ==>
                                    p.calls[j].at <= p.stime + Larger(ExpTime(p.command.kind), p.first)))
  {
    RunInv(states, actions, k);
    assert ReqOk(states[k], cookie);
    var p := states[k].reqs[cookie];
    if p.command.nretr.None? {
      FailsInTime(p.command, p.first);
    }
    hide IsRun, Span, Pow2, Retries;
  }

  function Larger(a: real, b: real): real {
    if a >= b then a else b
  }

  /** A reckoned number of tries gives up within the timeout, or after the first wait where not even that fits. */
  lemma FailsInTime(c: Command, x: real)
    requires x > 0.0 && c.nretr.None?
    ensures var t := ExpTime(c.kind);
            Span(x, AtLeastOne(Tries(c, x))) <= Larger(t, x)
  {
    RetriesFit(x, ExpTime(c.kind));
    assert Pow2(1) == 2 && Span(x, 1) == x;
    hide Span;
  }

  /** The delay estimate stays positive, so that the check of `getnretrans` never fails. */
  lemma FilterStaysPositive(states: seq<Client>, actions: seq<Action>, k: nat, c: Command)
    requires IsRun(states, actions) && states[0] == Init() && k <= |actions|
    ensures states[k].lastval > 0.0
    ensures CanSend(states[k], c) <==> states[k].worker
  {
    RunInv(states, actions, k);
  }

  // ----- The objects -----

  class Recfilter {
    var lastval: real
    const a: real
    const b: real

    constructor (fcoef: real, initval: real)
      ensures a == 1.0 - fcoef && b == fcoef && lastval == initval
    {
      lastval, a, b := initval, 1.0 - fcoef, fcoef;
    }

    /** With weights between 0 and 1 the new value lies between the old value and the sample. */
    method ApplySample(x: real) returns (r: real)
      requires a == 1.0 - b && 0.0 <= b <= 1.0
      modifies this`lastval
      ensures r == lastval == a * x + b * old(lastval)
      ensures (x <= lastval <= old(lastval)) || (old(lastval) <= lastval <= x)
    {
      Between(x, lastval, b);
      lastval := a * x + b * lastval;
      r := lastval;
    }
  }

  lemma ProductSign(b: real, d: real)
    requires b >= 0.0
    ensures d >= 0.0 ==> b * d >= 0.0
    ensures d <= 0.0 ==> b * d <= 0.0
  {
  }

  lemma Between(x: real, y: real, b: real)
    requires 0.0 <= b <= 1.0
    ensures var r := (1.0 - b) * x + b * y;
            (x <= r <= y) || (y <= r <= x)
  {
    var r := (1.0 - b) * x + b * y;
    var d := y - x;
    assert r == x + b * d && r == y - (1.0 - b) * d;
    ProductSign(b, d);
    ProductSign(1.0 - b, d);
  }

  class RtpProxyClientUdp {
    var pending_requests: set<nat>
    var reqs: seq<Req>                    // every request object ever made, by cookie
    var worker: bool
    const delay_flt: Recfilter

    function View(): Client
      reads this, delay_flt
    {
      Client(pending_requests, reqs, delay_flt.lastval, worker)
    }

    ghost predicate Valid()
      reads this, delay_flt
    {
      delay_flt.a == 0.05 && delay_flt.b == 0.95 && Inv(View())
    }

    constructor ()
      ensures Valid() && View() == Init() && fresh(delay_flt)
    {
      pending_requests, reqs, worker := {}, [], true;
      delay_flt := new Recfilter(0.95, 0.25);
    }

    /** The delay filter's value is positive, so the number of tries can always be reckoned. */
    method SendOne(c: Command, now: real)
      requires Valid() && worker
      modifies this
      ensures Valid() && View() == SendCommand(old(View()), c, now)
    {
      SendInv(View(), c, now);
      var next_retr := delay_flt.lastval * 4.0;
      var exp_time := 3.0;
      if c.kind == 'I' {
        exp_time := 10.0;
      } else if c.kind == 'G' {
        exp_time := 1.0;
      }
      var nretr := c.nretr;
      if nretr.None? {
        nretr := Getnretrans(next_retr, exp_time);
      }
      reqs := reqs + [NewReq(c, next_retr, nretr.value, now)];
      pending_requests := pending_requests + {|reqs| - 1};
    }

    /** What a callback sends; without a worker sending is an error. */
    method RunCallback(nested: seq<Command>, now: real)
      requires Valid()
      modifies this
      ensures Valid() && View() == SendAll(old(View()), nested, now)
    {
      hide Inv, SendCommand;
      for i := 0 to |nested|
        invariant Valid() && SendAll(View(), nested[i..], now) == SendAll(old(View()), nested, now)
      {
        assert nested[i..][1..] == nested[i + 1..];
        if worker {
          SendOne(nested[i], now);
        } else {
          CannotSend(View(), nested[i], now);
        }
      }
    }

    method RetransmitOne(cookie: nat, now: real, nested: seq<Command>)
      requires Valid() && Enabled(View(), Timer(cookie, now, nested))
      modifies this
      ensures Valid() && View() == Retransmit(old(View()), cookie, now, nested)
    {
      TimerInv(View(), cookie, now, nested);
      var preq := reqs[cookie];
      if preq.triesleft <= 0 || !worker {
        assert ReqOk(View(), cookie);
        GiveUpOk(preq, now, worker);
        ReqChanged(View(), cookie, GiveUp(preq, now), pending_requests - {cookie});
        hide Inv;
        pending_requests := pending_requests - {cookie};
        reqs := reqs[cookie := GiveUp(preq, now)];
        RunCallback(nested, now);
        return;
      }
      reqs := reqs[cookie := TryAgain(preq, now)];
    }

    method ReadReply(cookie: nat, text: string, rtime: real, now: real, nested: seq<Command>, raises: bool)
      requires Valid() && Enabled(View(), Answer(cookie, text, rtime, now, nested, raises))
      modifies this, delay_flt
      ensures Valid() && View() == ProcessReply(old(View()), cookie, text, rtime, now, nested, raises)
    {
      if cookie !in pending_requests {
        return;
      }
      AnswerInv(View(), cookie, text, rtime, now, nested, raises);
      var preq := reqs[cookie];
      AnsweredInv(View(), cookie, text, now);
      hide Inv;
      pending_requests := pending_requests - {cookie};
      reqs := reqs[cookie := Answered(preq, text, now)];
      RunCallback(nested, now);
      if raises {
        return;
      }
      if preq.retransmits == 0 {
        var _ := delay_flt.ApplySample(rtime - preq.stime);
      }
    }
  }

  lemma CannotSend(s: Client, c: Command, now: real)
    requires !s.worker
    ensures SendCommand(s, c, now) == s
  {
  }

  lemma AnsweredInv(s: Client, cookie: nat, text: string, now: real)
    requires Inv(s) && cookie in s.pending
    ensures Inv(s.(pending := s.pending - {cookie}, reqs := s.reqs[cookie := Answered(s.reqs[cookie], text, now)]))
  {
    var p := s.reqs[cookie];
    assert ReqOk(s, cookie);
    var q := Answered(p, text, now);
    assert SentOk(q) && DoneOk(q, s.worker) by {
      hide Span, Pow2;
    }
    hide SentOk, WaitingOk, DoneOk, Answered;
    ReqChanged(s, cookie, q, s.pending - {cookie});
  }
}
