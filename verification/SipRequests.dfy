/** What each call of the TU, each timer and each provisional response of a client transaction puts on the wire, tells
    the TU and arms, in the steps of runs; and that the requests on the wire are exactly the recorded sends. */
module SipRequests {
  import opened Basics
  import opened TwoGeneration
  import opened SipTransactions
  import opened SipRuns
  import opened SipPackets
  import Server = ServerRuns
  import Client = ClientRuns

  lemma StepSo(states: seq<State>, inputs: seq<Input>, times: seq<real>, k: nat)
    requires IsRun(states, inputs, times) && k < |inputs|
    ensures Inv(states[k], 0, 0, Short("")) && Shape(states[k]) && Enabled(states[k], inputs[k], times[k])
    ensures Client.ClientTable(states[k])
    ensures states[k + 1] == StepAt(states[k].(clock := times[k]), inputs[k], times[k])
  {
    RunInv(states, inputs, times, k, 0, 0, Short(""));
    InvShape(states[k], 0, 0, Short(""));
    assert Next(states[k], inputs[k], times[k], states[k + 1]);
    hide StepAt, Permits;
  }

  /** The server side and the cache stay as they are, and of the transactions only `h` changes. */
  ghost predicate OnlyClient(s: State, s': State, h: nat) {
    && s'.tserver == s.tserver && s'.sobjs == s.sobjs && s'.strace == s.strace && s'.cache == s.cache
    && |s.cobjs| <= |s'.cobjs| && forall g :: 0 <= g < |s.cobjs| && g != h ==> s'.cobjs[g] == s.cobjs[g]
  }

  /** A request has just left for the first time. */
  predicate Begun(s: State, h: nat, key: ClientKey, now: real) {
    && h < |s.cobjs| && key in s.tclient && s.tclient[key] == h
    && var t := s.cobjs[h];
       && t.key == key && t.live && t.state == CTrying && t.sends == [now]
       && t.teA == Some(now + 0.5) && t.teB == Some(now + 32.0) && t.teC.None? && t.teG.None?
       && !t.uack && !t.cancelPending && t.ackSum.None?
  }

  // ----- Requests -----

  ghost predicate Asked(s: State, s': State, key: ClientKey, expires: Option<int>, hasCb: bool, now: real) {
    var h := |s.cobjs|;
    && s'.wire == s.wire + [Ask(key)] && s'.ctrace == s.ctrace && OnlyClient(s, s', h)
    && |s'.cobjs| == h + 1 && Begun(s', h, key, now) && s'.cobjs[h].hasCb == hasCb
    && s'.cobjs[h].expires == if key.verb != INVITE then 32.0
                              else if expires.Some? && expires.value > 0 then expires.value as real else 300.0
  }

  lemma NewClientAsks(s: State, key: ClientKey, expires: Option<int>, hasCb: bool, now: real, parent: Option<nat>)
    requires key !in s.tclient
    ensures Asked(s, NewClient(s, key, expires, hasCb, now, parent), key, expires, hasCb, now)
  {
  }

  /** In every run, a request under an unused key leaves at once; it is resent after half a second and given up after 32
      seconds, and what a provisional response will extend that to is the INVITE's `Expires`, or 300 seconds, and 32
      seconds for any other request. Under a used key nothing happens. */
  lemma RequestLeaves(states: seq<State>, inputs: seq<Input>, times: seq<real>, k: nat)
    requires IsRun(states, inputs, times) && k < |inputs| && inputs[k].StartClient?
    ensures var StartClient(key, expires, hasCb) := inputs[k];
            if key in states[k].tclient then states[k + 1] == states[k].(clock := times[k])
            else Asked(states[k], states[k + 1], key, expires, hasCb, times[k])
  {
    StepSo(states, inputs, times, k);
    hide IsRun, Inv, Enabled, Client.ClientTable, Shape;
    var StartClient(key, expires, hasCb) := inputs[k];
    if key !in states[k].tclient {
      var s := states[k].(clock := times[k]);
      NewClientAsks(s, key, expires, hasCb, times[k], None);
      hide NewClient;
      assert OnlyClient(states[k], states[k + 1], |s.cobjs|);
    }
  }

  // ----- Timers -----

  ghost predicate Fired(s: State, s': State, h: nat, timer: ClientTimer, now: real)
    requires h < |s.cobjs| && h < |s'.cobjs|
  {
    var (t, t') := (s.cobjs[h], s'.cobjs[h]);
    && OnlyClient(s, s', h) && |s'.cobjs| == |s.cobjs|
    && t'.key == t.key && t'.ackSum == t.ackSum && t'.cancelPending == t.cancelPending
    && s'.wire == s.wire + (if timer.TA? then [Ask(t.key)] else [])
    && t'.sends == t.sends + (if timer.TA? then [now] else [])
    && s'.ctrace == s.ctrace + (if timer.TB? && t.hasCb then [Told(h, 408, false)] else [])
    && match timer
       case TA => t'.teA == Some(now + 0.5 * Pow2(|t.sends|) as real) && t'.teB == t.teB && t'.state == t.state
       case TB => t'.live && t'.state == CTerminated && t'.teC == Some(now + 32.0) && t'.teA.None? && t'.teB.None?
       case TC => !t'.live && t.key !in s'.tclient
       case TG => t'.live && t'.teG.None? && t'.state == CUack
  }

  lemma TimerFires(s: State, h: nat, timer: ClientTimer, now: real)
    requires h < |s.cobjs| && Shape(s) && Client.TimerEnabled(s, h, timer, now) && Client.ClientTxnOk(s.cobjs[h])
    ensures Fired(s, StepAt(s, FireClient(h, timer), now), h, timer, now)
  {
    Client.TimerTells(s.cobjs[h]);
    if timer.TA? {
      Doubled(s.cobjs[h]);
    }
    hide Client.ClientTxnOk, Shape, Pow2;
    assert s.ctrace + [] == s.ctrace && s.wire + [] == s.wire && s.cobjs[h].sends + [] == s.cobjs[h].sends;
  }

  lemma Doubled(t: ClientTxn)
    requires Client.ClientTxnOk(t) && t.teA.Some?
    ensures 2.0 * t.tout == 0.5 * Pow2(|t.sends|) as real
  {
  }

  /** In every run: timer A sends the same request again and doubles the wait; timer B tells the TU 408, sends nothing
      and leaves the transaction in the table for 32 seconds; timer C takes it out; timer G just runs out. */
  lemma ClientTimersDo(states: seq<State>, inputs: seq<Input>, times: seq<real>, k: nat, h: nat)
    requires IsRun(states, inputs, times) && k < |inputs| && inputs[k].FireClient? && inputs[k].ch == h
    ensures h < |states[k].cobjs| && h < |states[k + 1].cobjs|
    ensures Fired(states[k], states[k + 1], h, inputs[k].ctimer, times[k])
  {
    StepSo(states, inputs, times, k);
    EnabledTimer(states[k], h, inputs[k].ctimer, times[k]);
    var s := states[k].(clock := times[k]);
    hide IsRun, Inv, Enabled, Client.ClientTable, StepAt, Client.TimerEnabled, Client.ClientTxnOk, Shape;
    ClockOnly(states[k], times[k]);
    hide Fired;
    TimerFires(s, h, inputs[k].ctimer, times[k]);
    FiredFrom(states[k], times[k], states[k + 1], h, inputs[k].ctimer);
  }

  lemma FiredFrom(s: State, now: real, s': State, h: nat, timer: ClientTimer)
    requires h < |s.cobjs| && h < |s'.cobjs| && Fired(s.(clock := now), s', h, timer, now)
    ensures Fired(s, s', h, timer, now)
  {
  }

  lemma ClockOnly(s: State, now: real)
    requires Shape(s)
    ensures Shape(s.(clock := now))
  {
  }

  lemma EnabledTimer(s: State, h: nat, timer: ClientTimer, now: real)
    requires Inv(s, 0, 0, Short("")) && Shape(s) && Enabled(s, FireClient(h, timer), now)
    ensures h < |s.cobjs| && Client.ClientTxnOk(s.cobjs[h]) && Client.TimerEnabled(s.(clock := now), h, timer, now)
  {
    hide Server.Inv, Client.ClientTxnOk, Client.ClientTable, Client.Branches, Client.Story;
  }

  // ----- Cancelling -----

  /** What the TU's `Cancel` does at once, later, or not at all. */
  ghost predicate Cancelled(s: State, s': State, h: nat, now: real)
    requires h < |s.cobjs|
  {
    var key := CancelKey(s.cobjs[h].key);
    if s.cobjs[h].state != CRinging then
      && s'.wire == s.wire && s'.ctrace == s.ctrace && OnlyClient(s, s', h)
      && s'.cobjs == s.cobjs[h := s.cobjs[h].(cancelPending := true)]
    else if key in s.tclient then s' == s.(clock := s'.clock)
    else
      && s'.wire == s.wire + [Ask(key)] && s'.ctrace == s.ctrace + [CancelSent(h, false)]
      && OnlyClient(s, s', |s.cobjs|) && |s'.cobjs| == |s.cobjs| + 1
      && Begun(s', |s.cobjs|, key, now) && s'.cobjs[|s.cobjs|].parent == Some(h) && !s'.cobjs[|s.cobjs|].hasCb
  }

  lemma CancelDoes(s: State, h: nat, now: real)
    requires h < |s.cobjs| && Shape(s)
    ensures Cancelled(s, StepAt(s, Cancel(h), now), h, now)
  {
    hide Shape;
  }

  /** In every run, a cancelled request that rings is followed by its CANCEL at once, on the same branch, unless that is
      still under way; before it rings, only the wish is noted. */
  lemma CancelLeaves(states: seq<State>, inputs: seq<Input>, times: seq<real>, k: nat, h: nat)
    requires IsRun(states, inputs, times) && k < |inputs| && inputs[k] == Cancel(h)
    ensures h < |states[k].cobjs| && Cancelled(states[k], states[k + 1], h, times[k])
    ensures CancelKey(states[k].cobjs[h].key).branch == states[k].cobjs[h].key.branch
    ensures CancelKey(states[k].cobjs[h].key).verb == CANCEL
  {
    StepSo(states, inputs, times, k);
    assert h < |states[k].cobjs|;
    hide IsRun, Inv, Enabled, Client.ClientTable, StepAt, Shape, Begun;
    var s := states[k].(clock := times[k]);
    ClockOnly(states[k], times[k]);
    CancelDoes(s, h, times[k]);
  }

  // ----- Provisional responses -----

  ghost predicate Rings(s: State, s': State, h: nat, code: int, now: real)
    requires h < |s.cobjs| && h < |s'.cobjs|
  {
    var (t, t') := (s.cobjs[h], s'.cobjs[h]);
    var cancels := t.state == CTrying && t.cancelPending;
    && s'.wire == s.wire + (if cancels then [Ask(CancelKey(t.key))] else [])
    && s'.ctrace == s.ctrace + [Provisional(h)] + (if cancels then [CancelSent(h, true)] else [])
                    + (if t.hasCb then [Told(h, code, false)] else [])
    && t'.live && t'.state == CRinging && t'.key == t.key && t'.sends == t.sends && t'.hasCb == t.hasCb
    && t'.rung == Some(now) && t'.teA.None? && t'.teB == Some(now + t.expires) && t'.expires == t.expires
    && t'.uack == t.uack && t'.cancelPending == (t.cancelPending && !cancels)
    && |s.cobjs| <= |s'.cobjs| && forall g :: 0 <= g < |s.cobjs| && g != h ==> s'.cobjs[g] == s.cobjs[g]
  }

  lemma ProvisionalRings(s: State, h: nat, d: Datagram, now: real)
    requires h < |s.cobjs| && d.Response? && Client.Undecided(s.cobjs[h])
    requires s.cobjs[h].state == CTrying && s.cobjs[h].cancelPending ==> CancelKey(s.cobjs[h].key) !in s.tclient
    requires Client.ClientTxnOk(s.cobjs[h])
    ensures h < |ProvisionalResponse(s, h, d, now).cobjs|
    ensures var s' := ProvisionalResponse(s, h, d, now);
            && Rings(s, s', h, d.code, now) && d in s'.cache.cur && s'.cache.cur[d] == None
  {
    assert s.cobjs[h].state == CRinging ==> s.cobjs[h].teA.None?;
    hide Client.ClientTxnOk;
    assert forall e: seq<ClientEvent> :: e + [] == e;
    assert s.wire + [] == s.wire;
  }

  /** In every run, a provisional response is told to the TU as it is, and stops the resending; the request is given up
      `expires` after the response, and a CANCEL that was put off leaves now, once. */
  lemma ProvisionalResponseRings(states: seq<State>, inputs: seq<Input>, times: seq<real>, k: nat, h: nat)
    requires IsRun(states, inputs, times) && k < |inputs| && Arrives(states[k], inputs[k], h) && inputs[k].d.code < 200
    ensures h < |states[k + 1].cobjs| && Rings(states[k], states[k + 1], h, inputs[k].d.code, times[k])
    ensures inputs[k].d in states[k + 1].cache.cur && states[k + 1].cache.cur[inputs[k].d] == None
  {
    ArrivesSo(states, inputs, times, k, h);
    RunInv(states, inputs, times, k, 0, h, Short(""));
    assert Client.ClientTxnOk(states[k].cobjs[h]);
    if states[k].cobjs[h].state == CTrying && states[k].cobjs[h].cancelPending {
      CancelNotSentYet(states[k], h);
    }
    hide IsRun, Inv, Client.ClientTxnOk, Arrives, Rings, ProvisionalResponse, FinalResponse;
    var s := states[k].(clock := times[k]);
    assert s.cobjs == states[k].cobjs && s.tclient == states[k].tclient;
    assert IncomingResponse(s, h, inputs[k].d, inputs[k].tu.Raised?, times[k])
           == ProvisionalResponse(s, h, inputs[k].d, times[k]);
    ProvisionalRings(s, h, inputs[k].d, times[k]);
    RingsFrom(states[k], times[k], states[k + 1], h, inputs[k].d.code);
  }

  lemma RingsFrom(s: State, now: real, s': State, h: nat, code: int)
    requires h < |s.cobjs| && h < |s'.cobjs| && Rings(s.(clock := now), s', h, code, now)
    ensures Rings(s, s', h, code, now)
  {
  }

  /** In every run, nothing that comes for a decided transaction is told or answered. */
  lemma LateResponse(states: seq<State>, inputs: seq<Input>, times: seq<real>, k: nat, h: nat)
    requires IsRun(states, inputs, times) && k < |inputs| && inputs[k].Receive? && inputs[k].d.Response?
    requires h < |states[k].cobjs| && inputs[k].d.key == states[k].cobjs[h].key && states[k].cobjs[h].live
    requires !Client.Undecided(states[k].cobjs[h])
    requires Lookup(states[k].cache, inputs[k].d).None? && 100 <= inputs[k].d.code <= 999
    ensures states[k + 1] == states[k].(clock := times[k])
  {
    StepSo(states, inputs, times, k);
    hide IsRun, Inv, Enabled, IncomingResponse, IncomingRequest, Lookup, Client.ClientTable;
    ClockOnly(states[k], times[k]);
    SameTable(states[k], times[k]);
    var s := states[k].(clock := times[k]);
    ResponseReaches(s, h, inputs[k].d, inputs[k].tu, inputs[k].gen, times[k]);
    Deaf(s, h, inputs[k].d, inputs[k].tu.Raised?, times[k]);
  }

  lemma Deaf(s: State, h: nat, d: Datagram, raises: bool, now: real)
    requires h < |s.cobjs| && d.Response? && (s.cobjs[h].state == CTerminated || s.cobjs[h].state == CUack)
    ensures IncomingResponse(s, h, d, raises, now) == s
  {
  }
}
