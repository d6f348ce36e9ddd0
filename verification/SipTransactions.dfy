/** The transaction layer of `sippy/SipTransactionManager.py` on values: what one datagram, one timer or one
    call of the transaction user (TU) does to the whole manager.

    A transaction object is a record that is found through its handle, its index in `sobjs` or `cobjs`, and the
    tables map keys to handles as the source's dictionaries map them to objects. The checksum is injective, so
    the reply cache is keyed by the datagram itself. */
module SipTransactions {
  import opened Basics
  import opened TwoGeneration

  // ----- Messages -----

  datatype Method = INVITE | ACK | CANCEL | Other(name: string)

  datatype Dialog = Dialog(callId: string, fromTag: Option<string>, cseq: nat)

  /** Server transactions are keyed by the Via branch until the final response to INVITE, by the To tag after it. */
  datatype ServerKey = ServerKey(dialog: Dialog, last: Option<string>)

  datatype ClientKey = ClientKey(dialog: Dialog, verb: Method, branch: Option<string>)

  /** A request that is `cut` lacks a part of the body that its Content-Length announces. */
  datatype Datagram =
    | Short(bytes: string)
    | Malformed(bytes: string, cut: bool)
    | Request(verb: Method, csVerb: Method, dialog: Dialog, branch: Option<string>,
              moreBranches: seq<Option<string>>, toTag: Option<string>, expires: Option<int>, bytes: string)
    | Response(code: int, key: ClientKey, toTag: Option<string>, bytes: string)

  /** What the manager puts on the wire. */
  datatype Packet =
    | Ask(key: ClientKey)
    | Confirm(key: ClientKey, toTag: Option<string>)
    | Answer(code: int, request: Datagram, toTag: Option<string>)

  // ----- Transactions -----

  datatype ServerState = STrying | SRinging | SCompleted | SConfirmed

  /** A timer is the time at which it is due as long as it is armed. `live` says that the table leads to the
      transaction. `origin`, `born` and `sends` record history: the request, when it came, and when the final response
      to an INVITE left, first by the TU's call and then by timer A. */
  datatype ServerTxn = ServerTxn(
    key: ServerKey, state: ServerState, data: Option<Packet>, tout: real,
    teA: Option<real>, teD: Option<real>, teE: Option<real>, teF: Option<real>,
    cancelCb: bool, noackCb: bool, ackCb: bool, live: bool,
    origin: Datagram, born: real, sends: seq<real>)

  datatype ClientState = CTrying | CRinging | CTerminated | CUack

  /** `sends` records when the request left, `rung` when the last provisional response came; `parent` is the INVITE
      that a CANCEL cancels. */
  datatype ClientTxn = ClientTxn(
    key: ClientKey, state: ClientState, tout: real, expires: real,
    teA: Option<real>, teB: Option<real>, teC: Option<real>, teG: Option<real>,
    cancelPending: bool, uack: bool, hasCb: bool, live: bool,
    ackSum: Option<Datagram>, ackTag: Option<string>, sends: seq<real>, rung: Option<real>, parent: Option<nat>)

  /** What an observer of the server side sees: requests handed to the TU, final responses, those that went past
      their transaction, TU callbacks, purges. */
  datatype ServerEvent =
    | Handed(d: Datagram)
    | Final(h: nat, d: Datagram)
    | Refused(h: nat)
    | CancelCb(h: nat)
    | AckCb(h: nat)
    | NoAckCb(h: nat)
    | Purged

  /** What an observer of the client side sees: provisional responses, CANCEL requests, what the TU was told, and
      whether its callback raised and kept the transaction from being removed. */
  datatype ClientEvent =
    | Provisional(h: nat)
    | CancelSent(h: nat, deferred: bool)
    | Told(h: nat, code: int, raised: bool)

  datatype State = State(
    tserver: map<ServerKey, nat>, sobjs: seq<ServerTxn>,
    tclient: map<ClientKey, nat>, cobjs: seq<ClientTxn>,
    cache: Cache<Datagram, Option<Packet>>,
    provRetr: real, clock: real, wire: seq<Packet>,
    strace: seq<ServerEvent>, ctrace: seq<ClientEvent>)

  /** Table entries point at objects that exist. */
  ghost predicate Shape(s: State) {
    && (forall k :: k in s.tserver ==> s.tserver[k] < |s.sobjs|)
    && (forall k :: k in s.tclient ==> s.tclient[k] < |s.cobjs|)
  }

  function Init(provRetr: real, clock: real): State {
    State(map[], [], map[], [], Cache(map[], map[]), provRetr, clock, [], [], [])
  }

  // ----- Transmission -----

  function Log(s: State, e: ServerEvent): State {
    s.(strace := s.strace + [e])
  }

  function LogClient(s: State, e: ClientEvent): State {
    s.(ctrace := s.ctrace + [e])
  }

  function Remember(s: State, d: Datagram, entry: Option<Packet>): State {
    s.(cache := Store(s.cache, d, entry))
  }

  function Send(s: State, p: Packet): State {
    s.(wire := s.wire + [p])
  }

  /** `transmitData` with a checksum: what is sent also answers byte-identical datagrams later. */
  function Transmit(s: State, p: Packet, d: Datagram): State {
    Remember(Send(s, p), d, Some(p))
  }

  // ----- Server transactions -----

  predicate Open(t: ServerTxn) {
    t.state == STrying || t.state == SRinging
  }

  function BranchKey(d: Datagram): ServerKey
    requires d.Request?
  {
    ServerKey(d.dialog, d.branch)
  }

  function LookupKey(d: Datagram): ServerKey
    requires d.Request?
  {
    ServerKey(d.dialog, if d.verb == ACK then d.toTag else d.branch)
  }

  /** The `Expires` header, or 300 seconds when it is missing or not positive. */
  function Expiry(expires: Option<int>): (e: real)
    ensures e >= 1.0
  {
    match expires
    case None => 300.0
    case Some(e) => if e <= 0 then 300.0 else e as real
  }

  /** A response of the TU; `gen` is the tag that `genTag` would draw. */
  datatype Reply = Reply(code: int, tag: Option<string>, gen: string, ackCb: bool)

  function ToTag(r: Reply): Option<string> {
    if r.code > 100 && r.tag.None? then Some(r.gen) else r.tag
  }

  function ProvisionalTxn(t: ServerTxn, pkt: Packet, code: int, provRetr: real, now: real): ServerTxn {
    t.(data := Some(pkt), state := SRinging,
       teF := if provRetr > 0.0 && code > 100 then Some(now + provRetr) else t.teF)
  }

  /** The final response to INVITE: timer D for the ACK, timer A for resends, and the move to the To-tag key. */
  function CompletedTxn(t: ServerTxn, pkt: Packet, key: ServerKey, ackCb: bool, now: real): ServerTxn {
    t.(key := key, data := Some(pkt), state := SCompleted, teE := None, teF := None, ackCb := ackCb,
       teD := Some(now + 32.0), tout := 0.5, teA := Some(now + 0.5), sends := [now])
  }

  function Provisionally(s: State, h: nat, r: Reply, now: real): State
    requires h < |s.sobjs|
  {
    var t := s.sobjs[h];
    var pkt := Answer(r.code, t.origin, ToTag(r));
    Transmit(s, pkt, t.origin).(sobjs := s.sobjs[h := ProvisionalTxn(t, pkt, r.code, s.provRetr, now)])
  }

  function NewKey(t: ServerTxn, r: Reply): ServerKey {
    ServerKey(t.key.dialog, ToTag(r))
  }

  function FinallyInvite(s: State, h: nat, r: Reply, now: real): State
    requires h < |s.sobjs|
  {
    var t := s.sobjs[h];
    var pkt := Answer(r.code, t.origin, ToTag(r));
    Log(Transmit(s, pkt, t.origin).(
          tserver := (s.tserver - {t.key})[NewKey(t, r) := h],
          sobjs := s.sobjs[h := CompletedTxn(t, pkt, NewKey(t, r), r.ackCb, now)]),
        Final(h, t.origin))
  }

  function FinallyOther(s: State, h: nat, r: Reply): State
    requires h < |s.sobjs|
  {
    var t := s.sobjs[h];
    var pkt := Answer(r.code, t.origin, ToTag(r));
    Log(Transmit(s, pkt, t.origin).(
          tserver := s.tserver - {t.key},
          sobjs := s.sobjs[h := Cleaned(t.(data := Some(pkt), state := SCompleted, teE := None, teF := None))]),
        Final(h, t.origin))
  }

  /** `sendResponse` on a transaction object; a finished transaction raises and changes nothing. */
  function Respond(s: State, h: nat, r: Reply, retrans: bool, now: real): State
    requires h < |s.sobjs|
  {
    if !Open(s.sobjs[h]) && !retrans then s
    else if r.code < 200 then Provisionally(s, h, r, now)
    else if IsInvite(s.sobjs[h]) then FinallyInvite(s, h, r, now)
    else FinallyOther(s, h, r)
  }

  predicate IsInvite(t: ServerTxn) {
    t.origin.Request? && t.origin.verb == INVITE
  }

  /** `cleanup` forgets the callbacks and the timers; a timer that is armed stays so. */
  function Cleaned(t: ServerTxn): ServerTxn {
    t.(live := false, cancelCb := false, noackCb := false, ackCb := false)
  }

  function DropServer(s: State, h: nat): State
    requires h < |s.sobjs|
  {
    s.(tserver := s.tserver - {s.sobjs[h].key}, sobjs := s.sobjs[h := Cleaned(s.sobjs[h])])
  }

  /** A call of `sendResponse` by the TU, which names the transaction by the response's branch. */
  datatype TuCall = TuCall(key: ServerKey, reply: Reply)

  function TuRespond(s: State, call: TuCall, now: real): State
    requires Shape(s)
  {
    if call.key in s.tserver then Respond(s, s.tserver[call.key], call.reply, false, now) else s
  }

  /** What the TU does with a new request: the calls it makes from inside the callback, and how it ends. For an
      `RtpProxyError` or `SdpParseError` the manager itself makes the last of the calls; a `SipParseError` may carry
      the code of a `refusal`, which the manager sends past the transaction. */
  datatype TuReaction =
    | NoTu
    | Returned(calls: seq<TuCall>, ret: Option<TuReturn>)
    | Raised(calls: seq<TuCall>, refusal: Option<int>)

  datatype TuReturn = TuReturn(reply: Option<Reply>, cancelCb: bool, noackCb: bool)

  ghost function TuCalls(s: State, calls: seq<TuCall>, now: real): State
    requires Shape(s)
    decreases |calls|
  {
    if calls == [] then s else
      var s1 := TuRespond(s, calls[0], now);
      RespondShape(s, calls[0], now);
      TuCalls(s1, calls[1..], now)
  }

  lemma RespondShape(s: State, call: TuCall, now: real)
    requires Shape(s)
    ensures Shape(TuRespond(s, call, now))
    ensures |TuRespond(s, call, now).sobjs| == |s.sobjs|
  {
  }

  lemma {:induction false} TuCallsShape(s: State, calls: seq<TuCall>, now: real)
    requires Shape(s)
    ensures Shape(TuCalls(s, calls, now)) && |TuCalls(s, calls, now).sobjs| == |s.sobjs|
    decreases |calls|
  {
    if calls != [] {
      RespondShape(s, calls[0], now);
      TuCallsShape(TuRespond(s, calls[0], now), calls[1..], now);
    }
  }

  /** The end of `incomingRequest`, after the TU has returned. */
  function FinishHandover(s: State, h: nat, ret: Option<TuReturn>, now: real): State
    requires h < |s.sobjs|
  {
    var t := s.sobjs[h];
    match ret
    case None =>
      if t.live && (t.teA.Some? || t.teD.Some? || t.teE.Some? || t.teF.Some?) then s
      else if t.live then DropServer(s, h)
      else s.(sobjs := s.sobjs[h := Cleaned(t)])
    case Some(r) =>
      var s1 := s.(sobjs := s.sobjs[h := t.(cancelCb := r.cancelCb, noackCb := r.noackCb)]);
      if r.reply.Some? then Respond(s1, h, r.reply.value, false, now) else s1
  }

  function NewServerTxn(d: Datagram, now: real): ServerTxn
    requires d.Request?
  {
    ServerTxn(BranchKey(d), STrying, None, 0.5, None, None,
              if d.verb == INVITE then Some(now + Expiry(d.expires)) else None, None,
              false, false, false, true, d, now, [])
  }

  function AddServer(s: State, d: Datagram, now: real): State
    requires d.Request?
  {
    s.(tserver := s.tserver[BranchKey(d) := |s.sobjs|], sobjs := s.sobjs + [NewServerTxn(d, now)])
  }

  ghost function HandOver(s: State, d: Datagram, tu: TuReaction, now: real): State
    requires d.Request? && Shape(s)
  {
    var h := |s.sobjs|;
    var s1 := AddServer(s, d, now);
    match tu
    case NoTu => Remember(s1, d, None)
    case Returned(calls, ret) =>
      TuCallsShape(Log(s1, Handed(d)), calls, now);
      FinishHandover(TuCalls(Log(s1, Handed(d)), calls, now), h, ret, now)
    case Raised(calls, refusal) => Refuse(TuCalls(Log(s1, Handed(d)), calls, now), h, d, refusal)
  }

  function Refuse(s: State, h: nat, d: Datagram, refusal: Option<int>): State
    requires d.Request?
  {
    if refusal.Some? then Log(Transmit(s, Answer(refusal.value, d, d.toTag), d), Refused(h)) else s
  }

  /** `doCancel`: the 487 that was prepared from the request, then the TU's cancel callback. */
  function DoCancel(s: State, h: nat, gen: string, now: real): State
    requires h < |s.sobjs|
  {
    var t := s.sobjs[h];
    var s1 := if IsInvite(t) then Respond(s, h, Reply(487, t.origin.toTag, gen, false), true, now) else s;
    if t.cancelCb then Log(s1, CancelCb(h)) else s1
  }

  /** The ACK of a completed INVITE. Without a timer D to cancel the source raises; a callback that raises leaves
      before the cleanup. */
  function Acked(s: State, h: nat, d: Datagram, raises: bool): State
    requires h < |s.sobjs|
  {
    var t := s.sobjs[h].(state := SConfirmed, teA := None);
    if t.teD.None? then s.(sobjs := s.sobjs[h := t])
    else
      var t1 := t.(teD := None, live := false);
      var s1 := s.(tserver := s.tserver - {t.key}, strace := s.strace + (if t.ackCb then [AckCb(h)] else []));
      if t.ackCb && raises then s1.(sobjs := s.sobjs[h := t1])
      else Remember(s1.(sobjs := s.sobjs[h := Cleaned(t1)]), d, None)
  }

  /** A request whose key is in the table: a duplicate, a CANCEL or an ACK. */
  function Matched(s: State, h: nat, d: Datagram, raises: bool, gen: string, now: real): State
    requires h < |s.sobjs| && d.Request?
  {
    var t := s.sobjs[h];
    if t.origin.Request? && d.verb == t.origin.verb then
      if t.data.Some? then Transmit(s, t.data.value, d) else s
    else if d.verb == CANCEL then
      var s1 := Transmit(s, Answer(200, d, d.toTag), d);
      if Open(t) then DoCancel(s1, h, gen, now) else s1
    else if d.verb == ACK && t.state == SCompleted then Acked(s, h, d, raises)
    else s
  }

  predicate LoopDetected(s: State, d: Datagram)
    requires d.Request?
  {
    exists b :: b in [d.branch] + d.moreBranches && ClientKey(d.dialog, d.csVerb, b) in s.tclient
  }

  /** A callback of a known transaction raises or returns; `tu` tells, too, what happens to it. */
  ghost function IncomingRequest(s: State, d: Datagram, tu: TuReaction, gen: string, now: real): State
    requires d.Request? && Shape(s)
  {
    if LoopDetected(s, d) then Transmit(s, Answer(482, d, d.toTag), d)
    else if LookupKey(d) in s.tserver then Matched(s, s.tserver[LookupKey(d)], d, tu.Raised?, gen, now)
    else if d.verb == ACK then Remember(s, d, None)
    else if d.verb == CANCEL then Transmit(s, Answer(481, d, d.toTag), d)
    else HandOver(s, d, tu, now)
  }

  function ServerTimerA(s: State, h: nat, now: real): State
    requires h < |s.sobjs|
  {
    var t := s.sobjs[h];
    s.(wire := s.wire + (if t.data.Some? then [t.data.value] else []),
       sobjs := s.sobjs[h := t.(tout := 2.0 * t.tout, teA := Some(now + 2.0 * t.tout), sends := t.sends + [now])])
  }

  /** A callback that raises leaves before the transaction is removed. */
  function TimerD(s: State, h: nat, raises: bool): State
    requires h < |s.sobjs|
  {
    var t := s.sobjs[h].(teD := None, teA := None);
    var calls := t.noackCb && t.state != SConfirmed;
    var s1 := s.(sobjs := s.sobjs[h := t], strace := s.strace + (if calls then [NoAckCb(h)] else []));
    if calls && raises then s1 else DropServer(s1, h)
  }

  function TimerE(s: State, h: nat, gen: string, now: real): State
    requires h < |s.sobjs|
  {
    var t := s.sobjs[h];
    var s1 := s.(sobjs := s.sobjs[h := t.(teE := None, teF := None)]);
    if Open(t) then DoCancel(s1, h, gen, now) else s1
  }

  function TimerF(s: State, h: nat, now: real): State
    requires h < |s.sobjs|
  {
    var t := s.sobjs[h];
    if t.state == SRinging && s.provRetr > 0.0 then
      s.(wire := s.wire + (if t.data.Some? then [t.data.value] else []),
         sobjs := s.sobjs[h := t.(teF := Some(now + s.provRetr))])
    else s.(sobjs := s.sobjs[h := t.(teF := None)])
  }

  // ----- Client transactions -----

  function NewClientTxn(key: ClientKey, expires: Option<int>, hasCb: bool, now: real, parent: Option<nat>): ClientTxn {
    ClientTxn(key, CTrying, 0.5, if key.verb == INVITE then Expiry(expires) else 32.0,
              Some(now + 0.5), Some(now + 32.0), None, None, false, false, hasCb, true, None, None, [now], None, parent)
  }

  /** `newTransaction`; a key that is in use raises and changes nothing. */
  function NewClient(s: State, key: ClientKey, expires: Option<int>, hasCb: bool, now: real,
                     parent: Option<nat>): State {
    if key in s.tclient then s
    else Send(s.(tclient := s.tclient[key := |s.cobjs|],
                 cobjs := s.cobjs + [NewClientTxn(key, expires, hasCb, now, parent)]), Ask(key))
  }

  function CancelKey(key: ClientKey): ClientKey {
    key.(verb := CANCEL)
  }

  function StartCancel(s: State, h: nat, now: real, deferred: bool): State
    requires h < |s.cobjs|
  {
    var key := CancelKey(s.cobjs[h].key);
    if key in s.tclient then s
    else LogClient(NewClient(s, key, None, false, now, Some(h)), CancelSent(h, deferred))
  }

  /** `cancelTransaction`: at once when a provisional response has come, deferred otherwise. */
  function CancelClient(s: State, h: nat, now: real): State
    requires h < |s.cobjs|
  {
    var t := s.cobjs[h];
    if t.state != CRinging then s.(cobjs := s.cobjs[h := t.(cancelPending := true)])
    else StartCancel(s, h, now, false)
  }

  /** `cleanup`, as on the server's side. */
  function Dropped(t: ClientTxn): ClientTxn {
    t.(live := false, hasCb := false)
  }

  function DropClient(s: State, h: nat): State
    requires h < |s.cobjs|
  {
    s.(tclient := s.tclient - {s.cobjs[h].key}, cobjs := s.cobjs[h := Dropped(s.cobjs[h])])
  }

  function Tell(s: State, h: nat, code: int, raised: bool): State
    requires h < |s.cobjs|
  {
    if s.cobjs[h].hasCb then LogClient(s, Told(h, code, raised)) else s
  }

  /** A response in TRYING stops timers A and B, in RINGING timer B. */
  function Stopped(t: ClientTxn): ClientTxn {
    t.(teA := if t.state == CTrying then None else t.teA, teB := None)
  }

  function ProvisionalResponse(s: State, h: nat, d: Datagram, now: real): State
    requires h < |s.cobjs| && d.Response?
  {
    var t := s.cobjs[h];
    var s1 := LogClient(s.(cobjs := s.cobjs[h := Stopped(t).(state := CRinging, rung := Some(now))]), Provisional(h));
    if t.state == CTrying && t.cancelPending && CancelKey(t.key) in s.tclient then
      s1                                           // newTransaction raises before timer B is set again
    else
      var s2 := if t.state == CTrying && t.cancelPending then StartCancel(s1, h, now, true) else s1;
      var t2 := s2.cobjs[h];
      var s3 := s2.(cobjs := s2.cobjs[h := t2.(cancelPending := t2.cancelPending && t.state != CTrying,
                                               teB := Some(now + t.expires))]);
      Tell(Remember(s3, d, None), h, d.code, false)
  }

  /** The TU wants to send the ACK itself. */
  function UackTxn(t: ClientTxn, d: Datagram, now: real): ClientTxn
    requires d.Response?
  {
    Stopped(t).(state := CUack, teG := Some(now + 64.0), ackSum := Some(d), ackTag := d.toTag)
  }

  /** A callback that raises leaves before the transaction is removed. */
  function FinalResponse(s: State, h: nat, d: Datagram, raises: bool, now: real): State
    requires h < |s.cobjs| && d.Response?
  {
    var t := s.cobjs[h];
    if t.key.verb == INVITE && t.uack then
      Tell(Remember(s.(cobjs := s.cobjs[h := UackTxn(t, d, now)]), d, None), h, d.code, false)
    else
      var s1 := s.(cobjs := s.cobjs[h := Stopped(t)]);
      var s2 := if t.key.verb == INVITE then Transmit(s1, Confirm(t.key, d.toTag), d) else Remember(s1, d, None);
      var s3 := Tell(s2, h, d.code, raises);
      if t.hasCb && raises then s3 else DropClient(s3, h)
  }

  function IncomingResponse(s: State, h: nat, d: Datagram, raises: bool, now: real): State
    requires h < |s.cobjs| && d.Response?
  {
    if s.cobjs[h].state == CTerminated || s.cobjs[h].state == CUack then s
    else if d.code < 200 then ProvisionalResponse(s, h, d, now)
    else FinalResponse(s, h, d, raises, now)
  }

  function SendAck(s: State, h: nat): State
    requires h < |s.cobjs|
  {
    var t := s.cobjs[h];
    var s1 := s.(cobjs := s.cobjs[h := t.(teG := None)]);
    var s2 := if t.ackSum.Some? then Transmit(s1, Confirm(t.key, t.ackTag), t.ackSum.value) else s1;
    DropClient(s2, h)
  }

  function ClientTimerA(s: State, h: nat, now: real): State
    requires h < |s.cobjs|
  {
    var t := s.cobjs[h];
    Send(s.(cobjs := s.cobjs[h := t.(tout := 2.0 * t.tout, teA := Some(now + 2.0 * t.tout), sends := t.sends + [now])]),
         Ask(t.key))
  }

  function TimerB(s: State, h: nat, now: real): State
    requires h < |s.cobjs|
  {
    var t := s.cobjs[h];
    Tell(s.(cobjs := s.cobjs[h := t.(teB := None, teA := None, state := CTerminated, teC := Some(now + 32.0))]), h, 408,
         false)
  }

  function TimerC(s: State, h: nat): State
    requires h < |s.cobjs|
  {
    DropClient(s.(cobjs := s.cobjs[h := s.cobjs[h].(teC := None)]), h)
  }

  function TimerG(s: State, h: nat): State
    requires h < |s.cobjs|
  {
    s.(cobjs := s.cobjs[h := s.cobjs[h].(teG := None)])
  }

  // ----- The whole manager -----

  ghost function HandleIncoming(s: State, d: Datagram, tu: TuReaction, gen: string, now: real): State
    requires Shape(s)
  {
    if d.Short? then s
    else
      match Lookup(s.cache, d)
      case Some(entry) => if entry.Some? then Send(s, entry.value) else s
      case None =>
        match d
        case Malformed(_, cut) => if cut then s else Remember(s, d, None)   // line 335 raises when it is cut
        case Response(code, key, _, _) =>
          if code < 100 || code > 999 || key !in s.tclient then Remember(s, d, None)
          else IncomingResponse(s, s.tclient[key], d, tu.Raised?, now)
        case Request(_, _, _, _, _, _, _, _) => IncomingRequest(s, d, tu, gen, now)
  }

  function Purge(s: State): State {
    Log(s.(cache := Rotate(s.cache)), Purged)
  }

  /** Timer D tells whether its callback raises. */
  datatype ServerTimer = A | D(raises: bool) | E | F
  datatype ClientTimer = TA | TB | TC | TG

  datatype Input =
    | Receive(d: Datagram, tu: TuReaction, gen: string)
    | TuSends(call: TuCall)
    | FireServer(sh: nat, timer: ServerTimer, tag: string)
    | StartClient(key: ClientKey, expires: Option<int>, hasCb: bool)
    | SetUack(ch: nat)
    | Cancel(ch: nat)
    | Acknowledge(ch: nat)
    | FireClient(ch: nat, ctimer: ClientTimer)
    | PurgeCache

  ghost function Step(s: State, i: Input, now: real): State
    requires Shape(s)
  {
    StepAt(s.(clock := now), i, now)
  }

  ghost function StepAt(s: State, i: Input, now: real): State
    requires Shape(s)
  {
    match i
    case Receive(d, tu, gen) => HandleIncoming(s, d, tu, gen, now)
    case TuSends(call) => TuRespond(s, call, now)
    case FireServer(h, timer, tag) =>
      if h >= |s.sobjs| then s
      else (match timer
            case A => ServerTimerA(s, h, now)
            case D(raises) => TimerD(s, h, raises)
            case E => TimerE(s, h, tag, now)
            case F => TimerF(s, h, now))
    case StartClient(key, expires, hasCb) => NewClient(s, key, expires, hasCb, now, None)
    case SetUack(h) => if h < |s.cobjs| then s.(cobjs := s.cobjs[h := s.cobjs[h].(uack := true)]) else s
    case Cancel(h) => if h < |s.cobjs| then CancelClient(s, h, now) else s
    case Acknowledge(h) => if h < |s.cobjs| then SendAck(s, h) else s
    case FireClient(h, timer) =>
      if h >= |s.cobjs| then s
      else (match timer
            case TA => ClientTimerA(s, h, now)
            case TB => TimerB(s, h, now)
            case TC => TimerC(s, h)
            case TG => TimerG(s, h))
    case PurgeCache => Purge(s)
  }
}
