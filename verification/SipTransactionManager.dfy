/** The object of `sippy/SipTransactionManager.py` with its dictionaries, updated in place. Each method leads from
    the old state to the state that `SipTransactions` gives for it. */
module SipTransactionManager {
  import opened Basics
  import opened TwoGeneration
  import opened SipTransactions

  class TransactionManager {
    var tserver: map<ServerKey, nat>
    var tclient: map<ClientKey, nat>
    var l1rcache: map<Datagram, Option<Packet>>
    var l2rcache: map<Datagram, Option<Packet>>
    var sobjs: seq<ServerTxn>       // every server transaction object ever made, by handle
    var cobjs: seq<ClientTxn>
    const provisional_retr: real
    ghost var clock: real
    ghost var wire: seq<Packet>
    ghost var strace: seq<ServerEvent>
    ghost var ctrace: seq<ClientEvent>

    ghost function View(): State
      reads this
    {
      State(tserver, sobjs, tclient, cobjs, Cache(l1rcache, l2rcache), provisional_retr, clock, wire, strace, ctrace)
    }

    constructor (provisional_retr: real, ghost now: real)
      ensures View() == Init(provisional_retr, now)
    {
      tserver, tclient, l1rcache, l2rcache := map[], map[], map[], map[];
      sobjs, cobjs := [], [];
      this.provisional_retr := provisional_retr;
      clock, wire, strace, ctrace := now, [], [], [];
    }

    // ----- Sending -----

    method TransmitData(data: Packet, cachesum: Option<Datagram>)
      modifies this`wire, this`l1rcache
      ensures View() == match cachesum
                        case Some(d) => Transmit(old(View()), data, d)
                        case None => Send(old(View()), data)
    {
      wire := wire + [data];
      if cachesum.Some? {
        l1rcache := l1rcache[cachesum.value := Some(data)];
      }
    }

    method RCachePurge()
      modifies this
      ensures View() == Purge(old(View()))
    {
      l2rcache := l1rcache;
      l1rcache := map[];
      strace := strace + [Purged];
    }

    // ----- Server transactions -----

    method SendResponse(h: nat, resp: Reply, retrans: bool, now: real)
      requires h < |sobjs|
      modifies this
      ensures View() == Respond(old(View()), h, resp, retrans, now)
    {
      var t := sobjs[h];
      if t.state != STrying && t.state != SRinging && !retrans {
        return;                                    // the source raises ValueError
      }
      var totag := if resp.code > 100 && resp.tag.None? then Some(resp.gen) else resp.tag;
      var pkt := Answer(resp.code, t.origin, totag);
      TransmitData(pkt, Some(t.origin));
      if resp.code < 200 {
        ContinueTransaction(h, pkt, now);
      } else {
        CompleteTransaction(h, pkt, resp.ackCb, now);
      }
      hide CompletedTxn, Cleaned, ProvisionalTxn;
    }

    method ContinueTransaction(h: nat, pkt: Packet, now: real)
      requires h < |sobjs| && pkt.Answer?
      modifies this`sobjs
      ensures sobjs == old(sobjs)[h := ProvisionalTxn(old(sobjs)[h], pkt, pkt.code, provisional_retr, now)]
    {
      var t := sobjs[h].(data := Some(pkt), state := SRinging);
      if provisional_retr > 0.0 && pkt.code > 100 {
        t := t.(teF := Some(now + provisional_retr));
      }
      sobjs := sobjs[h := t];
    }

    /** The end of `sendResponse` for a final response. */
    method CompleteTransaction(h: nat, pkt: Packet, ackCb: bool, now: real)
      requires h < |sobjs| && pkt.Answer?
      modifies this`sobjs, this`tserver, this`strace
      ensures var t := old(sobjs)[h];
              var key := ServerKey(t.key.dialog, pkt.toTag);
              if IsInvite(t) then
                && sobjs == old(sobjs)[h := CompletedTxn(t, pkt, key, ackCb, now)]
                && tserver == (old(tserver) - {t.key})[key := h]
              else
                && sobjs == old(sobjs)[h := Cleaned(t.(data := Some(pkt), state := SCompleted,
                                                       teE := None, teF := None))]
                && tserver == old(tserver) - {t.key}
      ensures strace == old(strace) + [Final(h, old(sobjs)[h].origin)]
    {
      var t := sobjs[h].(data := Some(pkt), state := SCompleted, teE := None, teF := None);
      tserver := tserver - {t.key};
      if IsInvite(t) {
        t := t.(key := ServerKey(t.key.dialog, pkt.toTag), ackCb := ackCb, teD := Some(now + 32.0));
        tserver := tserver[t.key := h];
        t := t.(tout := 0.5);
        t := t.(teA := Some(now + t.tout), sends := [now]);
        sobjs := sobjs[h := t];
      } else {
        sobjs := sobjs[h := Cleaned(t)];
      }
      strace := strace + [Final(h, t.origin)];
    }

    /** The TU names a transaction by the branch of its response; an unknown one raises KeyError. */
    method TuSendResponse(call: TuCall, now: real)
      requires Shape(View())
      modifies this
      ensures View() == TuRespond(old(View()), call, now)
    {
      if call.key in tserver {
        SendResponse(tserver[call.key], call.reply, false, now);
      }
    }

    method DoCancelTransaction(h: nat, gen: string, now: real)
      requires h < |sobjs|
      modifies this
      ensures View() == DoCancel(old(View()), h, gen, now)
    {
      var t := sobjs[h];
      if IsInvite(t) {
        SendResponse(h, Reply(487, t.origin.toTag, gen, false), true, now);
      }
      if t.cancelCb {
        strace := strace + [CancelCb(h)];
      }
    }

    /** The calls that the TU makes while it handles a new request. */
    method RunTuCalls(calls: seq<TuCall>, now: real)
      requires Shape(View())
      modifies this
      ensures View() == TuCalls(old(View()), calls, now)
      ensures Shape(View()) && |sobjs| == old(|sobjs|)
    {
      var i := 0;
      while i < |calls|
        invariant i <= |calls|
        invariant Shape(View()) && |sobjs| == old(|sobjs|)
        invariant TuCalls(View(), calls[i..], now) == TuCalls(old(View()), calls, now)
      {
        RespondShape(View(), calls[i], now);
        assert calls[i..][0] == calls[i] && calls[i..][1..] == calls[i + 1..];
        TuSendResponse(calls[i], now);
        i := i + 1;
      }
    }

    method IncomingRequestNew(d: Datagram, tu: TuReaction, now: real)
      requires d.Request? && Shape(View())
      modifies this
      ensures View() == HandOver(old(View()), d, tu, now)
    {
      var h := |sobjs|;
      var t := NewServerTxn(d, now);
      sobjs := sobjs + [t];
      tserver := tserver[t.key := h];
      match tu
      case NoTu => l1rcache := l1rcache[d := None];
      case Raised(calls, refusal) =>
        strace := strace + [Handed(d)];
        RunTuCalls(calls, now);
        if refusal.Some? {
          TransmitData(Answer(refusal.value, d, d.toTag), Some(d));
          strace := strace + [Refused(h)];
        }
      case Returned(calls, ret) =>
        strace := strace + [Handed(d)];
        RunTuCalls(calls, now);
        FinishRequest(h, ret, now);
    }

    method FinishRequest(h: nat, ret: Option<TuReturn>, now: real)
      requires h < |sobjs|
      modifies this
      ensures View() == FinishHandover(old(View()), h, ret, now)
    {
      var t := sobjs[h];
      match ret
      case None =>
        if t.live && (t.teA.Some? || t.teD.Some? || t.teE.Some? || t.teF.Some?) {
          return;
        }
        if t.live {
          tserver := tserver - {t.key};
        }
        sobjs := sobjs[h := Cleaned(t)];
      case Some(r) =>
        sobjs := sobjs[h := t.(cancelCb := r.cancelCb, noackCb := r.noackCb)];
        if r.reply.Some? {
          SendResponse(h, r.reply.value, false, now);
        }
    }

    method IncomingRequestMatched(h: nat, d: Datagram, raises: bool, gen: string, now: real)
      requires h < |sobjs| && d.Request?
      modifies this
      ensures View() == Matched(old(View()), h, d, raises, gen, now)
    {
      var t := sobjs[h];
      if t.origin.Request? && d.verb == t.origin.verb {
        if t.data.Some? {
          TransmitData(t.data.value, Some(d));
        }
      } else if d.verb == CANCEL {
        TransmitData(Answer(200, d, d.toTag), Some(d));
        if t.state == STrying || t.state == SRinging {
          DoCancelTransaction(h, gen, now);
        }
      } else if d.verb == ACK && t.state == SCompleted {
        IncomingAck(h, d, raises);
      }
    }

    method IncomingAck(h: nat, d: Datagram, raises: bool)
      requires h < |sobjs|
      modifies this
      ensures View() == Acked(old(View()), h, d, raises)
    {
      hide Cleaned;
      var t := sobjs[h].(state := SConfirmed, teA := None);
      if t.teD.None? {
        sobjs := sobjs[h := t];
        return;                                    // the source raises AttributeError
      }
      t := t.(teD := None, live := false);
      tserver := tserver - {t.key};
      assert strace + [] == strace;
      if t.ackCb {
        strace := strace + [AckCb(h)];
        if raises {
          sobjs := sobjs[h := t];
          return;
        }
      }
      sobjs := sobjs[h := Cleaned(t)];
      l1rcache := l1rcache[d := None];
    }

    method IncomingRequest(d: Datagram, tu: TuReaction, gen: string, now: real)
      requires d.Request? && Shape(View())
      modifies this
      ensures View() == SipTransactions.IncomingRequest(old(View()), d, tu, gen, now)
    {
      var vias := [d.branch] + d.moreBranches;
      var i := 0;
      while i < |vias|
        invariant i <= |vias| && View() == old(View())
        invariant forall j :: 0 <= j < i ==> ClientKey(d.dialog, d.csVerb, vias[j]) !in tclient
      {
        if ClientKey(d.dialog, d.csVerb, vias[i]) in tclient {
          assert vias[i] in vias;
          TransmitData(Answer(482, d, d.toTag), Some(d));
          return;
        }
        i := i + 1;
      }
      var tid := if d.verb != ACK then ServerKey(d.dialog, d.branch) else ServerKey(d.dialog, d.toTag);
      if tid in tserver {
        IncomingRequestMatched(tserver[tid], d, tu.Raised?, gen, now);
      } else if d.verb == ACK {
        l1rcache := l1rcache[d := None];
      } else if d.verb == CANCEL {
        TransmitData(Answer(481, d, d.toTag), Some(d));
      } else {
        IncomingRequestNew(d, tu, now);
      }
    }

    method FireTimerA(h: nat, now: real)
      requires h < |sobjs|
      modifies this
      ensures View() == ServerTimerA(old(View()), h, now)
    {
      var t := sobjs[h];
      if t.data.Some? {
        TransmitData(t.data.value, None);
      }
      t := t.(tout := t.tout * 2.0, sends := t.sends + [now]);
      t := t.(teA := Some(now + t.tout));
      sobjs := sobjs[h := t];
    }

    method FireTimerD(h: nat, raises: bool)
      requires h < |sobjs|
      modifies this
      ensures View() == TimerD(old(View()), h, raises)
    {
      var t := sobjs[h].(teD := None, teA := None);
      sobjs := sobjs[h := t];
      assert strace + [] == strace;
      if t.noackCb && t.state != SConfirmed {
        strace := strace + [NoAckCb(h)];
        if raises {
          return;
        }
      }
      tserver := tserver - {t.key};
      sobjs := sobjs[h := Cleaned(t)];
    }

    method FireTimerE(h: nat, gen: string, now: real)
      requires h < |sobjs|
      modifies this
      ensures View() == TimerE(old(View()), h, gen, now)
    {
      var t := sobjs[h].(teE := None, teF := None);
      sobjs := sobjs[h := t];
      if t.state == STrying || t.state == SRinging {
        DoCancelTransaction(h, gen, now);
      }
    }

    method FireTimerF(h: nat, now: real)
      requires h < |sobjs|
      modifies this
      ensures View() == TimerF(old(View()), h, now)
    {
      var t := sobjs[h].(teF := None);
      if t.state == SRinging && provisional_retr > 0.0 {
        if t.data.Some? {
          TransmitData(t.data.value, None);
        }
        t := t.(teF := Some(now + provisional_retr));
      }
      sobjs := sobjs[h := t];
    }

    // ----- Client transactions -----

    method NewTransaction(key: ClientKey, expires: Option<int>, hasCb: bool, now: real, parent: Option<nat>)
      returns (h: Option<nat>)
      modifies this
      ensures View() == NewClient(old(View()), key, expires, hasCb, now, parent)
      ensures h == if key in old(tclient) then None else Some(old(|cobjs|))
    {
      if key in tclient {
        return None;                               // the source raises ValueError
      }
      h := Some(|cobjs|);
      var t := NewClientTxn(key, expires, hasCb, now, parent);
      tclient := tclient[key := |cobjs|];
      cobjs := cobjs + [t];
      TransmitData(Ask(key), None);
    }
  
    method CancelTransaction(h: nat, now: real)
      requires h < |cobjs|
      modifies this
      ensures View() == CancelClient(old(View()), h, now)
    {
      var t := cobjs[h];
      if t.state != CRinging {
        cobjs := cobjs[h := t.(cancelPending := true)];
      } else {
        StartCancelTransaction(h, now, false);
      }
    }

    method StartCancelTransaction(h: nat, now: real, ghost deferred: bool)
      requires h < |cobjs|
      modifies this
      ensures View() == StartCancel(old(View()), h, now, deferred)
    {
      var c := NewTransaction(CancelKey(cobjs[h].key), None, false, now, Some(h));
      if c.Some? {
        ctrace := ctrace + [CancelSent(h, deferred)];
      }
    }

    /** `resp_cb`, when the TU gave one. */
    method TellUser(h: nat, code: int, ghost raised: bool)
      requires h < |cobjs|
      modifies this`ctrace
      ensures View() == Tell(old(View()), h, code, raised)
    {
      if cobjs[h].hasCb {
        ctrace := ctrace + [Told(h, code, raised)];
      }
    }

    method RemoveClient(h: nat)
      requires h < |cobjs|
      modifies this
      ensures View() == DropClient(old(View()), h)
    {
      tclient := tclient - {cobjs[h].key};
      cobjs := cobjs[h := Dropped(cobjs[h])];
    }

    method IncomingProvisional(h: nat, d: Datagram, now: real)
      requires h < |cobjs| && d.Response?
      modifies this
      ensures View() == ProvisionalResponse(old(View()), h, d, now)
    {
      hide NewClientTxn, CancelKey;
      var t := cobjs[h];
      cobjs := cobjs[h := Stopped(t).(state := CRinging, rung := Some(now))];
      ctrace := ctrace + [Provisional(h)];
      if t.state == CTrying && t.cancelPending {
        if CancelKey(t.key) in tclient {
          return;                                  // newTransaction raises ValueError
        }
        StartCancelTransaction(h, now, true);
        cobjs := cobjs[h := cobjs[h].(cancelPending := false)];
      }
      cobjs := cobjs[h := cobjs[h].(teB := Some(now + t.expires))];
      l1rcache := l1rcache[d := None];
      TellUser(h, d.code, false);
    }

    method IncomingFinal(h: nat, d: Datagram, raises: bool, now: real)
      requires h < |cobjs| && d.Response?
      modifies this
      ensures View() == FinalResponse(old(View()), h, d, raises, now)
    {
      var t := Stopped(cobjs[h]);
      if t.key.verb == INVITE && t.uack {
        cobjs := cobjs[h := t.(state := CUack, ackSum := Some(d), ackTag := d.toTag, teG := Some(now + 64.0))];
        l1rcache := l1rcache[d := None];
        TellUser(h, d.code, false);
      } else {
        cobjs := cobjs[h := t];
        if t.key.verb == INVITE {
          TransmitData(Confirm(t.key, d.toTag), Some(d));
        } else {
          l1rcache := l1rcache[d := None];
        }
        TellUser(h, d.code, raises);
        if t.hasCb && raises {
          return;
        }
        RemoveClient(h);
      }
    }

    method IncomingClientResponse(h: nat, d: Datagram, raises: bool, now: real)
      requires h < |cobjs| && d.Response?
      modifies this
      ensures View() == IncomingResponse(old(View()), h, d, raises, now)
    {
      var t := cobjs[h];
      if t.state == CTerminated {
        return;
      }
      if t.state == CTrying || t.state == CRinging {
        if d.code < 200 {
          IncomingProvisional(h, d, now);
        } else {
          IncomingFinal(h, d, raises, now);
        }
      }
    }

    method SendACK(h: nat)
      requires h < |cobjs|
      modifies this
      ensures View() == SendAck(old(View()), h)
    {
      var t := cobjs[h];
      cobjs := cobjs[h := t.(teG := None)];
      if t.ackSum.Some? {
        TransmitData(Confirm(t.key, t.ackTag), t.ackSum);
      }
      RemoveClient(h);
    }

    method FireClientTimerA(h: nat, now: real)
      requires h < |cobjs|
      modifies this
      ensures View() == ClientTimerA(old(View()), h, now)
    {
      var t := cobjs[h];
      TransmitData(Ask(t.key), None);
      t := t.(tout := t.tout * 2.0, sends := t.sends + [now]);
      t := t.(teA := Some(now + t.tout));
      cobjs := cobjs[h := t];
    }

    method FireTimerB(h: nat, now: real)
      requires h < |cobjs|
      modifies this
      ensures View() == TimerB(old(View()), h, now)
    {
      cobjs := cobjs[h := cobjs[h].(teB := None, teA := None, state := CTerminated, teC := Some(now + 32.0))];
      TellUser(h, 408, false);
    }

    method FireTimerC(h: nat)
      requires h < |cobjs|
      modifies this
      ensures View() == TimerC(old(View()), h)
    {
      cobjs := cobjs[h := cobjs[h].(teC := None)];
      RemoveClient(h);
    }

    // ----- Datagrams -----

    method HandleDatagram(d: Datagram, tu: TuReaction, gen: string, now: real)
      requires Shape(View())
      modifies this
      ensures View() == HandleIncoming(old(View()), d, tu, gen, now)
    {
      if d.Short? {
        return;
      }
      var retrans := if d in l1rcache then Some(l1rcache[d]) else if d in l2rcache then Some(l2rcache[d]) else None;
      if retrans.Some? {
        if retrans.value.Some? {
          TransmitData(retrans.value.value, None);
        }
        return;
      }
      match d
      case Malformed(_, cut) =>
        if cut {
          return;                                  // the source raises TypeError
        }
        l1rcache := l1rcache[d := None];
      case Response(code, key, _, _) =>
        if code < 100 || code > 999 || key !in tclient {
          l1rcache := l1rcache[d := None];
        } else {
          IncomingClientResponse(tclient[key], d, tu.Raised?, now);
        }
      case Request(_, _, _, _, _, _, _, _) =>
        IncomingRequest(d, tu, gen, now);
    }
  }
}
