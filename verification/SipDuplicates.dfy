/** Which datagrams the manager has forgotten when a byte-identical duplicate comes: after handling all others, their
    duplicate is answered or dropped by the reply cache. */
module SipDuplicates {
  import opened Basics
  import opened TwoGeneration
  import opened SipTransactions
  import opened SipRuns
  import Server = ServerRuns
  import Client = ClientRuns

  /** A request of a known transaction: a duplicate before any response, an ACK that finds no timer D or whose
      callback raises, or something else that is ignored. */
  predicate IgnoredByServer(t: ServerTxn, d: Datagram, raises: bool)
    requires d.Request?
  {
    if t.origin.Request? && d.verb == t.origin.verb then t.data.None?
    else if d.verb == CANCEL then false
    else d.verb == ACK && t.state == SCompleted ==> t.teD.None? || (t.ackCb && raises)
  }

  /** The TU has answered a new request by the time it returns, or raises with a response. */
  ghost predicate AnsweredAtOnce(s: State, d: Datagram, tu: TuReaction, now: real)
    requires Shape(s) && d.Request?
  {
    || (tu.Raised? && tu.refusal.Some?)
    || (|s.sobjs| < |HandOver(s, d, tu, now).sobjs| && HandOver(s, d, tu, now).sobjs[|s.sobjs|].data.Some?)
  }

  /** After this datagram, whose checksum is not in the cache, it still is not. */
  ghost predicate Forgets(s: State, d: Datagram, tu: TuReaction, now: real)
    requires Shape(s)
  {
    match d
    case Short(_) => true
    case Malformed(_, cut) => cut
    case Response(code, key, _, _) =>
      && 100 <= code <= 999 && key in s.tclient
      && (s.cobjs[s.tclient[key]].state == CTerminated || s.cobjs[s.tclient[key]].state == CUack)
    case Request(_, _, _, _, _, _, _, _) =>
      && !LoopDetected(s, d)
      && if LookupKey(d) in s.tserver then IgnoredByServer(s.sobjs[s.tserver[LookupKey(d)]], d, tu.Raised?)
         else d.verb != ACK && d.verb != CANCEL && tu != NoTu && !AnsweredAtOnce(s, d, tu, now)
  }

  // ----- What is stored stays -----

  predicate Known(s: State, d: Datagram) {
    Lookup(s.cache, d).Some?
  }

  lemma RespondKnows(s: State, h: nat, r: Reply, retrans: bool, now: real, d: Datagram)
    requires h < |s.sobjs|
    ensures Known(Respond(s, h, r, retrans, now), d)
            <==> Known(s, d) || ((Open(s.sobjs[h]) || retrans) && s.sobjs[h].origin == d)
    ensures |Respond(s, h, r, retrans, now).sobjs| == |s.sobjs|
  {
    hide ToTag, CompletedTxn, ProvisionalTxn, Cleaned;
  }

  // ----- A new request -----

  /** The table leads to transactions under their own keys. */
  ghost predicate Leads(s: State) {
    forall k :: k in s.tserver ==>
      s.tserver[k] < |s.sobjs| && s.sobjs[s.tserver[k]].live && s.sobjs[s.tserver[k]].key == k
  }

  /** No open transaction but `h` came from `d`. */
  ghost predicate OnlyOne(s: State, h: nat, d: Datagram) {
    && h < |s.sobjs| && s.sobjs[h].origin == d
    && forall g :: 0 <= g < |s.sobjs| && g != h && s.sobjs[g].live && Open(s.sobjs[g]) ==> s.sobjs[g].origin != d
  }

  /** While the TU handles `d` in the transaction `h`, the cache knows `d` once `h` has been answered. */
  ghost predicate Handling(s: State, h: nat, d: Datagram) {
    Leads(s) && OnlyOne(s, h, d) && (Known(s, d) <==> s.sobjs[h].data.Some?)
  }

  lemma FinallyLeads(s: State, g: nat, r: Reply, now: real)
    requires Leads(s) && g < |s.sobjs| && s.sobjs[g].live
    requires s.sobjs[g].key in s.tserver && s.tserver[s.sobjs[g].key] == g
    ensures Leads(FinallyInvite(s, g, r, now)) && Leads(FinallyOther(s, g, r))
  {
    hide ToTag;
  }

  lemma RespondLeads(s: State, g: nat, r: Reply, now: real)
    requires Leads(s) && g < |s.sobjs| && s.sobjs[g].live
    requires s.sobjs[g].key in s.tserver && s.tserver[s.sobjs[g].key] == g
    ensures Leads(Respond(s, g, r, false, now))
  {
    FinallyLeads(s, g, r, now);
    assert Leads(Provisionally(s, g, r, now));
    hide Leads, Provisionally, FinallyInvite, FinallyOther;
  }

  lemma RespondOnlyOne(s: State, g: nat, r: Reply, now: real, h: nat, d: Datagram)
    requires OnlyOne(s, h, d) && g < |s.sobjs|
    ensures OnlyOne(Respond(s, g, r, false, now), h, d)
  {
    var s' := Respond(s, g, r, false, now);
    assert |s'.sobjs| == |s.sobjs| && s'.sobjs == s.sobjs[g := s'.sobjs[g]];
    assert s'.sobjs[g].origin == s.sobjs[g].origin;
    assert s'.sobjs[g].live && Open(s'.sobjs[g]) ==> s.sobjs[g].live && Open(s.sobjs[g]);
    hide Respond, Open;
  }

  lemma RespondData(s: State, g: nat, r: Reply, now: real, h: nat)
    requires g < |s.sobjs| && h < |s.sobjs|
    ensures |Respond(s, g, r, false, now).sobjs| == |s.sobjs|
    ensures Respond(s, g, r, false, now).sobjs[h].data.Some? <==>
            s.sobjs[h].data.Some? || (g == h && Open(s.sobjs[h]))
  {
    hide ToTag;
  }

  lemma {:induction false} TuCallsHandling(s: State, calls: seq<TuCall>, now: real, h: nat, d: Datagram)
    requires Shape(s) && Handling(s, h, d)
    ensures Handling(TuCalls(s, calls, now), h, d)
    decreases |calls|
  {
    if calls != [] {
      RespondShape(s, calls[0], now);
      if calls[0].key in s.tserver {
        var g := s.tserver[calls[0].key];
        RespondKnows(s, g, calls[0].reply, false, now, d);
        RespondLeads(s, g, calls[0].reply, now);
        RespondOnlyOne(s, g, calls[0].reply, now, h, d);
        RespondData(s, g, calls[0].reply, now, h);
      }
      hide Respond, Leads, Known;
      assert Handling(TuRespond(s, calls[0], now), h, d);
      hide TuRespond, Handling;
      TuCallsHandling(TuRespond(s, calls[0], now), calls[1..], now, h, d);
    }
  }

  lemma FinishKnows(s: State, h: nat, ret: Option<TuReturn>, now: real, d: Datagram)
    requires Handling(s, h, d)
    ensures var s' := FinishHandover(s, h, ret, now);
            |s'.sobjs| == |s.sobjs| && (Known(s', d) <==> s'.sobjs[h].data.Some?)
  {
    if ret.Some? && ret.value.reply.Some? {
      var s1 := s.(sobjs := s.sobjs[h := s.sobjs[h].(cancelCb := ret.value.cancelCb, noackCb := ret.value.noackCb)]);
      RespondKnows(s1, h, ret.value.reply.value, false, now, d);
      RespondData(s1, h, ret.value.reply.value, now, h);
    }
    hide Respond, Leads;
  }

  /** The cache knows a new request exactly when it has been answered at once, or nobody was there to handle it. */
  lemma HandOverKnows(s: State, d: Datagram, tu: TuReaction, now: real)
    requires Shape(s) && Server.ServerTable(s) && Server.TxnsOk(s) && d.Request? && !Known(s, d)
    requires BranchKey(d) !in s.tserver
    ensures Known(HandOver(s, d, tu, now), d) <==> tu == NoTu || AnsweredAtOnce(s, d, tu, now)
  {
    var h := |s.sobjs|;
    var s1 := Log(AddServer(s, d, now), Handed(d));
    NewHandling(s, d, now);
    hide Handling, FinishHandover, AddServer, Server.ServerTable, Server.TxnsOk;
    match tu
    case NoTu =>
    case Raised(calls, refusal) =>
      TuCallsShape(s1, calls, now);
      TuCallsHandling(s1, calls, now, h, d);
      HandlingSo(TuCalls(s1, calls, now), h, d);
    case Returned(calls, ret) =>
      TuCallsShape(s1, calls, now);
      TuCallsHandling(s1, calls, now, h, d);
      HandlingSo(TuCalls(s1, calls, now), h, d);
      FinishKnows(TuCalls(s1, calls, now), h, ret, now, d);
  }

  lemma HandlingSo(s: State, h: nat, d: Datagram)
    requires Handling(s, h, d)
    ensures h < |s.sobjs| && (Known(s, d) <==> s.sobjs[h].data.Some?)
  {
  }

  lemma NewHandling(s: State, d: Datagram, now: real)
    requires Server.ServerTable(s) && Server.TxnsOk(s) && d.Request? && !Known(s, d) && BranchKey(d) !in s.tserver
    ensures Handling(Log(AddServer(s, d, now), Handed(d)), |s.sobjs|, d)
  {
    forall g | 0 <= g < |s.sobjs| && s.sobjs[g].live && Open(s.sobjs[g]) ensures s.sobjs[g].origin != d {
      assert Server.ServerTxnOk(s.sobjs[g]);
    }
    hide Server.TxnsOk, Server.ServerTxnOk;
  }

  // ----- All datagrams -----

  lemma MatchedKnows(s: State, h: nat, d: Datagram, raises: bool, gen: string, now: real)
    requires h < |s.sobjs| && d.Request? && !Known(s, d)
    ensures Known(Matched(s, h, d, raises, gen, now), d) <==> !IgnoredByServer(s.sobjs[h], d, raises)
  {
    if d.verb == CANCEL {
      var s1 := Transmit(s, Answer(200, d, d.toTag), d);
      if Open(s.sobjs[h]) && IsInvite(s.sobjs[h]) {
        RespondKnows(s1, h, Reply(487, s.sobjs[h].origin.toTag, gen, false), true, now, d);
      }
    }
    hide Respond;
  }

  lemma ResponseKnows(s: State, h: nat, d: Datagram, raises: bool, now: real)
    requires h < |s.cobjs| && d.Response? && !Known(s, d)
    requires s.cobjs[h].state == CTrying && s.cobjs[h].cancelPending ==> CancelKey(s.cobjs[h].key) !in s.tclient
    ensures Known(IncomingResponse(s, h, d, raises, now), d)
            <==> s.cobjs[h].state != CTerminated && s.cobjs[h].state != CUack
  {
    var s1 := LogClient(s.(cobjs := s.cobjs[h := Stopped(s.cobjs[h]).(state := CRinging, rung := Some(now))]),
                        Provisional(h));
    Server.CancelUntouched(s1, h, now, true);
    FinalKnows(s, h, d, raises, now);
    hide StartCancel, FinalResponse;
  }

  lemma FinalKnows(s: State, h: nat, d: Datagram, raises: bool, now: real)
    requires h < |s.cobjs| && d.Response?
    ensures Known(FinalResponse(s, h, d, raises, now), d)
  {
  }

  lemma RequestKnows(s: State, d: Datagram, tu: TuReaction, gen: string, now: real)
    requires Shape(s) && Server.ServerTable(s) && Server.TxnsOk(s) && d.Request? && !Known(s, d)
    ensures Known(IncomingRequest(s, d, tu, gen, now), d) <==> !Forgets(s, d, tu, now)
  {
    hide HandOver, Matched, AnsweredAtOnce, IgnoredByServer, Server.ServerTable, Server.TxnsOk;
    if LookupKey(d) in s.tserver {
      MatchedKnows(s, s.tserver[LookupKey(d)], d, tu.Raised?, gen, now);
    } else if d.verb != ACK && d.verb != CANCEL {
      HandOverKnows(s, d, tu, now);
    }
  }

  lemma NoClash(s: State, h: nat)
    requires Client.Inv(s, 0) && h < |s.cobjs| && s.cobjs[h].live
    requires s.cobjs[h].state == CTrying && s.cobjs[h].cancelPending
    ensures CancelKey(s.cobjs[h].key) !in s.tclient
  {
    assert Client.ClientTxnOk(s.cobjs[h]);
    Client.CancelledIsHeard(s, h);
  }

  /** In every run: after a datagram that the reply cache did not know, a byte-identical duplicate is parsed again if
      and only if the datagram is one of those that are forgotten. */
  lemma ParsedAgainExactlyWhen(states: seq<State>, inputs: seq<Input>, times: seq<real>, k: nat,
                               d: Datagram, tu: TuReaction, gen: string, now: real)
    requires IsRun(states, inputs, times) && k < |states| && Lookup(states[k].cache, d).None?
    ensures Shape(states[k])
    ensures Lookup(HandleIncoming(states[k], d, tu, gen, now).cache, d).None? <==> Forgets(states[k], d, tu, now)
  {
    var s := states[k];
    RunInv(states, inputs, times, k, 0, 0, Short(""));
    InvShape(s, 0, 0, Short(""));
    assert Server.ServerTable(s) && Server.TxnsOk(s) && Client.ClientTable(s);
    hide IsRun, Server.Inv, Client.Inv, Server.ServerTable, Server.TxnsOk, IncomingRequest, IncomingResponse;
    if d.Request? {
      RequestKnows(s, d, tu, gen, now);
    } else if d.Response? && 100 <= d.code <= 999 && d.key in s.tclient {
      var h := s.tclient[d.key];
      if s.cobjs[h].state == CTrying && s.cobjs[h].cancelPending {
        NoClash(s, h);
      }
      ResponseKnows(s, h, d, tu.Raised?, now);
    }
  }
}
