/** Where requests inside a dialog go: the ACK that the transaction layer builds for a 2xx
    (`sippy/SipTransactionManager.py`) and the route set that the UA keeps (`sippy/UacStateTrying.py`,
    `sippy/UA.py`). */
module Routing {
  import opened Basics

  /** A URL, with the transport address a request to it is sent to, and whether it carries `lr`. */
  datatype Url = Url(user: string, taddr: string, lr: bool)

  /** The routing part of a request: request URI, Route headers, and the address it is sent to. */
  datatype Request = Request(ruri: Url, routes: seq<Url>, target: string)

  function Reverse<T>(s: seq<T>): (r: seq<T>)
    ensures |r| == |s| && forall k :: 0 <= k < |s| ==> r[k] == s[|s| - 1 - k]
  {
    if s == [] then [] else Reverse(s[1..]) + [s[0]]
  }

  // ----- The reference: section 12.2.1.1 of RFC 3261 -----

  /** A strict router is the first of the route set and does not carry `lr`. */
  predicate Strict(recordRoutes: seq<Url>) {
    recordRoutes != [] && !recordRoutes[|recordRoutes| - 1].lr
  }

  /** The hops a request takes: a loose router leaves the request URI for last, a strict one is put there first. */
  function Hops(r: Request, strict: bool): seq<Url> {
    if strict then [r.ruri] + r.routes else r.routes + [r.ruri]
  }

  // ----- The two builders -----

  class TransactionLayer {
    /** The ACK for a 2xx; `invite` is the request it acknowledges. */
    static method BuildAck(invite: Request, contact: Option<Url>, recordRoutes: seq<Url>) returns (ack: Request)
      ensures ack == Ack(invite, contact, recordRoutes)
    {
      var rTarget := contact;
      var routes := Reverse(recordRoutes);
      var rAddr: Option<string> := None;
      if |routes| > 0 {
        if !routes[0].lr {
          if rTarget.Some? {
            routes := routes + [rTarget.value];
          }
          rTarget, routes := Some(routes[0]), routes[1..];
          rAddr := Some(rTarget.value.taddr);
        } else {
          rAddr := Some(routes[0].taddr);
        }
      } else if rTarget.Some? {
        rAddr := Some(rTarget.value.taddr);
      }
      ack := Request(if rTarget.Some? then rTarget.value else invite.ruri, routes,
                     if rAddr.Some? then rAddr.value else invite.target);
    }
  }

  function Ack(invite: Request, contact: Option<Url>, recordRoutes: seq<Url>): Request {
    var back := Reverse(recordRoutes);
    var last := if contact.Some? then [contact.value] else [];
    if Strict(recordRoutes) then Request(back[0], back[1..] + last, back[0].taddr)
    else
      var ruri := if contact.Some? then contact.value else invite.ruri;
      Request(ruri, back,
              if back != [] then back[0].taddr else if contact.Some? then ruri.taddr else invite.target)
  }

  class UaRoutes {
    var rTarget: Url
    var routes: seq<Url>
    var rAddr: string
    const outbound_proxy: Option<string>

    /** A calling UA starts with the URL it sent the INVITE to. */
    constructor (invite: Request, outboundProxy: Option<string>)
      ensures rTarget == invite.ruri && routes == [] && rAddr == invite.target && outbound_proxy == outboundProxy
    {
      rTarget, routes, rAddr, outbound_proxy := invite.ruri, [], invite.target, outboundProxy;
    }

    method UpdateRoutes(contact: Option<Url>, recordRoutes: seq<Url>)
      modifies this
      ensures Later() == UaRequest(old(rTarget), contact, recordRoutes, outbound_proxy)
    {
      if contact.Some? {
        rTarget := contact.value;
      }
      routes := Reverse(recordRoutes);
      if |routes| > 0 {
        if !routes[0].lr {
          routes := routes + [rTarget];
          rTarget, routes := routes[0], routes[1..];
          rAddr := rTarget.taddr;
        } else if outbound_proxy.Some? {
          routes := routes + [rTarget];
          rTarget := routes[0].(lr := false);
        } else {
          rAddr := routes[0].taddr;
        }
      } else {
        rAddr := rTarget.taddr;
      }
    }

    /** The routing part of what `genRequest` builds. */
    function Later(): Request
      reads this
    {
      Request(rTarget, routes, if outbound_proxy.Some? then outbound_proxy.value else rAddr)
    }
  }

  function UaRequest(rTarget: Url, contact: Option<Url>, recordRoutes: seq<Url>, outbound: Option<string>): Request {
    var back := Reverse(recordRoutes);
    var remote := if contact.Some? then contact.value else rTarget;
    if Strict(recordRoutes) then
      Request(back[0], back[1..] + [remote], if outbound.Some? then outbound.value else back[0].taddr)
    else if outbound.Some? then
      Request(if back != [] then back[0].(lr := false) else remote, if back != [] then back + [remote] else [],
              outbound.value)
    else Request(remote, back, if back != [] then back[0].taddr else remote.taddr)
  }

  // ----- What they promise -----

  /** With a Contact and no outbound proxy, the ACK and all later requests are routed alike: along the reversed
      Record-Route list to the Contact, starting at its first hop. */
  lemma AckAndUaAgree(invite: Request, contact: Url, recordRoutes: seq<Url>)
    ensures var ack := Ack(invite, Some(contact), recordRoutes);
            && ack == UaRequest(invite.ruri, Some(contact), recordRoutes, None)
            && Hops(ack, Strict(recordRoutes)) == Reverse(recordRoutes) + [contact]
            && ack.target == Hops(ack, Strict(recordRoutes))[0].taddr
  {
    var back := Reverse(recordRoutes);
    if Strict(recordRoutes) {
      assert [back[0]] + (back[1..] + [contact]) == back + [contact];
    }
  }

  /** The address that the ACK of a 2xx is sent to. */
  function AckAddress(invite: Request, contact: Option<Url>, recordRoutes: seq<Url>): string {
    if recordRoutes != [] then recordRoutes[|recordRoutes| - 1].taddr
    else if contact.Some? then contact.value.taddr
    else invite.target
  }

  /** Exactly when the two agree. Without an outbound proxy: there is a Contact, or the first route is loose, or there
      are no routes and the INVITE went to the address of its request URI. With one: it is where the ACK goes anyway,
      and there are no routes, or the first one is strict and there is a Contact. */
  lemma AgreementExactlyWhen(invite: Request, contact: Option<Url>, recordRoutes: seq<Url>, outbound: Option<string>)
    ensures Ack(invite, contact, recordRoutes) == UaRequest(invite.ruri, contact, recordRoutes, outbound) <==>
            match outbound
            case None =>
              contact.Some? || (recordRoutes != [] && !Strict(recordRoutes)) ||
              (recordRoutes == [] && invite.target == invite.ruri.taddr)
            case Some(proxy) =>
              proxy == AckAddress(invite, contact, recordRoutes) &&
              (recordRoutes == [] || (Strict(recordRoutes) && contact.Some?))
  {
    var back := Reverse(recordRoutes);
    if contact.None? && Strict(recordRoutes) {
      assert |back[1..] + []| != |back[1..] + [invite.ruri]|;
    }
    assert |back + [invite.ruri]| != |back|;
    if contact.Some? {
      assert |back + [contact.value]| != |back|;
    }
  }

  /** A 2xx without a Contact, from behind one strict router: the UA's requests carry the remote target as their last
      hop, the ACK carries no Route at all and ends at the router. */
  lemma AckStopsAtTheStrictRouter()
    ensures var invite := Request(Url("bob", "10.0.0.9:5060", true), [], "10.0.0.9:5060");
            var router := Url("", "10.0.0.1:5060", false);
            var ack, later := Ack(invite, None, [router]), UaRequest(invite.ruri, None, [router], None);
            && Hops(ack, true) == [router] && Hops(later, true) == [router, invite.ruri]
            && ack.target == later.target
  {
    var router := Url("", "10.0.0.1:5060", false);
    assert [router][1..] == [] && Reverse([router]) == [router];
  }

  // ----- Field by field -----

  /** The routes are the first `n` of the Record-Route list backwards, and then `last` if there is one. */
  predicate Backwards(routes: seq<Url>, recordRoutes: seq<Url>, n: nat, last: Option<Url>)
    requires n <= |recordRoutes|
  {
    && |routes| == n + (if last.Some? then 1 else 0)
    && (forall k :: 0 <= k < n ==> routes[k] == recordRoutes[n - 1 - k])
    && (last.Some? ==> routes[n] == last.value)
  }

  /** Where the ACK of a 2xx goes. Behind a strict router, to the router, with the other routes and then the Contact;
      behind a loose one, to the router's address for the Contact, or for what the INVITE asked for; and without
      routes straight there. */
  lemma AckFieldByField(invite: Request, contact: Option<Url>, recordRoutes: seq<Url>)
    ensures var (ack, n) := (Ack(invite, contact, recordRoutes), |recordRoutes|);
            var remote := if contact.Some? then contact.value else invite.ruri;
            if n > 0 && !recordRoutes[n - 1].lr then
              && ack.ruri == recordRoutes[n - 1] && ack.target == recordRoutes[n - 1].taddr
              && Backwards(ack.routes, recordRoutes, n - 1, contact)
            else
              && ack.ruri == remote && Backwards(ack.routes, recordRoutes, n, None)
              && ack.target == if n > 0 then recordRoutes[n - 1].taddr
                               else if contact.Some? then contact.value.taddr else invite.target
  {
  }

  /** Where the UA's later requests go. An outbound proxy is always the next hop. A strict router is the request URI;
      with a proxy a loose one is, too, but without its `lr`, and stays in front of the routes, which end in the
      remote target; in all other cases the remote target is asked for. */
  lemma LaterFieldByField(rTarget: Url, contact: Option<Url>, recordRoutes: seq<Url>, outbound: Option<string>)
    ensures var (req, n) := (UaRequest(rTarget, contact, recordRoutes, outbound), |recordRoutes|);
            var remote := if contact.Some? then contact.value else rTarget;
            && (if n > 0 && !recordRoutes[n - 1].lr then
                  req.ruri == recordRoutes[n - 1] && Backwards(req.routes, recordRoutes, n - 1, Some(remote))
                else if n > 0 && outbound.Some? then
                  && req.ruri.user == recordRoutes[n - 1].user && req.ruri.taddr == recordRoutes[n - 1].taddr
                  && !req.ruri.lr && Backwards(req.routes, recordRoutes, n, Some(remote))
                else req.ruri == remote && Backwards(req.routes, recordRoutes, n, None))
            && req.target == if outbound.Some? then outbound.value
                             else if n > 0 then recordRoutes[n - 1].taddr else remote.taddr
  {
  }
}
