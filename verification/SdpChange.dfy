/** Rewriting an SDP body for the RTP proxy: `_on_sdp_change` and `_sdp_change_finish` in
    `sippy/Rtp_proxy/Session/side.py`. Each supported section has an update of its own, and the answers come in any
    order. */
module SdpChange {
  import opened Basics
  import opened SdpText
  import opened Sdp
  import opened RtpproxyUpdate

  // ----- One section -----

  /** What the side is configured to do. `fin` and `finTop` stand for what the subcommands do at the end to a section
      and to the attributes of the session, given what the proxy answered for this section. */
  datatype Settings = Settings(repacketize: Option<int>, nortpp: bool, fin: (Section, Update) -> Section,
                               finTop: (seq<Attr>, Section, Update) -> seq<Attr>)

  function WithoutName(attrs: seq<Attr>, name: string): seq<Attr> {
    if attrs == [] then []
    else (if attrs[0].name == name then [] else [attrs[0]]) + WithoutName(attrs[1..], name)
  }

  predicate HasName(attrs: seq<Attr>, name: string) {
    exists i :: 0 <= i < |attrs| && attrs[i].name == name
  }

  function SendOnly(attrs: seq<Attr>): seq<Attr> {
    var kept := WithoutName(attrs, "sendrecv");
    if HasName(kept, "sendonly") then kept else kept + [ParseAttr("sendonly")]
  }

  /** Where a new `ptime` goes: where the last old one was, else after the first `fmtp`, else -1. */
  function PtimeIndex(attrs: seq<Attr>, pos: nat, fidx: int): int {
    if attrs == [] then fidx
    else if attrs[0].name == "ptime" then PtimeIndex(attrs[1..], pos, pos)
    else if fidx == -1 && attrs[0].name == "fmtp" then PtimeIndex(attrs[1..], pos + 1, pos + 1)
    else PtimeIndex(attrs[1..], pos + 1, fidx)
  }

  /** Where Python's `list.insert` puts a new element: -1 is in front of the last one. */
  function Place(index: int, length: nat): (j: nat)
    ensures j <= length
  {
    var i := if index < 0 then index + length else index;
    if i < 0 then 0 else if i > length then length else i
  }

  function InsertAt(attrs: seq<Attr>, index: int, a: Attr): seq<Attr> {
    var j := Place(index, |attrs|);
    attrs[..j] + [a] + attrs[j..]
  }

  function Repacketized(attrs: seq<Attr>, ptime: int): seq<Attr> {
    InsertAt(WithoutName(attrs, "ptime"), PtimeIndex(attrs, 0, -1), ParseAttr("ptime:" + Decimal(ptime)))
  }

  function RtcpAttr(a: Attr, ur: Update): Attr {
    if a.name == "rtcp" then a.(value := Some(Decimal(ur.port + 1) + " IN " + ur.family + " " + ur.address)) else a
  }

  function RtcpAttrs(attrs: seq<Attr>, ur: Update): (r: seq<Attr>)
    ensures |r| == |attrs|
  {
    seq(|attrs|, i requires 0 <= i < |attrs| => RtcpAttr(attrs[i], ur))
  }

  function RewriteHeaders(headers: map<char, Header>, ur: Update): map<char, Header> {
    var h1 := if 'c' in headers && headers['c'].Connection?
              then headers['c' := headers['c'].(atype := ur.family, addr := ur.address)] else headers;
    if 'm' in h1 && h1['m'].Media? && h1['m'].port != 0 then h1['m' := h1['m'].(port := ur.port)] else h1
  }

  function RewriteAttrs(attrs: seq<Attr>, ur: Update, cfg: Settings): seq<Attr> {
    var a1 := if ur.sendonly then SendOnly(attrs) else attrs;
    var a2 := if cfg.repacketize.Some? then Repacketized(a1, cfg.repacketize.value) else a1;
    RtcpAttrs(a2, ur)
  }

  function Rewrite(s: Section, ur: Update, cfg: Settings): Section {
    var s1 := cfg.fin(s, ur);
    Section(RewriteHeaders(s1.headers, ur), RewriteAttrs(s1.attrs, ur, cfg))
  }

  lemma {:induction false} WithoutNameHas(attrs: seq<Attr>, name: string)
    ensures !HasName(WithoutName(attrs, name), name)
  {
    if attrs != [] {
      WithoutNameHas(attrs[1..], name);
    }
  }

  /** `a` is at place `j`, and no other attribute has its name. */
  ghost predicate OnlyAt(attrs: seq<Attr>, j: nat, a: Attr) {
    && j < |attrs| && attrs[j] == a
    && forall i :: 0 <= i < |attrs| && attrs[i].name == a.name ==> i == j
  }

  lemma OnlyWhereInserted(kept: seq<Attr>, j: nat, a: Attr)
    requires j <= |kept| && a.name == "ptime" && !HasName(kept, "ptime")
    ensures OnlyAt(kept[..j] + [a] + kept[j..], j, a)
  {
    var r := kept[..j] + [a] + kept[j..];
    forall i | 0 <= i < |r| && i != j ensures r[i].name != "ptime" {
      assert r[i] == kept[if i < j then i else i - 1];
    }
  }

  lemma InsertedOnce(kept: seq<Attr>, index: int, a: Attr)
    requires a.name == "ptime" && !HasName(kept, "ptime")
    ensures WithoutName(InsertAt(kept, index, a), "ptime") == kept
    ensures exists j :: OnlyAt(InsertAt(kept, index, a), j, a)
  {
    hide WithoutName, HasName, OnlyAt;
    WithoutInserted(kept, Place(index, |kept|), a);
    OnlyWhereInserted(kept, Place(index, |kept|), a);
  }

  /** After repacketizing there is one `ptime`, the wanted one, and the other attributes are as before. */
  lemma OnePtime(attrs: seq<Attr>, ptime: int)
    ensures WithoutName(Repacketized(attrs, ptime), "ptime") == WithoutName(attrs, "ptime")
    ensures exists j :: OnlyAt(Repacketized(attrs, ptime), j, Attr("ptime", Some(Decimal(ptime))))
  {
    hide WithoutName, PtimeIndex, Decimal, InsertAt, OnlyAt, HasName;
    assert "ptime:" + Decimal(ptime) == "ptime" + [':'] + Decimal(ptime);
    SplitOnceOf("ptime", ':', Decimal(ptime));
    assert ParseAttr("ptime:" + Decimal(ptime)) == Attr("ptime", Some(Decimal(ptime)));
    WithoutNameHas(attrs, "ptime");
    InsertedOnce(WithoutName(attrs, "ptime"), PtimeIndex(attrs, 0, -1), Attr("ptime", Some(Decimal(ptime))));
  }

  lemma {:induction false} WithoutInserted(kept: seq<Attr>, j: nat, a: Attr)
    requires j <= |kept| && a.name == "ptime" && !HasName(kept, "ptime")
    ensures WithoutName(kept[..j] + [a] + kept[j..], "ptime") == kept
    decreases |kept|
  {
    var r := kept[..j] + [a] + kept[j..];
    if j == 0 {
      assert r[1..] == kept;
      KeepsAll(kept);
    } else {
      assert r[1..] == kept[1..][..j - 1] + [a] + kept[1..][j - 1..];
      assert forall i :: 0 <= i < |kept[1..]| ==> kept[1..][i] == kept[i + 1];
      WithoutInserted(kept[1..], j - 1, a);
    }
  }

  lemma {:induction false} KeepsAll(attrs: seq<Attr>)
    requires !HasName(attrs, "ptime")
    ensures WithoutName(attrs, "ptime") == attrs
  {
    if attrs != [] {
      assert forall i :: 0 <= i < |attrs[1..]| ==> attrs[1..][i] == attrs[i + 1];
      KeepsAll(attrs[1..]);
    }
  }

  // ----- A whole change -----

  /** This side's own origin: a number for the session, and a version that counts up. */
  datatype Own = Own(sid: nat, version: nat)

  datatype Change = Change(
    needs_update: bool, body: Body, waiting: set<nat>, results: seq<Option<Body>>,
    origin: Own, oh_remote: Option<Header>)

  datatype Finish = Finish(sect: nat, verdict: Verdict, freshSid: nat)

  function OwnHeader(o: Own, address: string): Header {
    Origin(["-", Decimal(o.sid), Decimal(o.version), "IN", "IP4", address])
  }

  /** A new session for a new remote session, a new version for a new remote version. */
  function NextOrigin(o: Own, prev: Option<Header>, remote: Header, freshSid: nat): Own {
    if prev.None? || !prev.value.Origin? || !remote.Origin? || |prev.value.fields| < 3 || |remote.fields| < 3 then o
    else if prev.value.fields[1] != remote.fields[1] then Own(freshSid, freshSid)
    else if prev.value.fields[2] != remote.fields[2] then o.(version := o.version + 1)
    else o
  }

  function Marked(b: Body, cfg: Settings): Body {
    if cfg.nortpp && b.sections != [] then
      var n := |b.sections| - 1;
      b.(sections := b.sections[n := b.sections[n].(attrs := b.sections[n].attrs + [ParseAttr("nortpproxy:yes")])])
    else b
  }

  function FinishAll(c: Change, cfg: Settings, address: string, freshSid: nat): Change {
    if 'o' !in c.body.headers then c
    else
      var origin := NextOrigin(c.origin, c.oh_remote, c.body.headers['o'], freshSid);
      var b := Marked(c.body.(headers := c.body.headers['o' := OwnHeader(origin, address)]), cfg);
      c.(needs_update := false, body := b, results := c.results + [Some(b)], origin := origin,
         oh_remote := Some(c.body.headers['o']))
  }

  /** The end of one section's update; an exception never gets here. */
  function FinishOne(c: Change, f: Finish, cfg: Settings, address: string): Change {
    if f.verdict.Raised? || !c.needs_update || f.sect >= |c.body.sections| then c
    else
      var c1 := c.(waiting := c.waiting - {f.sect});
      if f.verdict.Failure? then c1.(needs_update := false, results := c.results + [None])
      else
        var was := c.body.sections[f.sect];
        var c2 := c1.(body := c.body.(attrs := cfg.finTop(c.body.attrs, was, f.verdict.ur),
                                      sections := c.body.sections[f.sect := Rewrite(was, f.verdict.ur, cfg)]));
        if c2.waiting == {} then FinishAll(c2, cfg, address, f.freshSid) else c2
  }

  function Run(c: Change, fs: seq<Finish>, cfg: Settings, address: string): Change
    decreases |fs|
  {
    if fs == [] then c else FinishOne(Run(c, fs[..|fs| - 1], cfg, address), fs[|fs| - 1], cfg, address)
  }

  /** `sections` are the supported ones; each has had its update issued. */
  function Begin(b: Body, sections: set<nat>, origin: Own, remote: Option<Header>): Change {
    Change(true, b, sections, [], origin, remote)
  }

  // ----- The callback fires exactly once -----

  ghost function Finished(fs: seq<Finish>): set<nat> {
    set i | 0 <= i < |fs| :: fs[i].sect
  }

  ghost function Succeeded(fs: seq<Finish>): set<nat> {
    set i | 0 <= i < |fs| && fs[i].verdict.Success? :: fs[i].sect
  }

  /** Every supported section finishes once. */
  ghost predicate EachOnce(fs: seq<Finish>, sections: set<nat>) {
    Finished(fs) == sections && forall i, j :: 0 <= i < j < |fs| ==> fs[i].sect != fs[j].sect
  }

  ghost predicate AllSucceed(fs: seq<Finish>) {
    forall i :: 0 <= i < |fs| ==> fs[i].verdict.Success?
  }

  ghost predicate NoFailure(fs: seq<Finish>) {
    forall i :: 0 <= i < |fs| ==> !fs[i].verdict.Failure?
  }

  ghost predicate NoneRaised(fs: seq<Finish>) {
    forall i :: 0 <= i < |fs| ==> !fs[i].verdict.Raised?
  }

  /** Each section that succeeded is rewritten with its own result, any other is as it was. */
  ghost predicate Rewritten(orig: seq<Section>, now: seq<Section>, fs: seq<Finish>, cfg: Settings) {
    && |now| == |orig|
    && (forall i :: 0 <= i < |fs| && fs[i].sect < |orig| && fs[i].verdict.Success? ==>
                      now[fs[i].sect] == Rewrite(orig[fs[i].sect], fs[i].verdict.ur, cfg))
    && (forall k :: 0 <= k < |orig| && k !in Succeeded(fs) ==> now[k] == orig[k])
  }

  /** The session's attributes after the answers `fs`: each section that succeeded has had its say, in that order. */
  function AttrsAfter(b: Body, fs: seq<Finish>, cfg: Settings): seq<Attr> {
    if fs == [] then b.attrs
    else
      var (attrs, f) := (AttrsAfter(b, fs[..|fs| - 1], cfg), fs[|fs| - 1]);
      if f.verdict.Success? && f.sect < |b.sections| then cfg.finTop(attrs, b.sections[f.sect], f.verdict.ur) else attrs
  }

  lemma AttrsAfterSnoc(b: Body, fs: seq<Finish>, f: Finish, cfg: Settings)
    requires f.sect < |b.sections|
    ensures AttrsAfter(b, fs + [f], cfg)
            == if f.verdict.Success? then cfg.finTop(AttrsAfter(b, fs, cfg), b.sections[f.sect], f.verdict.ur)
               else AttrsAfter(b, fs, cfg)
  {
    assert (fs + [f])[..|fs|] == fs;
  }

  ghost predicate Midway(c: Change, b: Body, fs: seq<Finish>, sections: set<nat>, cfg: Settings) {
    && c.needs_update && c.results == []
    && c.waiting == sections - Succeeded(fs)
    && c.body == b.(attrs := AttrsAfter(b, fs, cfg), sections := c.body.sections)
    && Rewritten(b.sections, c.body.sections, fs, cfg)
  }

  ghost predicate Broken(c: Change) {
    !c.needs_update && c.results == [None]
  }

  lemma SucceededSnoc(fs: seq<Finish>, f: Finish)
    ensures Succeeded(fs + [f]) == if f.verdict.Success? then Succeeded(fs) + {f.sect} else Succeeded(fs)
  {
    var all := fs + [f];
    forall x | x in Succeeded(fs) ensures x in Succeeded(all) {
      var i :| 0 <= i < |fs| && fs[i].verdict.Success? && fs[i].sect == x;
      assert all[i].sect == x;
    }
    assert all[|fs|] == f;
    forall x | x in Succeeded(all) ensures x in Succeeded(fs) || (f.verdict.Success? && x == f.sect) {
      var i :| 0 <= i < |all| && all[i].verdict.Success? && all[i].sect == x;
      assert i < |fs| ==> fs[i] == all[i];
    }
  }

  lemma NoFailureSnoc(fs: seq<Finish>, f: Finish)
    ensures NoFailure(fs + [f]) <==> NoFailure(fs) && !f.verdict.Failure?
  {
    var all := fs + [f];
    assert all[|fs|] == f && forall i :: 0 <= i < |fs| ==> all[i] == fs[i];
  }

  /** A section other than those of `fs` has not succeeded among them. */
  lemma NotYet(fs: seq<Finish>, x: nat)
    requires forall i :: 0 <= i < |fs| && fs[i].verdict.Success? ==> fs[i].sect != x
    ensures x !in Succeeded(fs)
  {
  }

  lemma RewrittenSnoc(orig: seq<Section>, now: seq<Section>, fs: seq<Finish>, f: Finish, cfg: Settings)
    requires Rewritten(orig, now, fs, cfg) && f.sect < |orig| && f.sect !in Succeeded(fs) && f.verdict.Success?
    ensures Rewritten(orig, now[f.sect := Rewrite(now[f.sect], f.verdict.ur, cfg)], fs + [f], cfg)
  {
    SucceededSnoc(fs, f);
    var all, now' := fs + [f], now[f.sect := Rewrite(now[f.sect], f.verdict.ur, cfg)];
    assert forall i :: 0 <= i < |fs| && fs[i].verdict.Success? ==> fs[i].sect in Succeeded(fs);
    hide Rewrite, Succeeded;
    forall i | 0 <= i < |all| && all[i].sect < |orig| && all[i].verdict.Success?
      ensures now'[all[i].sect] == Rewrite(orig[all[i].sect], all[i].verdict.ur, cfg)
    {
      if i < |fs| {
        assert all[i] == fs[i];
      }
    }
  }

  lemma RewrittenRaised(orig: seq<Section>, now: seq<Section>, fs: seq<Finish>, f: Finish, cfg: Settings)
    requires Rewritten(orig, now, fs, cfg) && f.verdict.Raised?
    ensures Rewritten(orig, now, fs + [f], cfg)
  {
    SucceededSnoc(fs, f);
    hide Rewrite, Succeeded;
  }

  /** One answer that is not the last success. */
  lemma StepBefore(c: Change, b: Body, before: seq<Finish>, f: Finish, sections: set<nat>,
                   cfg: Settings, address: string, later: nat)
    requires if NoFailure(before) then Midway(c, b, before, sections, cfg) else Broken(c)
    requires f.sect < |b.sections| && f.sect !in Succeeded(before)
    requires NoFailure(before + [f]) ==> later in sections && later !in Succeeded(before + [f])
    ensures var c' := FinishOne(c, f, cfg, address);
            if NoFailure(before + [f]) then Midway(c', b, before + [f], sections, cfg) else Broken(c')
  {
    SucceededSnoc(before, f);
    NoFailureSnoc(before, f);
    AttrsAfterSnoc(b, before, f, cfg);
    if NoFailure(before) && f.verdict.Success? {
      RewrittenSnoc(b.sections, c.body.sections, before, f, cfg);
    } else if NoFailure(before) && f.verdict.Raised? {
      RewrittenRaised(b.sections, c.body.sections, before, f, cfg);
    }
    hide Rewrite, FinishAll, Succeeded, Rewritten, NoFailure, AttrsAfter;
    if NoFailure(before + [f]) && f.verdict.Success? {
      assert later in c.waiting - {f.sect};
    }
  }

  /** While an answer is to come, or an exception has swallowed one: nothing has been called, unless one failed. */
  lemma {:induction false} UnlessAllSucceed(b: Body, sections: set<nat>, fs: seq<Finish>, k: nat, cfg: Settings,
                                            address: string, origin: Own, remote: Option<Header>)
    requires EachOnce(fs, sections) && k <= |fs| && (k < |fs| || !AllSucceed(fs))
    requires forall i :: i in sections ==> i < |b.sections|
    ensures var c := Run(Begin(b, sections, origin, remote), fs[..k], cfg, address);
            if NoFailure(fs[..k]) then Midway(c, b, fs[..k], sections, cfg) else Broken(c)
    decreases k
  {
    if k > 0 {
      UnlessAllSucceed(b, sections, fs, k - 1, cfg, address, origin, remote);
      var before, f := fs[..k - 1], fs[k - 1];
      assert fs[..k] == before + [f] && fs[..k][..k - 1] == before;
      var c := Run(Begin(b, sections, origin, remote), before, cfg, address);
      assert Run(Begin(b, sections, origin, remote), fs[..k], cfg, address) == FinishOne(c, f, cfg, address);
      assert f.sect in Finished(fs);
      NotYet(before, f.sect);
      var later := SomeLater(fs, k, sections);
      hide Run, Finished, Rewrite, FinishAll, EachOnce, Succeeded, NoFailure, AllSucceed, Midway, Broken;
      StepBefore(c, b, before, f, sections, cfg, address, later);
    } else {
      assert fs[..0] == [] && Succeeded([]) == {};
    }
  }

  lemma SomeLater(fs: seq<Finish>, k: nat, sections: set<nat>) returns (later: nat)
    requires EachOnce(fs, sections) && 0 < k <= |fs| && (k < |fs| || !AllSucceed(fs))
    ensures NoFailure(fs[..k]) ==> later in sections && later !in Succeeded(fs[..k])
  {
    var j := k;
    if k == |fs| {
      j :| 0 <= j < |fs| && !fs[j].verdict.Success?;
    }
    later := fs[j].sect;
    assert later in Finished(fs);
    if NoFailure(fs[..k]) {
      forall i | 0 <= i < k && fs[i].verdict.Success? ensures fs[i].sect != later {
      }
      NotYet(fs[..k], later);
    }
  }

  /** What the callback got: a body exactly when every section succeeded, and then each supported section is rewritten
      with its own result, no other section is, and the session's attributes went through all of them;
      an error if one failed; nothing if an exception swallowed an answer and none failed. */
  ghost predicate Settled(c: Change, b: Body, fs: seq<Finish>, cfg: Settings, address: string)
    requires 'o' in b.headers
  {
    && |c.results| <= 1
    && (|c.results| == 1 <==> NoneRaised(fs) || !NoFailure(fs))
    && (|c.results| == 1 && c.results[0].Some? <==> AllSucceed(fs))
    && (AllSucceed(fs) && |c.results| == 1 ==>
          exists now :: Rewritten(b.sections, now, fs, cfg)
                        && c.results[0]
                           == Some(Marked(Body(b.headers['o' := OwnHeader(c.origin, address)],
                                               AttrsAfter(b, fs, cfg), now), cfg)))
  }

  /** For a body with at least one supported section, whose updates are all answered in some order: the callback is
      called exactly once, exactly when no answer raises an exception or some answer is a failure. */
  lemma CallbackOnce(b: Body, sections: set<nat>, fs: seq<Finish>, cfg: Settings, address: string,
                     origin: Own, remote: Option<Header>)
    requires EachOnce(fs, sections) && sections != {} && forall i :: i in sections ==> i < |b.sections|
    requires 'o' in b.headers
    ensures Settled(Run(Begin(b, sections, origin, remote), fs, cfg, address), b, fs, cfg, address)
  {
    var c := Run(Begin(b, sections, origin, remote), fs, cfg, address);
    if AllSucceed(fs) {
      AllSucceeded(b, sections, fs, cfg, address, origin, remote);
    } else {
      UnlessAllSucceed(b, sections, fs, |fs|, cfg, address, origin, remote);
      assert fs[..|fs|] == fs;
      hide Run, Finished, EachOnce, Succeeded, Rewritten;
    }
  }

  lemma AllSucceeded(b: Body, sections: set<nat>, fs: seq<Finish>, cfg: Settings, address: string,
                     origin: Own, remote: Option<Header>)
    requires EachOnce(fs, sections) && sections != {} && forall i :: i in sections ==> i < |b.sections|
    requires 'o' in b.headers && AllSucceed(fs)
    ensures Settled(Run(Begin(b, sections, origin, remote), fs, cfg, address), b, fs, cfg, address)
  {
    hide FinishOne, Midway, Settled, Rewritten;
    assert fs != [] by {
      assert Finished([]) == {};
    }
    var n := |fs| - 1;
    UnlessAllSucceed(b, sections, fs, n, cfg, address, origin, remote);
    var before, f := fs[..n], fs[n];
    assert fs == before + [f] && NoFailure(before);
    var c := Run(Begin(b, sections, origin, remote), before, cfg, address);
    assert f.sect in Finished(fs);
    NotYet(before, f.sect);
    SucceededSnoc(before, f);
    assert sections == Succeeded(before) + {f.sect} by {
      assert Succeeded(fs) == Finished(fs);
    }
    assert Run(Begin(b, sections, origin, remote), fs, cfg, address) == FinishOne(c, f, cfg, address);
    hide Run, Finished, Succeeded, EachOnce, NoFailure;
    LastStep(c, b, before, f, sections, cfg, address);
  }

  lemma LastStep(c: Change, b: Body, before: seq<Finish>, f: Finish, sections: set<nat>, cfg: Settings, address: string)
    requires Midway(c, b, before, sections, cfg) && AllSucceed(before + [f])
    requires f.sect < |b.sections| && f.sect !in Succeeded(before) && sections == Succeeded(before) + {f.sect}
    requires 'o' in b.headers
    ensures Settled(FinishOne(c, f, cfg, address), b, before + [f], cfg, address)
  {
    assert (before + [f])[|before|] == f;
    hide Rewrite, Succeeded, OwnHeader, NextOrigin, Marked;
    RewrittenSnoc(b.sections, c.body.sections, before, f, cfg);
    AttrsAfterSnoc(b, before, f, cfg);
    assert c.waiting - {f.sect} == {};
    hide Rewritten, AttrsAfter;
  }

  /** One section, whose update the proxy answers with a text that raises: the callback is never called, and the body
      keeps waiting. */
  lemma AnswerSwallowed(b: Body, p: Params, cfg: Settings, address: string, origin: Own, remote: Option<Header>,
                        sid: nat)
    requires |b.sections| == 1
    ensures var c := Run(Begin(b, {0}, origin, remote), [Finish(0, VerdictOf(p, Some("&&1")), sid)], cfg, address);
            c == Begin(b, {0}, origin, remote) && c.results == [] && c.needs_update
  {
    AnswersThatRaise(p);
    hide VerdictOf;
    var fs := [Finish(0, VerdictOf(p, Some("&&1")), sid)];
    assert fs[..0] == [];
  }

  // ----- The object -----

  /** A side of the session with the body that is being changed. */
  class RtppsSide {
    var needs_update: bool
    var headers: map<char, Header>
    var attrs: seq<Attr>
    var sections: seq<Section>
    var waiting: set<nat>                 // the sections that need an update
    var origin: Own
    var oh_remote: Option<Header>
    var results: seq<Option<Body>>        // what the result callback has been called with
    const cfg: Settings

    function View(): Change
      reads this
    {
      Change(needs_update, Body(headers, attrs, sections), waiting, results, origin, oh_remote)
    }

    constructor (cfg: Settings, sid: nat)
      ensures this.cfg == cfg && View() == Begin(Body(map[], [], []), {}, Own(sid, sid), None).(needs_update := false)
    {
      this.cfg, needs_update := cfg, false;
      headers, attrs, sections, waiting, results := map[], [], [], {}, [];
      origin, oh_remote := Own(sid, sid), None;
    }

    /** `_on_sdp_change` as far as it decides which sections get an update. */
    method OnSdpChange(b: Body, supported: string -> bool) returns (issued: bool)
      modifies this
      ensures var todo := set i | 0 <= i < |b.sections| && HasTransport(b.sections[i], supported);
              && issued == (todo != {})
              && View() == (if issued then Begin(b, todo, old(origin), old(oh_remote))
                            else old(View()).(needs_update := false))
    {
      var sects: set<nat> := {};
      for i := 0 to |b.sections|
        invariant sects == set k | 0 <= k < i && HasTransport(b.sections[k], supported)
      {
        if HasTransport(b.sections[i], supported) {
          sects := sects + {i};
        }
      }
      issued := sects != {};
      if issued {
        headers, attrs, sections := b.headers, b.attrs, b.sections;
        needs_update, waiting, results := true, sects, [];
      } else {
        needs_update := false;
      }
    }

    method SdpChangeFinish(f: Finish, address: string)
      requires !f.verdict.Raised? && f.sect < |sections| && 'o' in headers
      modifies this
      ensures View() == FinishOne(old(View()), f, cfg, address)
    {
      hide Rewrite, FinishAll;
      if !needs_update {
        return;
      }
      waiting := waiting - {f.sect};
      if f.verdict.Failure? {
        needs_update := false;
        results := results + [None];
        return;
      }
      var sect := RewriteSection(sections[f.sect], f.verdict.ur);
      attrs := cfg.finTop(attrs, sections[f.sect], f.verdict.ur);
      sections := sections[f.sect := sect];
      if waiting == {} {
        FinishBody(f.freshSid, address);
      }
    }

    /** When no section needs an update any more. */
    method FinishBody(freshSid: nat, address: string)
      requires 'o' in headers
      modifies this
      ensures View() == FinishAll(old(View()), cfg, address, freshSid)
    {
      hide NextOrigin, OwnHeader, ParseAttr;
      var remote := headers['o'];
      origin := NextOrigin(origin, oh_remote, remote, freshSid);
      oh_remote := Some(remote);
      headers := headers['o' := OwnHeader(origin, address)];
      if cfg.nortpp && sections != [] {
        var n := |sections| - 1;
        sections := sections[n := sections[n].(attrs := sections[n].attrs + [ParseAttr("nortpproxy:yes")])];
      }
      needs_update := false;
      results := results + [Some(Body(headers, attrs, sections))];
    }

    method RewriteSection(sect: Section, ur: Update) returns (r: Section)
      ensures r == Rewrite(sect, ur, cfg)
    {
      var s := cfg.fin(sect, ur);
      var a := s.attrs;
      if ur.sendonly {
        a := RemoveSendrecv(a);
      }
      if cfg.repacketize.Some? {
        a := Repacketize(a, cfg.repacketize.value);
      }
      a := RewriteRtcp(a, ur);
      r := Section(RewriteHeaders(s.headers, ur), a);
    }

    method RemoveSendrecv(list: seq<Attr>) returns (r: seq<Attr>)
      ensures r == SendOnly(list)
    {
      r := RemoveNamed(list, "sendrecv");
      var found := Contains(r, "sendonly");
      hide WithoutName, HasName, ParseAttr;
      if !found {
        r := r + [ParseAttr("sendonly")];
      }
    }

    method RemoveNamed(list: seq<Attr>, name: string) returns (r: seq<Attr>)
      ensures r == WithoutName(list, name)
    {
      r := [];
      hide WithoutName;
      assert list[0..] == list;
      for i := 0 to |list|
        invariant r + WithoutName(list[i..], name) == WithoutName(list, name)
      {
        WithoutFrom(list, i, name);
        if list[i].name != name {
          r := r + [list[i]];
        }
      }
      WithoutEnd(list, name);
    }

    method Contains(list: seq<Attr>, name: string) returns (found: bool)
      ensures found == HasName(list, name)
    {
      for i := 0 to |list|
        invariant forall k :: 0 <= k < i ==> list[k].name != name
      {
        if list[i].name == name {
          return true;
        }
      }
      return false;
    }

    /** Goes over a copy of the list, and takes the old `ptime` attributes out of the list itself. */
    method Repacketize(list: seq<Attr>, ptime: int) returns (r: seq<Attr>)
      ensures r == Repacketized(list, ptime)
    {
      var fidx := -1;
      r := [];
      hide WithoutName;
      assert list[0..] == list;
      for i := 0 to |list|
        invariant r + WithoutName(list[i..], "ptime") == WithoutName(list, "ptime")
        invariant PtimeIndex(list[i..], |r|, fidx) == PtimeIndex(list, 0, -1)
      {
        WithoutFrom(list, i, "ptime");
        assert list[i..][1..] == list[i + 1..];
        if list[i].name == "ptime" {
          fidx := |r|;
        } else {
          if fidx == -1 && list[i].name == "fmtp" {
            fidx := |r| + 1;
          }
          r := r + [list[i]];
        }
      }
      WithoutEnd(list, "ptime");
      r := InsertAt(r, fidx, ParseAttr("ptime:" + Decimal(ptime)));
    }

    method RewriteRtcp(list: seq<Attr>, ur: Update) returns (r: seq<Attr>)
      ensures r == RtcpAttrs(list, ur)
    {
      r := list;
      for i := 0 to |list|
        invariant |r| == |list|
        invariant forall k :: 0 <= k < |list| ==> r[k] == if k < i then RtcpAttr(list[k], ur) else list[k]
      {
        if r[i].name == "rtcp" {
          r := r[i := RtcpAttr(r[i], ur)];
        }
      }
    }
  }

  lemma WithoutFrom(list: seq<Attr>, i: nat, name: string)
    requires i < |list|
    ensures WithoutName(list[i..], name)
            == (if list[i].name == name then [] else [list[i]]) + WithoutName(list[i + 1..], name)
  {
    assert list[i..][1..] == list[i + 1..];
  }

  lemma WithoutEnd(list: seq<Attr>, name: string)
    ensures WithoutName(list[|list|..], name) == []
  {
  }

  predicate HasTransport(s: Section, supported: string -> bool) {
    'm' in s.headers && s.headers['m'].Media? && supported(Lower(s.headers['m'].transport))
  }
}
