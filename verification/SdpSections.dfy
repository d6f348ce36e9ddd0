/** What the body that the result callback gets says, header by header and attribute by attribute, about each section
    whose update the RTP proxy has answered (`_sdp_change_finish` in `sippy/Rtp_proxy/Session/side.py`). */
module SdpSections {
  import opened Basics
  import opened SdpText
  import opened Sdp
  import opened RtpproxyUpdate
  import opened SdpChange

  // ----- Attributes -----

  predicate Has(attrs: seq<Attr>, name: string) {
    exists i :: 0 <= i < |attrs| && attrs[i].name == name
  }

  /** The attributes without those named in `gone`, in order. */
  function Rest(attrs: seq<Attr>, gone: set<string>): seq<Attr> {
    if attrs == [] then []
    else Rest(attrs[..|attrs| - 1], gone)
         + if attrs[|attrs| - 1].name in gone then [] else [attrs[|attrs| - 1]]
  }

  /** What an `rtcp` attribute says after the update. */
  function RtcpText(ur: Update): string {
    Decimal(ur.port + 1) + " IN " + ur.family + " " + ur.address
  }

  /** One by one the same, except that each `rtcp` attribute names the answer's next port and its address. */
  predicate Alike(was: seq<Attr>, now: seq<Attr>, ur: Update) {
    && |now| == |was|
    && forall i :: 0 <= i < |was| ==>
                     && now[i].name == was[i].name
                     && now[i].value == if was[i].name == "rtcp" then Some(RtcpText(ur)) else was[i].value
  }

  /** A section on hold sends only: it loses `sendrecv`, and gets `sendonly` at the end unless it has it. */
  predicate HeldAs(was: seq<Attr>, now: seq<Attr>) {
    now == Rest(was, {"sendrecv"}) + if Has(was, "sendonly") then [] else [Attr("sendonly", None)]
  }

  predicate LastAt(attrs: seq<Attr>, i: int, name: string) {
    0 <= i < |attrs| && attrs[i].name == name && !Has(attrs[i + 1..], name)
  }

  predicate FirstAt(attrs: seq<Attr>, i: int, name: string) {
    0 <= i < |attrs| && attrs[i].name == name && !Has(attrs[..i], name)
  }

  /** The packet time goes where the last old one was, else after the first `fmtp`, else to `otherwise`. */
  ghost predicate PtimeAt(attrs: seq<Attr>, j: int, otherwise: int) {
    && (forall i :: LastAt(attrs, i, "ptime") ==> j == |Rest(attrs[..i], {"ptime"})|)
    && (!Has(attrs, "ptime") ==>
          && (forall i :: FirstAt(attrs, i, "fmtp") ==> j == i + 1)
          && (!Has(attrs, "fmtp") ==> j == otherwise))
  }

  /** The new packet time is the only one, and nothing else is lost or moved; without an old one or an `fmtp` it goes in
      front of the last attribute. */
  ghost predicate PtimeIn(was: seq<Attr>, now: seq<Attr>, ptime: int, j: nat) {
    && j < |now| && now[j] == Attr("ptime", Some(Decimal(ptime)))
    && PtimeAt(was, j, if was == [] then 0 else |was| - 1)
    && now[..j] + now[j + 1..] == Rest(was, {"ptime"})
  }
  lemma {:induction false} RestIs(attrs: seq<Attr>, name: string)
    ensures WithoutName(attrs, name) == Rest(attrs, {name})
    decreases |attrs|
  {
    if attrs != [] {
      RestIs(attrs[1..], name);
      RestCons(attrs, {name});
    }
  }

  lemma {:induction false} RestCons(attrs: seq<Attr>, gone: set<string>)
    requires attrs != []
    ensures Rest(attrs, gone) == (if attrs[0].name in gone then [] else [attrs[0]]) + Rest(attrs[1..], gone)
    decreases |attrs|
  {
    var n := |attrs| - 1;
    RestSnoc(attrs[..n], attrs[n], gone);
    assert attrs[..n] + [attrs[n]] == attrs;
    if n > 0 {
      RestCons(attrs[..n], gone);
      RestSnoc(attrs[1..n], attrs[n], gone);
      assert attrs[..n][1..] == attrs[1..n] && attrs[1..n] + [attrs[n]] == attrs[1..];
      hide Rest;
      Reassociate(if attrs[0].name in gone then [] else [attrs[0]], Rest(attrs[1..n], gone),
                  if attrs[n].name in gone then [] else [attrs[n]]);
    } else {
      assert attrs[1..] == [] && attrs[..0] == [];
    }
  }

  lemma RestSnoc(attrs: seq<Attr>, a: Attr, gone: set<string>)
    ensures Rest(attrs + [a], gone) == Rest(attrs, gone) + if a.name in gone then [] else [a]
  {
    assert (attrs + [a])[..|attrs|] == attrs;
  }

  lemma Reassociate(a: seq<Attr>, b: seq<Attr>, c: seq<Attr>)
    ensures (a + b) + c == a + (b + c)
  {
  }

  /** What is left has none of the names, and everything else. */
  lemma {:induction false} RestHas(attrs: seq<Attr>, gone: set<string>, name: string)
    ensures Has(Rest(attrs, gone), name) <==> Has(attrs, name) && name !in gone
    decreases |attrs|
  {
    if attrs != [] {
      var n := |attrs| - 1;
      RestHas(attrs[..n], gone, name);
      HasSnoc(attrs, name);
      var r := Rest(attrs[..n], gone);
      if attrs[n].name !in gone {
        HasSnoc(r + [attrs[n]], name);
        assert (r + [attrs[n]])[..|r|] == r;
      } else {
        assert r + [] == r;
      }
    }
  }

  lemma HasSnoc(attrs: seq<Attr>, name: string)
    requires attrs != []
    ensures Has(attrs, name) <==> Has(attrs[..|attrs| - 1], name) || attrs[|attrs| - 1].name == name
  {
    var n := |attrs| - 1;
    if Has(attrs, name) {
      var i :| 0 <= i < |attrs| && attrs[i].name == name;
      assert i < n ==> attrs[..n][i].name == name;
    }
    if Has(attrs[..n], name) {
      var i :| 0 <= i < n && attrs[..n][i].name == name;
      assert attrs[i].name == name;
    }
  }

  lemma HeldIs(attrs: seq<Attr>)
    ensures HeldAs(attrs, SendOnly(attrs))
  {
    RestIs(attrs, "sendrecv");
    RestHas(attrs, {"sendrecv"}, "sendonly");
    var kept := Rest(attrs, {"sendrecv"});
    SameHas(kept, "sendonly");
    assert ParseAttr("sendonly") == Attr("sendonly", None) by {
      NoColon("sendonly");
    }
    hide ParseAttr, Rest, WithoutName, Has, HasName;
    assert kept + [] == kept;
  }

  lemma SameHas(attrs: seq<Attr>, name: string)
    ensures HasName(attrs, name) == Has(attrs, name)
  {
  }

  lemma NoColon(name: string)
    requires ':' !in name
    ensures ParseAttr(name) == Attr(name, None)
  {
    SplitOnceOf(name, ':', "");
  }

  lemma {:induction false} SomeLast(attrs: seq<Attr>, name: string)
    ensures Has(attrs, name) ==> exists i :: LastAt(attrs, i, name)
    decreases |attrs|
  {
    if attrs != [] {
      var n := |attrs| - 1;
      HasSnoc(attrs, name);
      if attrs[n].name == name {
        assert attrs[n + 1..] == [];
        assert LastAt(attrs, n, name);
      } else {
        SomeLast(attrs[..n], name);
        if Has(attrs[..n], name) {
          var i :| LastAt(attrs[..n], i, name);
          assert attrs[i + 1..][..n - i - 1] == attrs[..n][i + 1..];
          HasSnoc(attrs[i + 1..], name);
          assert LastAt(attrs, i, name);
        }
      }
    }
  }

  lemma {:induction false} SomeFirst(attrs: seq<Attr>, name: string)
    ensures Has(attrs, name) ==> exists i :: FirstAt(attrs, i, name)
    decreases |attrs|
  {
    if attrs != [] {
      var n := |attrs| - 1;
      HasSnoc(attrs, name);
      SomeFirst(attrs[..n], name);
      if Has(attrs[..n], name) {
        var i :| FirstAt(attrs[..n], i, name);
        assert attrs[..n][..i] == attrs[..i];
        assert FirstAt(attrs, i, name);
      } else if attrs[n].name == name {
        assert FirstAt(attrs, n, name);
      }
    }
  }

  /** A longer list has the same first, and the same last if what is added is something else. */
  lemma LastSnoc(attrs: seq<Attr>, a: Attr, i: int, name: string)
    requires LastAt(attrs + [a], i, name)
    ensures if a.name == name then i == |attrs| else LastAt(attrs, i, name)
  {
    var all := attrs + [a];
    if i < |attrs| {
      HasSnoc(all[i + 1..], name);
      assert all[i + 1..][..|attrs| - i - 1] == attrs[i + 1..];
    }
  }

  lemma FirstSnoc(attrs: seq<Attr>, a: Attr, i: int, name: string)
    requires FirstAt(attrs + [a], i, name)
    ensures if i < |attrs| then FirstAt(attrs, i, name) else i == |attrs| && a.name == name && !Has(attrs, name)
  {
    var all := attrs + [a];
    assert i < |attrs| ==> all[..i] == attrs[..i];
    assert i == |attrs| ==> all[..i] == attrs;
  }

  lemma {:induction false} RestAll(attrs: seq<Attr>, name: string)
    ensures |Rest(attrs, {name})| <= |attrs|
    ensures !Has(attrs, name) ==> Rest(attrs, {name}) == attrs
    decreases |attrs|
  {
    if attrs != [] {
      RestAll(attrs[..|attrs| - 1], name);
      HasSnoc(attrs, name);
    }
  }

  lemma {:induction false} RestPrefix(attrs: seq<Attr>, i: nat, gone: set<string>)
    requires i <= |attrs|
    ensures |Rest(attrs[..i], gone)| <= |Rest(attrs, gone)|
    decreases |attrs|
  {
    if i < |attrs| {
      RestPrefix(attrs[..|attrs| - 1], i, gone);
      assert attrs[..|attrs| - 1][..i] == attrs[..i];
    } else {
      assert attrs[..i] == attrs;
    }
  }

  /** The index is there as soon as there is something that gives it. */
  lemma IndexThere(attrs: seq<Attr>, f: int)
    requires PtimeAt(attrs, f, -1)
    ensures f >= -1 && (f == -1 <==> !Has(attrs, "ptime") && !Has(attrs, "fmtp"))
    ensures f <= |Rest(attrs, {"ptime"})|
  {
    SomeLast(attrs, "ptime");
    SomeFirst(attrs, "fmtp");
    RestAll(attrs, "ptime");
    if Has(attrs, "ptime") {
      var i :| LastAt(attrs, i, "ptime");
      RestPrefix(attrs, i, {"ptime"});
    } else if Has(attrs, "fmtp") {
      var i :| FirstAt(attrs, i, "fmtp");
    }
  }

  lemma IndexLast(attrs: seq<Attr>, a: Attr, f: int, i: int)
    requires PtimeAt(attrs, f, -1) && LastAt(attrs + [a], i, "ptime")
    ensures (if a.name == "ptime" then |Rest(attrs, {"ptime"})| else f) == |Rest((attrs + [a])[..i], {"ptime"})|
    ensures a.name != "ptime" ==> f != -1
  {
    LastSnoc(attrs, a, i, "ptime");
    InRange(attrs, i, "ptime");
    hide Rest, Has, LastAt, FirstAt;
    assert i <= |attrs| ==> (attrs + [a])[..i] == attrs[..i];
    assert attrs[..|attrs|] == attrs;
  }

  lemma IndexFirst(attrs: seq<Attr>, a: Attr, f: int, i: int)
    requires PtimeAt(attrs, f, -1) && !Has(attrs, "ptime") && FirstAt(attrs + [a], i, "fmtp")
    ensures (if f == -1 && a.name == "fmtp" then |attrs| + 1 else f) == i + 1
  {
    FirstSnoc(attrs, a, i, "fmtp");
    if i < |attrs| {
      FirstHas(attrs, i, "fmtp");
    }
    hide Rest, Has, LastAt, FirstAt;
  }

  lemma IndexStep(attrs: seq<Attr>, a: Attr, f: int)
    requires PtimeAt(attrs, f, -1)
    ensures var pos := |Rest(attrs, {"ptime"})|;
            var next := if a.name == "ptime" then pos else if f == -1 && a.name == "fmtp" then pos + 1 else f;
            PtimeAt(attrs + [a], next, -1)
  {
    var pos := |Rest(attrs, {"ptime"})|;
    var all := attrs + [a];
    assert all[..|attrs|] == attrs && all[|attrs|] == a;
    IndexThere(attrs, f);
    RestAll(attrs, "ptime");
    HasSnoc(all, "ptime");
    HasSnoc(all, "fmtp");
    forall i | LastAt(all, i, "ptime")
      ensures (if a.name == "ptime" then pos else f) == |Rest(all[..i], {"ptime"})|
      ensures a.name != "ptime" ==> f != -1
    {
      IndexLast(attrs, a, f, i);
    }
    if !Has(all, "ptime") {
      forall i | FirstAt(all, i, "fmtp") ensures (if f == -1 && a.name == "fmtp" then pos + 1 else f) == i + 1 {
        IndexFirst(attrs, a, f, i);
      }
    }
    hide Rest, Has, LastAt, FirstAt;
  }

  lemma InRange(attrs: seq<Attr>, i: int, name: string)
    ensures LastAt(attrs, i, name) ==> 0 <= i < |attrs|
  {
  }

  lemma FirstHas(attrs: seq<Attr>, i: int, name: string)
    requires FirstAt(attrs, i, name)
    ensures Has(attrs, name)
  {
  }

  lemma {:induction false} IndexFrom(attrs: seq<Attr>, i: nat, f: int)
    requires i <= |attrs| && PtimeAt(attrs[..i], f, -1)
    ensures PtimeAt(attrs, PtimeIndex(attrs[i..], |Rest(attrs[..i], {"ptime"})|, f), -1)
    decreases |attrs| - i
  {
    hide PtimeAt;
    if i < |attrs| {
      var before := attrs[..i];
      IndexStep(before, attrs[i], f);
      assert attrs[..i + 1] == before + [attrs[i]] && (before + [attrs[i]])[..i] == before;
      assert attrs[i..][1..] == attrs[i + 1..];
      var pos := |Rest(before, {"ptime"})|;
      IndexFrom(attrs, i + 1, if attrs[i].name == "ptime" then pos
                              else if f == -1 && attrs[i].name == "fmtp" then pos + 1 else f);
    } else {
      assert attrs[..i] == attrs && attrs[i..] == [];
    }
  }

  lemma ParsedNamed(name: string, v: string)
    requires ':' !in name
    ensures ParseAttr(name + ":" + v) == Attr(name, Some(v))
  {
    SplitOnceOf(name, ':', v);
    hide SplitOnce;
    assert name + ":" + v == name + [':'] + v;
  }

  lemma ParsedPtime(v: string)
    ensures ParseAttr("ptime:" + v) == Attr("ptime", Some(v))
  {
    hide *;
    ParsedNamed("ptime", v);
    assert "ptime:" + v == "ptime" + ":" + v;
  }

  /** Python puts what it inserts at -1 in front of the last element. */
  lemma PlaceIs(attrs: seq<Attr>, f: int)
    requires PtimeAt(attrs, f, -1)
    ensures PtimeAt(attrs, Place(f, |Rest(attrs, {"ptime"})|), if attrs == [] then 0 else |attrs| - 1)
  {
    IndexThere(attrs, f);
    RestAll(attrs, "ptime");
    hide Rest, Has, LastAt, FirstAt;
  }

  lemma RepacketizedIs(attrs: seq<Attr>, ptime: int) returns (j: nat)
    ensures PtimeIn(attrs, Repacketized(attrs, ptime), ptime, j)
  {
    hide Rest, Decimal, ParseAttr, PtimeIndex, WithoutName, Place, PtimeAt;
    var f := PtimeIndex(attrs, 0, -1);
    assert PtimeAt(attrs, f, -1) by {
      StartsAt();
      assert attrs[..0] == [] && attrs[0..] == attrs;
      IndexFrom(attrs, 0, -1);
    }
    PlaceIs(attrs, f);
    RestIs(attrs, "ptime");
    ParsedPtime(Decimal(ptime));
    j := Place(f, |Rest(attrs, {"ptime"})|);
    Inserted(Rest(attrs, {"ptime"}), j, Attr("ptime", Some(Decimal(ptime))));
  }

  lemma StartsAt()
    ensures PtimeAt([], -1, -1) && Rest([], {"ptime"}) == []
  {
  }

  lemma Inserted(rest: seq<Attr>, j: nat, a: Attr)
    requires j <= |rest|
    ensures var now := rest[..j] + [a] + rest[j..];
            j < |now| && now[j] == a && now[..j] + now[j + 1..] == rest
  {
    var now := rest[..j] + [a] + rest[j..];
    assert now[..j] == rest[..j] && now[j + 1..] == rest[j..];
  }

  // ----- A section -----

  /** The connection is the proxy's; the port is the proxy's unless the stream was off; all else stays. */
  predicate HeaderSays(name: char, was: Header, now: Header, ur: Update) {
    if name == 'c' && was.Connection? then
      now.Connection? && now.ntype == was.ntype && now.atype == ur.family && now.addr == ur.address
    else if name == 'm' && was.Media? then
      && now.Media? && now.port == (if was.port == 0 then 0 else ur.port)
      && now.stype == was.stype && now.transport == was.transport && now.formats == was.formats
    else now == was
  }

  /** `held` is the list after the hold, `packed` the one with the packet time, as far as either takes place. */
  ghost predicate Stages(was: seq<Attr>, held: seq<Attr>, packed: seq<Attr>, ur: Update, repacketize: Option<int>) {
    && (if ur.sendonly then HeldAs(was, held) else held == was)
    && (if repacketize.Some? then exists j: nat :: PtimeIn(held, packed, repacketize.value, j) else packed == held)
  }

  ghost predicate AttrsSay(was: seq<Attr>, now: seq<Attr>, ur: Update, repacketize: Option<int>) {
    && (exists held, packed :: Stages(was, held, packed, ur, repacketize) && Alike(packed, now, ur))
    && (ur.sendonly ==> Has(now, "sendonly") && !Has(now, "sendrecv"))
    && (forall i :: 0 <= i < |now| && now[i].name == "rtcp" ==> now[i].value == Some(RtcpText(ur)))
  }

  /** `was` is the section as the subcommands left it. */
  ghost predicate SectionSays(was: Section, now: Section, ur: Update, cfg: Settings) {
    && now.headers.Keys == was.headers.Keys
    && (forall name :: name in was.headers ==> HeaderSays(name, was.headers[name], now.headers[name], ur))
    && AttrsSay(was.attrs, now.attrs, ur, cfg.repacketize)
  }

  lemma AlikeHas(was: seq<Attr>, now: seq<Attr>, ur: Update, name: string)
    requires Alike(was, now, ur)
    ensures Has(now, name) <==> Has(was, name)
  {
    hide RtcpText;
    if Has(was, name) {
      var i :| 0 <= i < |was| && was[i].name == name;
      assert now[i].name == name;
    }
  }

  lemma HasSame(attrs: seq<Attr>, other: seq<Attr>, name: string)
    requires attrs == other
    ensures Has(attrs, name) == Has(other, name)
  {
  }

  lemma HasJoin(a: seq<Attr>, b: seq<Attr>, name: string)
    ensures Has(a + b, name) <==> Has(a, name) || Has(b, name)
  {
    if Has(a, name) {
      var i :| 0 <= i < |a| && a[i].name == name;
      assert (a + b)[i].name == name;
    }
    if Has(b, name) {
      var i :| 0 <= i < |b| && b[i].name == name;
      assert (a + b)[|a| + i].name == name;
    }
  }

  lemma HeldHas(was: seq<Attr>, now: seq<Attr>)
    requires HeldAs(was, now)
    ensures Has(now, "sendonly") && !Has(now, "sendrecv")
  {
    RestHas(was, {"sendrecv"}, "sendrecv");
    RestHas(was, {"sendrecv"}, "sendonly");
    var extra := if Has(was, "sendonly") then [] else [Attr("sendonly", None)];
    assert !Has(was, "sendonly") ==> extra[0].name == "sendonly";
    HasJoin(Rest(was, {"sendrecv"}), extra, "sendonly");
    HasJoin(Rest(was, {"sendrecv"}), extra, "sendrecv");
  }

  lemma PtimeHas(was: seq<Attr>, now: seq<Attr>, ptime: int, j: nat, name: string)
    requires PtimeIn(was, now, ptime, j) && name != "ptime"
    ensures Has(now, name) <==> Has(was, name)
  {
    RestHas(was, {"ptime"}, name);
    hide PtimeAt, Rest, Decimal;
    assert now == now[..j] + ([now[j]] + now[j + 1..]);
    HasJoin(now[..j], [now[j]] + now[j + 1..], name);
    HasJoin([now[j]], now[j + 1..], name);
    HasJoin(now[..j], now[j + 1..], name);
  }

  lemma StagesHave(was: seq<Attr>, held: seq<Attr>, packed: seq<Attr>, ur: Update, repacketize: Option<int>)
    requires Stages(was, held, packed, ur, repacketize) && ur.sendonly
    ensures Has(packed, "sendonly") && !Has(packed, "sendrecv")
  {
    hide PtimeIn, HeldAs, Has;
    HeldHas(was, held);
    if repacketize.Some? {
      var j: nat :| PtimeIn(held, packed, repacketize.value, j);
      PtimeHas(held, packed, repacketize.value, j, "sendonly");
      PtimeHas(held, packed, repacketize.value, j, "sendrecv");
    }
  }

  lemma StagesSo(was: seq<Attr>, ur: Update, cfg: Settings)
    ensures var held := if ur.sendonly then SendOnly(was) else was;
            Stages(was, held, if cfg.repacketize.Some? then Repacketized(held, cfg.repacketize.value) else held, ur,
                   cfg.repacketize)
  {
    hide PtimeIn, HeldAs, SendOnly, Repacketized;
    HeldIs(was);
    var held := if ur.sendonly then SendOnly(was) else was;
    if cfg.repacketize.Some? {
      var j := RepacketizedIs(held, cfg.repacketize.value);
    }
  }

  lemma AttrsSo(was: seq<Attr>, ur: Update, cfg: Settings)
    ensures AttrsSay(was, RewriteAttrs(was, ur, cfg), ur, cfg.repacketize)
  {
    hide SendOnly, Repacketized, RtcpAttrs, RtcpText, Has, Stages;
    var held := if ur.sendonly then SendOnly(was) else was;
    var packed := if cfg.repacketize.Some? then Repacketized(held, cfg.repacketize.value) else held;
    StagesSo(was, ur, cfg);
    RtcpAlike(packed, ur);
    AttrsShape(was, held, packed, RtcpAttrs(packed, ur), ur, cfg.repacketize);
  }

  lemma AttrsShape(was: seq<Attr>, held: seq<Attr>, packed: seq<Attr>, now: seq<Attr>, ur: Update,
                   repacketize: Option<int>)
    requires Stages(was, held, packed, ur, repacketize) && Alike(packed, now, ur)
    ensures AttrsSay(was, now, ur, repacketize)
  {
    hide RtcpText, Has, HeldAs, PtimeIn;
    if ur.sendonly {
      StagesHave(was, held, packed, ur, repacketize);
    }
    AlikeHas(packed, now, ur, "sendonly");
    AlikeHas(packed, now, ur, "sendrecv");
  }

  lemma RtcpAlike(was: seq<Attr>, ur: Update)
    ensures Alike(was, RtcpAttrs(was, ur), ur)
  {
    hide Decimal;
  }

  lemma SectionSo(s: Section, ur: Update, cfg: Settings)
    ensures SectionSays(cfg.fin(s, ur), Rewrite(s, ur, cfg), ur, cfg)
  {
    AttrsSo(cfg.fin(s, ur).attrs, ur, cfg);
    hide AttrsSay, RewriteAttrs;
  }

  // ----- The body -----

  /** The last section is marked, where the session is configured to do so. */
  predicate MarkedAs(s: Section, now: Section, marked: bool) {
    now == if marked then s.(attrs := s.attrs + [Attr("nortpproxy", Some("yes"))]) else s
  }

  /** What became of section `k`: the answer `fs[i]` for it, or nothing. */
  ghost predicate BecameOf(b: Body, sections: set<nat>, fs: seq<Finish>, cfg: Settings, k: nat, s: Section)
    requires k < |b.sections|
  {
    if k in sections then
      exists i :: 0 <= i < |fs| && fs[i].sect == k && fs[i].verdict.Success?
                  && SectionSays(cfg.fin(b.sections[k], fs[i].verdict.ur), s, fs[i].verdict.ur, cfg)
    else s == b.sections[k]
  }

  lemma RewrittenBecomes(b: Body, sections: set<nat>, fs: seq<Finish>, cfg: Settings, k: nat, now: seq<Section>)
    requires EachOnce(fs, sections) && AllSucceed(fs) && k < |b.sections| && Rewritten(b.sections, now, fs, cfg)
    ensures |now| == |b.sections| && BecameOf(b, sections, fs, cfg, k, now[k])
  {
    hide SectionSays, Rewrite;
    if k in sections {
      assert k in Finished(fs);
      var i :| 0 <= i < |fs| && fs[i].sect == k;
      SectionSo(b.sections[k], fs[i].verdict.ur, cfg);
    } else {
      assert k !in Succeeded(fs) by {
        assert Succeeded(fs) <= Finished(fs);
      }
    }
  }

  lemma MarkedSo(b: Body, cfg: Settings, k: nat)
    requires k < |b.sections|
    ensures var m := Marked(b, cfg);
            && m.headers == b.headers && m.attrs == b.attrs && |m.sections| == |b.sections|
            && MarkedAs(b.sections[k], m.sections[k], cfg.nortpp && k == |b.sections| - 1)
  {
    hide ParseAttr;
    ParsedMark();
  }

  lemma ParsedMark()
    ensures ParseAttr("nortpproxy:yes") == Attr("nortpproxy", Some("yes"))
  {
    hide *;
    MarkText();
    ParsedNamed("nortpproxy", "yes");
  }

  lemma MarkText()
    ensures "nortpproxy:yes" == "nortpproxy" + ":" + "yes" && ':' !in "nortpproxy"
  {
    hide *;
  }

  /** When every update was answered and none failed, the body that the callback gets says in section `k` what the
      answer for that section says, or what it said if the section needs no update; every header of the session but
      the origin is as before. */
  lemma EverySectionSays(b: Body, sections: set<nat>, fs: seq<Finish>, cfg: Settings, address: string,
                         origin: Own, remote: Option<Header>, k: nat)
    requires EachOnce(fs, sections) && sections != {} && forall i :: i in sections ==> i < |b.sections|
    requires 'o' in b.headers && AllSucceed(fs) && k < |b.sections|
    ensures var c := Run(Begin(b, sections, origin, remote), fs, cfg, address);
            && |c.results| == 1 && c.results[0].Some?
            && var out := c.results[0].value;
               && |out.sections| == |b.sections|
               && (exists s :: MarkedAs(s, out.sections[k], cfg.nortpp && k == |b.sections| - 1)
                               && BecameOf(b, sections, fs, cfg, k, s))
               && out.headers.Keys == b.headers.Keys
               && forall name :: name in b.headers && name != 'o' ==> out.headers[name] == b.headers[name]
  {
    CallbackOnce(b, sections, fs, cfg, address, origin, remote);
    var c := Run(Begin(b, sections, origin, remote), fs, cfg, address);
    hide Run, EachOnce, Rewritten, MarkedAs, BecameOf, Marked, AttrsAfter, OwnHeader;
    assert NoneRaised(fs);
    var now :| Rewritten(b.sections, now, fs, cfg)
               && c.results[0] == Some(Marked(Body(b.headers['o' := OwnHeader(c.origin, address)],
                                                   AttrsAfter(b, fs, cfg), now), cfg));
    RewrittenBecomes(b, sections, fs, cfg, k, now);
    MarkedSo(Body(b.headers['o' := OwnHeader(c.origin, address)], AttrsAfter(b, fs, cfg), now), cfg, k);
  }

  // ----- The origin -----

  /** Until the end, the change has neither touched the headers nor this side's origin. */
  ghost predicate Untouched(c: Change, b: Body, origin: Own, remote: Option<Header>) {
    c.results == [] ==> c.body.headers == b.headers && c.origin == origin && c.oh_remote == remote
  }

  lemma StepUntouched(c: Change, f: Finish, cfg: Settings, address: string, b: Body, origin: Own,
                      remote: Option<Header>)
    requires Untouched(c, b, origin, remote) && 'o' in b.headers
    ensures var c' := FinishOne(c, f, cfg, address);
            && Untouched(c', b, origin, remote)
            && (c.results == [] && |c'.results| == 1 && c'.results[0].Some? ==>
                  && c'.origin == NextOrigin(origin, remote, b.headers['o'], f.freshSid)
                  && c'.oh_remote == Some(b.headers['o'])
                  && 'o' in c'.results[0].value.headers
                  && c'.results[0].value.headers['o'] == OwnHeader(c'.origin, address))
  {
    hide Rewrite, NextOrigin, OwnHeader, ParseAttr;
    assert c.results == [] ==> forall r: Option<Body> :: c.results + [r] == [r];
  }

  lemma {:induction false} RunUntouched(b: Body, sections: set<nat>, fs: seq<Finish>, cfg: Settings, address: string,
                                        origin: Own, remote: Option<Header>)
    requires 'o' in b.headers
    ensures Untouched(Run(Begin(b, sections, origin, remote), fs, cfg, address), b, origin, remote)
    decreases |fs|
  {
    hide FinishOne, Untouched;
    if fs != [] {
      var before, f := fs[..|fs| - 1], fs[|fs| - 1];
      RunUntouched(b, sections, before, cfg, address, origin, remote);
      StepUntouched(Run(Begin(b, sections, origin, remote), before, cfg, address), f, cfg, address, b, origin, remote);
    } else {
      StartsUntouched(b, sections, origin, remote);
    }
  }

  lemma StartsUntouched(b: Body, sections: set<nat>, origin: Own, remote: Option<Header>)
    ensures Untouched(Begin(b, sections, origin, remote), b, origin, remote)
  {
  }

  /** The number and the version that this side's origin had before, has now, or gets afresh. */
  predicate OriginSays(was: Own, now: Own, prev: Option<Header>, remote: Header, other: nat) {
    if prev.None? then now == was
    else if !prev.value.Origin? || !remote.Origin? || |prev.value.fields| < 3 || |remote.fields| < 3 then now == was
    else if remote.fields[1] == prev.value.fields[1] then
      now.sid == was.sid && now.version == was.version + if remote.fields[2] == prev.value.fields[2] then 0 else 1
    else now.sid == other && now.version == other
  }

  /** The body that the callback gets has this side's own origin at the proxy's address: the number stays while the
      remote number does, and then the version counts up exactly when the remote version changes; another remote
      number gets another number here. The next change is compared with the remote origin of this one. */
  lemma OriginOfTheBody(b: Body, sections: set<nat>, fs: seq<Finish>, cfg: Settings, address: string,
                        origin: Own, remote: Option<Header>)
    requires EachOnce(fs, sections) && sections != {} && forall i :: i in sections ==> i < |b.sections|
    requires 'o' in b.headers && AllSucceed(fs)
    ensures var c := Run(Begin(b, sections, origin, remote), fs, cfg, address);
            && fs != [] && |c.results| == 1 && c.results[0].Some?
            && OriginSays(origin, c.origin, remote, b.headers['o'], fs[|fs| - 1].freshSid)
            && c.oh_remote == Some(b.headers['o'])
            && 'o' in c.results[0].value.headers
            && c.results[0].value.headers['o']
               == Origin(["-", Decimal(c.origin.sid), Decimal(c.origin.version), "IN", "IP4", address])
  {
    CallbackOnce(b, sections, fs, cfg, address, origin, remote);
    assert fs != [] by {
      assert Finished([]) == {};
    }
    var n := |fs| - 1;
    UnlessAllSucceed(b, sections, fs, n, cfg, address, origin, remote);
    assert NoFailure(fs[..n]);
    var c := Run(Begin(b, sections, origin, remote), fs[..n], cfg, address);
    RunUntouched(b, sections, fs[..n], cfg, address, origin, remote);
    StepUntouched(c, fs[n], cfg, address, b, origin, remote);
    OriginSo(origin, remote, b.headers['o'], fs[n].freshSid);
    hide FinishOne, EachOnce, Rewritten, NextOrigin, OriginSays, AttrsAfter, Marked, Decimal;
  }

  lemma OriginSo(o: Own, prev: Option<Header>, remote: Header, other: nat)
    ensures OriginSays(o, NextOrigin(o, prev, remote, other), prev, remote, other)
  {
  }

  // ----- Which sections get an update -----

  /** Whether a transport is supported does not depend on its letters' case: it is so when `t`, which has the small
      letter for each capital one, is. */
  lemma TransportInAnyCase(s: Section, supported: string -> bool, t: string)
    requires 'm' in s.headers && s.headers['m'].Media? && |t| == |s.headers['m'].transport|
    requires forall i :: 0 <= i < |t| ==>
                           var x := s.headers['m'].transport[i];
                           t[i] as int == if 'A' <= x <= 'Z' then x as int + 32 else x as int
    ensures HasTransport(s, supported) <==> supported(t)
  {
    var u := Lower(s.headers['m'].transport);
    assert forall i :: 0 <= i < |t| ==> t[i] == u[i];
    assert t == u;
  }
}
