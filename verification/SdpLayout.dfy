/** Which lines the SDP printer writes, and in which order; and what the parser makes of a line's name and of headers
    that are not there (`sippy/SdpBody.py`, `sippy/SdpMediaDescription.py`). */
module SdpLayout {
  import opened Basics
  import opened SdpText
  import opened Sdp
  import opened SdpRoundTrip

  // ----- The order of the lines -----

  /** The names of the lines, one character each. */
  function Kinds(lines: seq<string>): string {
    if lines == [] then "" else (if lines[0] == "" then "" else [lines[0][0]]) + Kinds(lines[1..])
  }

  lemma {:induction false} KindsConcat(a: seq<string>, b: seq<string>)
    ensures Kinds(a + b) == Kinds(a) + Kinds(b)
    decreases |a|
  {
    if a == [] {
      assert a + b == b;
    } else {
      assert (a + b)[1..] == a[1..] + b;
      KindsConcat(a[1..], b);
    }
  }

  /** Those of `names` whose headers are there, in this order. */
  function Present(names: string, headers: map<char, Header>): string {
    if names == "" then ""
    else (if names[0] in headers then [names[0]] else "") + Present(names[1..], headers)
  }

  lemma {:induction false} PresentConcat(a: string, b: string, headers: map<char, Header>)
    ensures Present(a + b, headers) == Present(a, headers) + Present(b, headers)
    decreases |a|
  {
    if a == "" {
      assert a + b == b;
    } else {
      assert (a + b)[1..] == a[1..] + b;
      PresentConcat(a[1..], b, headers);
    }
  }

  function Times(n: nat): string {
    if n == 0 then "" else "a" + Times(n - 1)
  }

  lemma {:induction false} HeaderKinds(names: string, headers: map<char, Header>)
    ensures Kinds(HeaderLines(names, headers)) == Present(names, headers)
    decreases |names|
  {
    hide Str;
    if names != "" {
      HeaderKinds(names[1..], headers);
      if names[0] in headers {
        var first, rest := Line(names[0], Str(headers[names[0]])), HeaderLines(names[1..], headers);
        assert first[0] == names[0] && ([first] + rest)[1..] == rest;
      }
    }
  }

  lemma {:induction false} AttrKinds(attrs: seq<Attr>)
    ensures Kinds(AttrLines(attrs)) == Times(|attrs|)
    decreases |attrs|
  {
    hide AttrStr;
    if attrs != [] {
      AttrKinds(attrs[1..]);
      var first, rest := Line('a', AttrStr(attrs[0])), AttrLines(attrs[1..]);
      assert first[0] == 'a' && ([first] + rest)[1..] == rest;
    }
  }

  /** A section begins with its `m` line; its `c` line is left out where the connection is the one at the top. */
  function SectionLayout(s: Section, top: Option<string>): string {
    Present(if top.Some? && 'c' in s.headers && Str(s.headers['c']) == top.value then "mibk" else "micbk", s.headers)
    + Times(|s.attrs|)
  }

  function SectionLayouts(sections: seq<Section>, top: Option<string>): string {
    if sections == [] then "" else SectionLayout(sections[0], top) + SectionLayouts(sections[1..], top)
  }

  /** The connection stands at the top if there is only one section, or if the first two have the same one and the
      session has none of its own. */
  predicate Shared(b: Body) {
    || (|b.sections| == 1 && 'c' in b.sections[0].headers)
    || (|b.sections| > 1 && 'c' !in b.headers && 'c' in b.sections[0].headers && 'c' in b.sections[1].headers
        && Str(b.sections[0].headers['c']) == Str(b.sections[1].headers['c']))
  }

  lemma {:induction false} SectionsKinds(sections: seq<Section>, top: Option<string>)
    ensures Kinds(SectionsLines(sections, top)) == SectionLayouts(sections, top)
    decreases |sections|
  {
    hide Str, HeaderLines, AttrLines;
    if sections != [] {
      var noC := Covered(sections[0], top);
      HeaderKinds(SectionNames(noC), sections[0].headers);
      AttrKinds(sections[0].attrs);
      KindsConcat(HeaderLines(SectionNames(noC), sections[0].headers), AttrLines(sections[0].attrs));
      KindsConcat(SectionLines(sections[0], noC), SectionsLines(sections[1..], top));
      SectionsKinds(sections[1..], top);
      hide Kinds, Present;
    }
  }

  /** The lines of the session's headers. */
  function Head(headers: map<char, Header>, top: Option<string>): seq<string> {
    match top
    case Some(c) => HeaderLines(FIRST_HALF, headers) + [Line('c', c)] + HeaderLines(SECOND_HALF, headers)
    case None => HeaderLines(TOP_HEADERS, headers)
  }

  lemma TopKinds(b: Body, top: Option<string>)
    ensures Kinds(PrintWith(b, top))
            == Present("vosiuep", b.headers) + (if top.Some? || 'c' in b.headers then "c" else "")
               + Present("btrzk", b.headers) + Times(|b.attrs|) + SectionLayouts(b.sections, top)
  {
    hide Str, HeaderLines, AttrLines, SectionsLines, SectionLayouts, Present, Kinds, Times;
    var head := Head(b.headers, top);
    HeadKinds(b.headers, top);
    AttrKinds(b.attrs);
    SectionsKinds(b.sections, top);
    KindsConcat(head, AttrLines(b.attrs));
    KindsConcat(head + AttrLines(b.attrs), SectionsLines(b.sections, top));
  }

  lemma HeadKinds(headers: map<char, Header>, top: Option<string>)
    ensures Kinds(Head(headers, top)) == Present("vosiuep", headers) + (if top.Some? || 'c' in headers then "c" else "")
                                         + Present("btrzk", headers)
  {
    HeaderKinds("vosiuep", headers);
    HeaderKinds("btrzk", headers);
    HeaderKinds("vosiuepcbtrzk", headers);
    OneKind(headers, if top.Some? then top.value else "");
    TopNamesSplit();
    PresentConcat("vosiuep" + "c", "btrzk", headers);
    PresentConcat("vosiuep", "c", headers);
    hide HeaderLines, Present, Kinds, Line;
    if top.Some? {
      KindsConcat(HeaderLines(FIRST_HALF, headers) + [Line('c', top.value)], HeaderLines(SECOND_HALF, headers));
      KindsConcat(HeaderLines(FIRST_HALF, headers), [Line('c', top.value)]);
    }
  }

  lemma OneKind(headers: map<char, Header>, c: string)
    ensures Kinds([Line('c', c)]) == "c"
    ensures Present("c", headers) == if 'c' in headers then "c" else ""
  {
    assert [Line('c', c)][1..] == [];
    assert "c"[1..] == "";
  }

  lemma TopNamesSplit()
    ensures "vosiuepcbtrzk" == "vosiuep" + "c" + "btrzk"
  {
    hide *;
  }

  /** Every printed body has its lines in this order: the session's headers, among them the connection if it is the
      session's own or the sections' common one, its attributes, and then each section with its headers and
      attributes, without the connection that stands at the top. */
  lemma PrintedLayout(b: Body)
    ensures var top := if Shared(b) then Some(Str(b.sections[0].headers['c'])) else None;
            Kinds(Print(b)) == Present("vosiuep", b.headers) + (if Shared(b) || 'c' in b.headers then "c" else "")
                               + Present("btrzk", b.headers) + Times(|b.attrs|) + SectionLayouts(b.sections, top)
  {
    hide Str, Kinds, Present, Times, SectionLayouts, PrintWith;
    TopKinds(b, Hoisted(b));
  }

  // ----- Reading -----

  /** The same name in small letters. */
  predicate InSmall(raw: string, name: string) {
    && |name| == |raw|
    && forall i :: 0 <= i < |raw| ==>
                     name[i] as int == if 'A' <= raw[i] <= 'Z' then raw[i] as int + 32 else raw[i] as int
  }

  /** A line means the same whether its name is written in capitals or not. */
  lemma NameInAnyCase(p: Parsing, raw: string, name: string, v: string)
    requires InSmall(raw, name) && '=' !in raw
    ensures ParseLine(p, raw + "=" + v) == ParseLine(p, name + "=" + v)
  {
    assert raw + "=" + v == raw + ['='] + v && name + "=" + v == name + ['='] + v;
    forall i | 0 <= i < |name| ensures name[i] != '=' {
      assert raw[i] != '=';
    }
    SplitOnceOf(raw, '=', v);
    SplitOnceOf(name, '=', v);
    assert forall i :: 0 <= i < |raw| ==> Lower(raw)[i] == name[i];
    assert forall i :: 0 <= i < |name| ==> Lower(name)[i] == name[i];
    assert Lower(raw) == name == Lower(name);
    hide SplitOnce, Lower, AddToLast, AddTopHeader;
  }

  /** What is read has the version, origin, name and time of the session, and each section its media and connection. */
  lemma ReadIsComplete(lines: seq<string>)
    ensures Parse(lines).Ok? ==>
              var b := Parse(lines).value;
              && (forall n :: n in "vost" ==> n in b.headers)
              && (forall n :: n in b.headers ==> n in "vosiuepcbtrzk")
              && forall i :: 0 <= i < |b.sections| ==>
                               && 'm' in b.sections[i].headers && 'c' in b.sections[i].headers
                               && forall n :: n in b.sections[i].headers ==> n in "micbk"
  {
    ParsedOk(lines);
    hide Parse, HeaderOk, AttrsOk;
    if Parse(lines).Ok? {
      var b := Parse(lines).value;
      forall n | n in "vost" ensures n in b.headers {
        RequiredThere("vost", b.headers, n);
      }
    }
  }

  lemma {:induction false} RequiredThere(names: string, headers: map<char, Header>, n: char)
    requires Missing(names, headers).None? && n in names
    ensures n in headers
    decreases |names|
  {
    if names[0] != n {
      RequiredThere(names[1..], headers, n);
    }
  }

  /** A line without `=`, or with a name that is no header's, is refused wherever it stands. */
  lemma UnknownIsRefused(p: Parsing, name: string, v: string)
    requires '=' !in name && (forall i :: 0 <= i < |name| ==> !('A' <= name[i] <= 'Z'))
    ensures ParseLine(p, name) == Err(BadLine)
    ensures var known := if p.body.sections == [] then "vosiuepcbtrzkm" else "micbk";
            name != "a" && (|name| != 1 || name[0] !in known) ==>
              ParseLine(p, name + "=" + v) == Err(UnknownHeader)
  {
    SplitOnceOf(name, '=', v);
    assert name + "=" + v == name + ['='] + v;
    assert forall i :: 0 <= i < |name| ==> Lower(name)[i] == name[i];
    assert Lower(name) == name;
    hide SplitOnce, Lower, ParseHeader, ParseAttr;
    assert "m"[0] == 'm' && "c"[0] == 'c';
  }

  lemma {:induction false} NonBlankWithout(a: seq<string>, line: string, b: seq<string>)
    requires forall i :: 0 <= i < |line| ==> IsBlank(line[i])
    ensures NonBlank(a + [line] + b) == NonBlank(a + b)
    decreases |a|
  {
    var with, without := a + [line] + b, a + b;
    if a == [] {
      assert with[1..] == b && without == b && [] + NonBlank(b) == NonBlank(b);
    } else {
      assert with[1..] == a[1..] + [line] + b && without[1..] == a[1..] + b;
      NonBlankWithout(a[1..], line, b);
    }
  }

  /** A line of nothing but blanks does not matter, wherever it stands. */
  lemma BlankLineIsSkipped(a: seq<string>, line: string, b: seq<string>)
    requires forall i :: 0 <= i < |line| ==> IsBlank(line[i])
    ensures Parse(a + [line] + b) == Parse(a + b)
  {
    hide NonBlank, ParseLines, Distribute, Check;
    NonBlankWithout(a, line, b);
  }

  /** `n` is the first of the names whose header is not there. */
  predicate FirstMissing(names: string, headers: map<char, Header>, n: char) {
    exists i :: 0 <= i < |names| && names[i] == n && n !in headers && forall j :: 0 <= j < i ==> names[j] in headers
  }

  lemma {:induction false} MissingIsFirst(names: string, headers: map<char, Header>)
    ensures Missing(names, headers).Some? ==> FirstMissing(names, headers, Missing(names, headers).value)
    decreases |names|
  {
    if names != "" && names[0] in headers {
      MissingIsFirst(names[1..], headers);
      if Missing(names[1..], headers).Some? {
        var n := Missing(names[1..], headers).value;
        var i :| 0 <= i < |names[1..]| && names[1..][i] == n && n !in headers
                 && forall j :: 0 <= j < i ==> names[1..][j] in headers;
        assert names[i + 1] == n;
        assert forall j :: 0 < j < i + 1 ==> names[j] == names[1..][j - 1];
      }
    }
  }

  lemma {:induction false} SectionMissing(sections: seq<Section>)
    ensures MissingInSections(sections).Some? ==>
              exists i :: 0 <= i < |sections|
                          && FirstMissing("cm", sections[i].headers, MissingInSections(sections).value)
    decreases |sections|
  {
    hide Missing, FirstMissing;
    if sections != [] {
      MissingIsFirst("cm", sections[0].headers);
      SectionMissing(sections[1..]);
      if Missing("cm", sections[0].headers).None? && MissingInSections(sections[1..]).Some? {
        var i :| 0 <= i < |sections[1..]|
                 && FirstMissing("cm", sections[1..][i].headers, MissingInSections(sections[1..]).value);
        assert sections[1..][i] == sections[i + 1];
      }
    }
  }

  /** A refusal for a missing header names the first one in the order v, o, s, t of the session, and if these are there,
      c, m of some section. */
  lemma RefusalNamesTheFirst(b: Body, e: Error)
    requires Check(b) == Err(e)
    ensures match e
            case MissingTop(n) => FirstMissing("vost", b.headers, n)
            case MissingMedia(n) =>
              && (forall h :: h in "vost" ==> h in b.headers)
              && exists i :: 0 <= i < |b.sections| && FirstMissing("cm", b.sections[i].headers, n)
            case _ => false
  {
    MissingIsFirst("vost", b.headers);
    SectionMissing(b.sections);
    hide MissingInSections, FirstMissing;
    if e.MissingMedia? {
      forall h | h in "vost" ensures h in b.headers {
        RequiredThere("vost", b.headers, h);
      }
    }
    hide Missing;
  }
}
