/** Printing an SDP body as lines and parsing the lines again, with and without the connection hoisted to session
    level. */
module SdpRoundTrip {
  import opened Basics
  import opened SdpText
  import opened Sdp

  // ----- One header -----

  lemma {:induction false} NumbersRoundTrip(ns: seq<int>)
    ensures ParseNumbers(Decimals(ns)) == Some(ns) && AreTokens(Decimals(ns))
  {
    if ns != [] {
      DecimalRoundTrip(ns[0]);
      NumbersRoundTrip(ns[1..]);
      var rest := Decimals(ns[1..]);
      assert Decimals(ns) == [Decimal(ns[0])] + rest;
      assert Decimals(ns)[1..] == rest;
      assert [ns[0]] + ns[1..] == ns;
      hide Decimal, ParseInt, IsToken;
    }
  }

  lemma MediaRoundTrip(h: Header)
    requires HeaderOk('m', h)
    ensures ParseMedia(Str(h)) == Ok(h)
  {
    var ts := [h.stype, Decimal(h.port), h.transport] + FormatTokens(h.formats);
    DecimalRoundTrip(h.port);
    if h.formats.Numbers? {
      NumbersRoundTrip(h.formats.pts);
    }
    hide Decimal, ParseInt, IsToken, IsAv, Split, Join, Decimals, ParseNumbers;
    SplitJoin(ts);
    assert ts[3..] == FormatTokens(h.formats);
  }

  lemma HeaderRoundTrip(name: char, h: Header)
    requires HeaderOk(name, h)
    ensures ParseHeader(name, Str(h)) == Ok(h)
  {
    if name == 'o' {
      SplitJoin(h.fields);
    } else if name == 'c' {
      SplitJoin([h.ntype, h.atype, h.addr]);
    } else if name == 'm' {
      MediaRoundTrip(h);
    }
    hide Split, Join, IsToken, ParseMedia;
  }

  lemma AttrRoundTrip(a: Attr)
    requires ':' !in a.name
    ensures ParseAttr(AttrStr(a)) == a
  {
    SplitOnceOf(a.name, ':', if a.value.Some? then a.value.value else "");
  }

  predicate IsSmall(c: char) {
    'a' <= c <= 'z'
  }

  lemma LineRoundTrip(name: char, v: string)
    requires IsSmall(name)
    ensures SplitOnce(Line(name, v), '=') == ([name], Some(v)) && Lower([name]) == [name]
  {
    SplitOnceOf([name], '=', v);
  }

  // ----- Parsing a printed block of lines -----

  lemma {:induction false} ReadThen(p: Parsing, a: seq<string>, p1: Parsing, b: seq<string>, p2: Parsing)
    requires ParseLines(p, a) == Ok(p1) && ParseLines(p1, b) == Ok(p2)
    ensures ParseLines(p, a + b) == Ok(p2)
    decreases |a|
  {
    hide ParseLine;
    if a == [] {
      assert a + b == b;
    } else {
      assert (a + b)[1..] == a[1..] + b;
      ReadThen(ParseLine(p, a[0]).value, a[1..], p1, b, p2);
    }
  }

  lemma ReadLineThen(p: Parsing, line: string, p1: Parsing, rest: seq<string>, p2: Parsing)
    requires ParseLine(p, line) == Ok(p1) && ParseLines(p1, rest) == Ok(p2)
    ensures ParseLines(p, [line] + rest) == Ok(p2)
  {
    hide ParseLine;
    assert ([line] + rest)[1..] == rest;
  }

  /** What reading the printed headers back adds to `base`. */
  function Overlay(base: map<char, Header>, names: string, headers: map<char, Header>): map<char, Header>
    decreases |names|
  {
    if names == "" then base
    else Overlay(if names[0] in headers then base[names[0] := headers[names[0]]] else base, names[1..], headers)
  }

  lemma {:induction false} OverlayLookup(base: map<char, Header>, names: string, headers: map<char, Header>, n: char)
    ensures var o := Overlay(base, names, headers);
            && (n in o <==> n in base || (n in names && n in headers))
            && (n in o ==> o[n] == if n in names && n in headers then headers[n] else base[n])
    decreases |names|
  {
    if names != "" {
      OverlayLookup(if names[0] in headers then base[names[0] := headers[names[0]]] else base, names[1..], headers, n);
    }
  }

  lemma {:induction false} HeaderLinesConcat(a: string, b: string, headers: map<char, Header>)
    ensures HeaderLines(a + b, headers) == HeaderLines(a, headers) + HeaderLines(b, headers)
    decreases |a|
  {
    hide Str;
    if a == "" {
      assert a + b == b;
    } else {
      assert (a + b)[1..] == a[1..] + b;
      HeaderLinesConcat(a[1..], b, headers);
    }
  }

  ghost predicate TopNames(names: string) {
    forall i :: 0 <= i < |names| ==> names[i] in TOP_HEADERS && names[i] != 'c' && IsSmall(names[i])
  }

  function WithTop(p: Parsing, headers: map<char, Header>): Parsing {
    p.(body := p.body.(headers := headers))
  }

  lemma TopLine(p: Parsing, name: char, h: Header)
    requires p.body.sections == [] && name in TOP_HEADERS && name != 'c' && IsSmall(name) && HeaderOk(name, h)
    ensures ParseLine(p, Line(name, Str(h))) == Ok(WithTop(p, p.body.headers[name := h]))
  {
    LineRoundTrip(name, Str(h));
    HeaderRoundTrip(name, h);
    assert name != 'm' && name != 'a';
    hide Str, ParseHeader, HeaderOk, SplitOnce, Lower;
  }

  lemma {:induction false} TopHeadersRead(p: Parsing, names: string, headers: map<char, Header>)
    requires p.body.sections == [] && TopNames(names) && HeadersOk(TOP_HEADERS, headers)
    ensures ParseLines(p, HeaderLines(names, headers)) == Ok(WithTop(p, Overlay(p.body.headers, names, headers)))
    decreases |names|
  {
    hide ParseLine, Str, HeaderOk;
    if names != "" {
      if names[0] in headers {
        TopLine(p, names[0], headers[names[0]]);
        TopHeadersRead(WithTop(p, p.body.headers[names[0] := headers[names[0]]]), names[1..], headers);
      } else {
        TopHeadersRead(p, names[1..], headers);
      }
    }
  }

  function WithAttrs(p: Parsing, attrs: seq<Attr>): Parsing {
    p.(body := p.body.(attrs := attrs))
  }

  lemma TopAttrLine(p: Parsing, a: Attr)
    requires p.body.sections == [] && ':' !in a.name
    ensures ParseLine(p, Line('a', AttrStr(a))) == Ok(WithAttrs(p, p.body.attrs + [a]))
  {
    LineRoundTrip('a', AttrStr(a));
    AttrRoundTrip(a);
    hide AttrStr, ParseAttr, SplitOnce, Lower;
  }

  lemma {:induction false} TopAttrsRead(p: Parsing, attrs: seq<Attr>)
    requires p.body.sections == [] && AttrsOk(attrs)
    ensures ParseLines(p, AttrLines(attrs)) == Ok(WithAttrs(p, p.body.attrs + attrs))
    decreases |attrs|
  {
    hide ParseLine, AttrStr, Line;
    if attrs == [] {
      assert p.body.attrs + attrs == p.body.attrs;
    } else {
      hide ParseLines;
      var p1 := WithAttrs(p, p.body.attrs + [attrs[0]]);
      TopAttrLine(p, attrs[0]);
      TopAttrsRead(p1, attrs[1..]);
      assert p.body.attrs + [attrs[0]] + attrs[1..] == p.body.attrs + attrs;
      ReadLineThen(p, Line('a', AttrStr(attrs[0])), p1, AttrLines(attrs[1..]), WithAttrs(p, p.body.attrs + attrs));
    }
  }

  function WithLast(p: Parsing, init: seq<Section>, s: Section): Parsing {
    p.(body := p.body.(sections := init + [s]))
  }

  lemma SectionLine(p: Parsing, init: seq<Section>, s: Section, name: char, h: Header)
    requires name in SECTION_HEADERS && IsSmall(name) && HeaderOk(name, h) && name != 'm'
    ensures ParseLine(WithLast(p, init, s), Line(name, Str(h)))
            == Ok(WithLast(p, init, s.(headers := s.headers[name := h])))
  {
    LineRoundTrip(name, Str(h));
    HeaderRoundTrip(name, h);
    assert name != 'a';
    assert (init + [s])[..|init|] == init;
    hide Str, ParseHeader, HeaderOk, SplitOnce, Lower;
  }

  lemma MediaLine(p: Parsing, h: Header)
    requires HeaderOk('m', h)
    ensures ParseLine(p, Line('m', Str(h))) == Ok(WithLast(p, p.body.sections, Section(map['m' := h], [])))
  {
    LineRoundTrip('m', Str(h));
    HeaderRoundTrip('m', h);
    var sections := p.body.sections + [Section(map[], [])];
    assert sections[..|p.body.sections|] == p.body.sections;
    hide Str, ParseHeader, HeaderOk, SplitOnce, Lower;
  }

  lemma {:induction false} SectionHeadersRead(p: Parsing, init: seq<Section>, s: Section, names: string,
                                              headers: map<char, Header>)
    requires forall i :: 0 <= i < |names| ==> names[i] in "icbk"
    requires HeadersOk(SECTION_HEADERS, headers)
    ensures ParseLines(WithLast(p, init, s), HeaderLines(names, headers))
            == Ok(WithLast(p, init, s.(headers := Overlay(s.headers, names, headers))))
    decreases |names|
  {
    hide ParseLine, Str, HeaderOk, WithLast;
    if names != "" {
      if names[0] in headers {
        SectionLine(p, init, s, names[0], headers[names[0]]);
        SectionHeadersRead(p, init, s.(headers := s.headers[names[0] := headers[names[0]]]), names[1..], headers);
      } else {
        SectionHeadersRead(p, init, s, names[1..], headers);
      }
    }
  }

  lemma SectionAttrLine(p: Parsing, init: seq<Section>, s: Section, a: Attr)
    requires ':' !in a.name
    ensures ParseLine(WithLast(p, init, s), Line('a', AttrStr(a))) == Ok(WithLast(p, init, s.(attrs := s.attrs + [a])))
  {
    LineRoundTrip('a', AttrStr(a));
    AttrRoundTrip(a);
    assert (init + [s])[..|init|] == init;
    hide AttrStr, ParseAttr, SplitOnce, Lower;
  }

  lemma {:induction false} SectionAttrsRead(p: Parsing, init: seq<Section>, s: Section, attrs: seq<Attr>)
    requires AttrsOk(attrs)
    ensures ParseLines(WithLast(p, init, s), AttrLines(attrs)) == Ok(WithLast(p, init, s.(attrs := s.attrs + attrs)))
    decreases |attrs|
  {
    hide ParseLine, AttrStr, WithLast;
    if attrs == [] {
      assert s.attrs + attrs == s.attrs;
    } else {
      SectionAttrLine(p, init, s, attrs[0]);
      SectionAttrsRead(p, init, s.(attrs := s.attrs + [attrs[0]]), attrs[1..]);
      assert s.attrs + [attrs[0]] + attrs[1..] == s.attrs + attrs;
    }
  }

  /** A section as it is read back when its connection was not printed. */
  function Stripped(s: Section, noC: bool): Section {
    if noC then s.(headers := s.headers - {'c'}) else s
  }

  lemma SectionOverlay(s: Section, noC: bool)
    requires SectionOk(s)
    ensures Overlay(map['m' := s.headers['m']], SectionNames(noC)[1..], s.headers) == Stripped(s, noC).headers
  {
    var o := Overlay(map['m' := s.headers['m']], SectionNames(noC)[1..], s.headers);
    hide HeaderOk, Overlay;
    forall n: char
      ensures n in o <==> n in Stripped(s, noC).headers
      ensures n in o ==> o[n] == Stripped(s, noC).headers[n]
    {
      OverlayLookup(map['m' := s.headers['m']], SectionNames(noC)[1..], s.headers, n);
    }
  }

  lemma SectionLinesSplit(s: Section, noC: bool)
    requires 'm' in s.headers
    ensures SectionLines(s, noC) == [Line('m', Str(s.headers['m']))]
                                    + (HeaderLines(SectionNames(noC)[1..], s.headers) + AttrLines(s.attrs))
  {
    hide AttrLines, Line, Str;
    assert SectionNames(noC)[0] == 'm';
  }

  lemma SectionRead(p: Parsing, s: Section, noC: bool)
    requires SectionOk(s)
    ensures ParseLines(p, SectionLines(s, noC)) == Ok(WithLast(p, p.body.sections, Stripped(s, noC)))
  {
    var m, names := s.headers['m'], SectionNames(noC)[1..];
    var init, first := p.body.sections, Section(map['m' := m], []);
    var read := first.(headers := Stripped(s, noC).headers);
    assert forall i :: 0 <= i < |names| ==> names[i] in "icbk";
    hide ParseLines, ParseLine, HeaderOk, WithLast, AttrLines, HeaderLines, Overlay, SectionLines;
    MediaLine(p, m);
    SectionHeadersRead(p, init, first, names, s.headers);
    SectionOverlay(s, noC);
    SectionAttrsRead(p, init, read, s.attrs);
    assert [] + s.attrs == s.attrs;
    var p1, p3 := WithLast(p, init, first), WithLast(p, init, Stripped(s, noC));
    ReadThen(p1, HeaderLines(names, s.headers), WithLast(p, init, read), AttrLines(s.attrs), p3);
    SectionLinesSplit(s, noC);
    ReadLineThen(p, Line('m', Str(m)), p1, HeaderLines(names, s.headers) + AttrLines(s.attrs), p3);
  }

  function AllStripped(sections: seq<Section>, hoisted: Option<string>): seq<Section> {
    if sections == [] then []
    else [Stripped(sections[0], Covered(sections[0], hoisted))] + AllStripped(sections[1..], hoisted)
  }

  lemma {:induction false} SectionsRead(p: Parsing, sections: seq<Section>, hoisted: Option<string>)
    requires forall i :: 0 <= i < |sections| ==> SectionOk(sections[i])
    ensures ParseLines(p, SectionsLines(sections, hoisted))
            == Ok(p.(body := p.body.(sections := p.body.sections + AllStripped(sections, hoisted))))
    decreases |sections|
  {
    hide SectionOk, SectionLines, Covered, Stripped, ParseLine;
    if sections == [] {
      assert p.body.sections + [] == p.body.sections;
    } else {
      hide ParseLines;
      var noC := Covered(sections[0], hoisted);
      SectionRead(p, sections[0], noC);
      var p1 := WithLast(p, p.body.sections, Stripped(sections[0], noC));
      SectionsRead(p1, sections[1..], hoisted);
      assert p1.body.sections + AllStripped(sections[1..], hoisted) == p.body.sections + AllStripped(sections, hoisted);
      ReadThen(p, SectionLines(sections[0], noC), p1, SectionsLines(sections[1..], hoisted),
               p.(body := p.body.(sections := p.body.sections + AllStripped(sections, hoisted))));
    }
  }

  // ----- The whole body -----

  lemma TopOverlay(b: Body)
    requires BodyOk(b)
    ensures Overlay(Overlay(map[], FIRST_HALF, b.headers), SECOND_HALF, b.headers) == b.headers - {'c'}
  {
    var first := Overlay(map[], FIRST_HALF, b.headers);
    var o := Overlay(first, SECOND_HALF, b.headers);
    hide HeaderOk, Overlay;
    forall n: char
      ensures n in o <==> n in b.headers - {'c'}
      ensures n in o ==> o[n] == b.headers[n]
    {
      OverlayLookup(map[], FIRST_HALF, b.headers, n);
      OverlayLookup(first, SECOND_HALF, b.headers, n);
    }
  }

  lemma ConnectionLine(p: Parsing, c: string)
    requires p.body.sections == []
    ensures ParseLines(p, [Line('c', c)]) == Ok(p.(c := Some(c)))
  {
    LineRoundTrip('c', c);
    assert [Line('c', c)][1..] == [];
    hide SplitOnce, Lower;
  }

  /** The session-level connection that the printed lines carry. */
  function TopConnection(b: Body, hoisted: Option<string>): Option<string> {
    if hoisted.Some? then hoisted else if 'c' in b.headers then Some(Str(b.headers['c'])) else None
  }

  function ConnectionLines(c: Option<string>): seq<string> {
    if c.Some? then [Line('c', c.value)] else []
  }

  lemma TopLines(b: Body, hoisted: Option<string>)
    ensures PrintWith(b, hoisted) ==
            (HeaderLines(FIRST_HALF, b.headers)
             + (ConnectionLines(TopConnection(b, hoisted)) + HeaderLines(SECOND_HALF, b.headers)))
            + (AttrLines(b.attrs) + SectionsLines(b.sections, hoisted))
  {
    hide AttrLines, SectionsLines;
    if hoisted.None? {
      assert TOP_HEADERS == FIRST_HALF + ("c" + SECOND_HALF);
      HeaderLinesConcat(FIRST_HALF, "c" + SECOND_HALF, b.headers);
      HeaderLinesConcat("c", SECOND_HALF, b.headers);
      assert HeaderLines("c"[1..], b.headers) == [];
      assert HeaderLines("c", b.headers) == ConnectionLines(TopConnection(b, hoisted));
    }
    hide HeaderLines, ConnectionLines, Line;
  }

  lemma TopRead(b: Body, c: Option<string>)
    requires BodyOk(b)
    ensures ParseLines(NOTHING, HeaderLines(FIRST_HALF, b.headers)
                                + (ConnectionLines(c) + HeaderLines(SECOND_HALF, b.headers)))
            == Ok(Parsing(Body(b.headers - {'c'}, [], []), c))
  {
    var first := Overlay(map[], FIRST_HALF, b.headers);
    var p1 := Parsing(Body(first, [], []), None);
    var p2 := Parsing(Body(first, [], []), c);
    var p3 := Parsing(Body(b.headers - {'c'}, [], []), c);
    hide ParseLine, HeaderLines, Overlay, HeaderOk, Missing, AttrsOk, SectionOk;
    assert TopNames(FIRST_HALF) && TopNames(SECOND_HALF);
    TopHeadersRead(NOTHING, FIRST_HALF, b.headers);
    TopHeadersRead(p2, SECOND_HALF, b.headers);
    TopOverlay(b);
    if c.Some? {
      ConnectionLine(p1, c.value);
    }
    assert ParseLines(p1, ConnectionLines(c)) == Ok(p2);
    hide ParseLines, ConnectionLines, BodyOk, TopNames;
    ReadThen(p1, ConnectionLines(c), p2, HeaderLines(SECOND_HALF, b.headers), p3);
    ReadThen(NOTHING, HeaderLines(FIRST_HALF, b.headers), p1,
             ConnectionLines(c) + HeaderLines(SECOND_HALF, b.headers), p3);
  }

  lemma BodyRead(b: Body, hoisted: Option<string>)
    requires BodyOk(b)
    ensures ParseLines(NOTHING, PrintWith(b, hoisted))
            == Ok(Parsing(Body(b.headers - {'c'}, b.attrs, AllStripped(b.sections, hoisted)),
                           TopConnection(b, hoisted)))
  {
    var c := TopConnection(b, hoisted);
    var top := Parsing(Body(b.headers - {'c'}, [], []), c);
    var attrs := Parsing(Body(b.headers - {'c'}, b.attrs, []), c);
    var all := Parsing(Body(b.headers - {'c'}, b.attrs, AllStripped(b.sections, hoisted)), c);
    TopRead(b, c);
    TopAttrsRead(top, b.attrs);
    assert [] + b.attrs == b.attrs;
    SectionsRead(attrs, b.sections, hoisted);
    assert [] + AllStripped(b.sections, hoisted) == AllStripped(b.sections, hoisted);
    hide ParseLines, HeaderLines, AttrLines, SectionsLines, ConnectionLines, TopConnection, BodyOk, PrintWith,
         AllStripped;
    TopLines(b, hoisted);
    var lines := HeaderLines(FIRST_HALF, b.headers) + (ConnectionLines(c) + HeaderLines(SECOND_HALF, b.headers));
    ReadThen(top, AttrLines(b.attrs), attrs, SectionsLines(b.sections, hoisted), all);
    ReadThen(NOTHING, lines, top, AttrLines(b.attrs) + SectionsLines(b.sections, hoisted), all);
  }

  lemma SectionRestored(s: Section, hoisted: Option<string>, c: string)
    requires SectionOk(s) && (hoisted.Some? ==> hoisted == Some(c))
    ensures var t := Stripped(s, Covered(s, hoisted));
            if 'c' in t.headers then t == s else AddSectionHeader(t, "c", c) == Ok(s)
  {
    HeaderRoundTrip('c', s.headers['c']);
    hide Str, ParseHeader, HeaderOk;
    assert (s.headers - {'c'})['c' := s.headers['c']] == s.headers;
  }

  lemma {:induction false} FillInRestores(sections: seq<Section>, hoisted: Option<string>, c: string)
    requires forall i :: 0 <= i < |sections| ==> SectionOk(sections[i])
    requires hoisted.Some? ==> hoisted == Some(c)
    ensures FillIn(AllStripped(sections, hoisted), c) == Ok(sections)
    decreases |sections|
  {
    hide SectionOk, Covered, AddSectionHeader, Stripped;
    if sections != [] {
      SectionRestored(sections[0], hoisted, c);
      FillInRestores(sections[1..], hoisted, c);
      assert AllStripped(sections, hoisted)[1..] == AllStripped(sections[1..], hoisted);
      assert [sections[0]] + sections[1..] == sections;
    }
  }

  lemma {:induction false} NothingStripped(sections: seq<Section>)
    ensures AllStripped(sections, None) == sections
  {
    if sections != [] {
      NothingStripped(sections[1..]);
    }
  }

  lemma {:induction false} NoneMissing(names: string, headers: map<char, Header>)
    ensures Missing(names, headers).None? <==> forall i :: 0 <= i < |names| ==> names[i] in headers
    decreases |names|
  {
    if names != "" {
      NoneMissing(names[1..], headers);
      assert forall i :: 0 < i < |names| ==> names[i] == names[1..][i - 1];
    }
  }

  lemma {:induction false} SectionsComplete(sections: seq<Section>)
    ensures MissingInSections(sections).None?
            <==> forall i :: 0 <= i < |sections| ==> 'c' in sections[i].headers && 'm' in sections[i].headers
    decreases |sections|
  {
    if sections != [] {
      NoneMissing(SECTION_REQUIRED, sections[0].headers);
      SectionsComplete(sections[1..]);
      assert forall i :: 0 < i < |sections| ==> sections[i] == sections[1..][i - 1];
    }
  }

  /** What comes back: a session-level connection of a body with sections does not. */
  function Canonical(b: Body): Body {
    if b.sections == [] then b else b.(headers := b.headers - {'c'})
  }

  lemma CheckPasses(b: Body)
    requires BodyOk(b)
    ensures Check(Canonical(b)) == Ok(Canonical(b))
  {
    hide HeaderOk, AttrsOk;
    NoneMissing(TOP_REQUIRED, b.headers);
    NoneMissing(TOP_REQUIRED, b.headers - {'c'});
    SectionsComplete(b.sections);
    hide Missing, MissingInSections;
  }

  lemma DistributeRestores(b: Body, hoisted: Option<string>)
    requires BodyOk(b) && (hoisted.Some? ==> b.sections != [])
    ensures Distribute(Parsing(Body(b.headers - {'c'}, b.attrs, AllStripped(b.sections, hoisted)),
                               TopConnection(b, hoisted)))
            == Ok(Canonical(b))
  {
    var c := TopConnection(b, hoisted);
    if c.Some? {
      FillInRestores(b.sections, hoisted, c.value);
      if b.sections == [] {
        HeaderRoundTrip('c', b.headers['c']);
        assert (b.headers - {'c'})['c' := b.headers['c']] == b.headers;
      }
    } else {
      NothingStripped(b.sections);
      assert b.headers - {'c'} == b.headers;
    }
    hide Str, ParseHeader, HeaderOk, Missing, SectionOk, AttrsOk;
  }

  lemma {:induction false} NothingBlank(lines: seq<string>)
    requires forall i :: 0 <= i < |lines| ==> !IsBlankLine(lines[i])
    ensures NonBlank(lines) == lines
  {
    if lines != [] {
      NothingBlank(lines[1..]);
    }
  }

  lemma LineNotBlank(name: char, v: string)
    ensures !IsBlankLine(Line(name, v))
  {
    assert Line(name, v)[1] == '=';
  }

  ghost predicate NoBlanks(lines: seq<string>) {
    forall i :: 0 <= i < |lines| ==> !IsBlankLine(lines[i])
  }

  lemma {:induction false} HeaderLinesNotBlank(names: string, headers: map<char, Header>)
    ensures NoBlanks(HeaderLines(names, headers))
  {
    hide IsBlankLine, Str;
    if names != "" {
      HeaderLinesNotBlank(names[1..], headers);
      if names[0] in headers {
        LineNotBlank(names[0], Str(headers[names[0]]));
      }
    }
  }

  lemma {:induction false} AttrLinesNotBlank(attrs: seq<Attr>)
    ensures NoBlanks(AttrLines(attrs))
  {
    hide IsBlankLine, AttrStr;
    if attrs != [] {
      AttrLinesNotBlank(attrs[1..]);
      LineNotBlank('a', AttrStr(attrs[0]));
    }
  }

  lemma {:induction false} SectionsLinesNotBlank(sections: seq<Section>, hoisted: Option<string>)
    ensures NoBlanks(SectionsLines(sections, hoisted))
  {
    hide IsBlankLine, HeaderLines, AttrLines, Covered;
    if sections != [] {
      SectionsLinesNotBlank(sections[1..], hoisted);
      HeaderLinesNotBlank(SectionNames(Covered(sections[0], hoisted)), sections[0].headers);
      AttrLinesNotBlank(sections[0].attrs);
    }
  }

  lemma PrintedNotBlank(b: Body, hoisted: Option<string>)
    ensures NonBlank(PrintWith(b, hoisted)) == PrintWith(b, hoisted)
  {
    hide IsBlankLine, HeaderLines, AttrLines, SectionsLines, NonBlank;
    HeaderLinesNotBlank(FIRST_HALF, b.headers);
    HeaderLinesNotBlank(SECOND_HALF, b.headers);
    HeaderLinesNotBlank(TOP_HEADERS, b.headers);
    AttrLinesNotBlank(b.attrs);
    SectionsLinesNotBlank(b.sections, hoisted);
    if hoisted.Some? {
      LineNotBlank('c', hoisted.value);
    }
    NothingBlank(PrintWith(b, hoisted));
  }

  /** Whatever connection text is hoisted over the sections, parsing gives the body back. */
  lemma ParseUndoesPrint(b: Body, hoisted: Option<string>)
    requires BodyOk(b) && (hoisted.Some? ==> b.sections != [])
    ensures Parse(PrintWith(b, hoisted)) == Ok(Canonical(b))
  {
    hide BodyOk, PrintWith, ParseLines, Distribute, Check, NonBlank, AllStripped, TopConnection, Canonical;
    PrintedNotBlank(b, hoisted);
    BodyRead(b, hoisted);
    DistributeRestores(b, hoisted);
    CheckPasses(b);
  }

  // ----- Every parsed body is one that prints faithfully -----

  lemma MediaParsedOk(v: string)
    requires ParseMedia(v).Ok?
    ensures HeaderOk('m', ParseMedia(v).value)
  {
    SplitGivesTokens(v);
    hide Split, IsToken, ParseInt, ParseNumbers, IsAv;
  }

  lemma HeaderParsedOk(name: char, v: string)
    requires ParseHeader(name, v).Ok?
    ensures HeaderOk(name, ParseHeader(name, v).value)
  {
    SplitGivesTokens(v);
    if name == 'm' {
      MediaParsedOk(v);
    }
    hide Split, IsToken, ParseMedia;
  }

  ghost predicate OpenSection(s: Section) {
    HeadersOk(SECTION_HEADERS, s.headers) && AttrsOk(s.attrs)
  }

  ghost predicate ParsingOk(b: Body) {
    && HeadersOk(TOP_HEADERS, b.headers) && AttrsOk(b.attrs)
    && forall i :: 0 <= i < |b.sections| ==> OpenSection(b.sections[i])
  }

  lemma SectionAdded(s: Section, name: string, v: string)
    requires OpenSection(s) && AddSectionHeader(s, name, v).Ok?
    ensures OpenSection(AddSectionHeader(s, name, v).value)
  {
    if name != "a" {
      HeaderParsedOk(name[0], v);
    }
    hide ParseHeader, HeaderOk;
  }

  lemma TopAdded(b: Body, name: string, v: string)
    requires ParsingOk(b) && AddTopHeader(b, name, v).Ok?
    ensures ParsingOk(AddTopHeader(b, name, v).value)
    ensures AddTopHeader(b, name, v).value.sections == b.sections
    ensures name != "c" && 'c' !in b.headers ==> 'c' !in AddTopHeader(b, name, v).value.headers
  {
    if name != "a" {
      HeaderParsedOk(name[0], v);
    }
    hide ParseHeader, HeaderOk, OpenSection;
  }

  lemma LineParsedOk(p: Parsing, line: string)
    requires ParsingOk(p.body) && 'c' !in p.body.headers && ParseLine(p, line).Ok?
    ensures ParsingOk(ParseLine(p, line).value.body) && 'c' !in ParseLine(p, line).value.body.headers
  {
    var (raw, v) := SplitOnce(line, '=');
    var name := Lower(raw);
    var sections := if name == "m" then p.body.sections + [Section(map[], [])] else p.body.sections;
    hide SplitOnce, Lower, HeaderOk;
    if sections != [] {
      SectionAdded(sections[|sections| - 1], name, v.value);
    } else if name != "c" {
      TopAdded(p.body, name, v.value);
    }
    hide AddSectionHeader, AddTopHeader, AttrsOk;
  }

  lemma {:induction false} LinesParsedOk(p: Parsing, lines: seq<string>)
    requires ParsingOk(p.body) && 'c' !in p.body.headers && ParseLines(p, lines).Ok?
    ensures ParsingOk(ParseLines(p, lines).value.body) && 'c' !in ParseLines(p, lines).value.body.headers
    decreases |lines|
  {
    hide ParsingOk, ParseLine;
    if lines != [] {
      LineParsedOk(p, lines[0]);
      LinesParsedOk(ParseLine(p, lines[0]).value, lines[1..]);
    }
  }

  lemma {:induction false} FilledOk(sections: seq<Section>, c: string)
    requires FillIn(sections, c).Ok? && forall i :: 0 <= i < |sections| ==> OpenSection(sections[i])
    ensures var filled := FillIn(sections, c).value;
            |filled| == |sections| && forall i :: 0 <= i < |filled| ==> OpenSection(filled[i])
    decreases |sections|
  {
    hide OpenSection, AddSectionHeader;
    if sections != [] {
      if 'c' !in sections[0].headers {
        SectionAdded(sections[0], "c", c);
      }
      FilledOk(sections[1..], c);
    }
  }

  /** A body that the parser accepts prints faithfully, and has no session-level connection if it has sections. */
  lemma ParsedOk(lines: seq<string>)
    ensures Parse(lines).Ok? ==> BodyOk(Parse(lines).value) && Canonical(Parse(lines).value) == Parse(lines).value
  {
    if Parse(lines).Ok? {
      var p := ParseLines(NOTHING, NonBlank(lines)).value;
      LinesParsedOk(NOTHING, NonBlank(lines));
      if p.c.Some? && p.body.sections != [] {
        FilledOk(p.body.sections, p.c.value);
      } else if p.c.Some? {
        TopAdded(p.body, "c", p.c.value);
      }
      var b := Parse(lines).value;
      SectionsComplete(b.sections);
      hide ParseLines, NonBlank, FillIn, AddTopHeader, AttrsOk, HeadersOk, Missing, MissingInSections;
      if b.sections != [] {
        assert b.headers - {'c'} == b.headers;
      }
    }
  }

  // ----- Main results -----

  /** The printed lines parse to the same body as the lines with a connection in every section; it is the body that
      was printed, exactly when there are no sections or no session-level connection. */
  lemma LinesKeepMeaning(b: Body)
    requires BodyOk(b)
    ensures Parse(Print(b)) == Parse(PrintPlain(b)) == Ok(Canonical(b))
    ensures Parse(Print(b)) == Ok(b) <==> b.sections == [] || 'c' !in b.headers
  {
    hide BodyOk, PrintWith, Parse, Hoisted;
    assert Hoisted(b).Some? ==> b.sections != [] by {
      HoistedHasSections(b);
    }
    ParseUndoesPrint(b, Hoisted(b));
    ParseUndoesPrint(b, None);
    if 'c' !in b.headers {
      assert b.headers - {'c'} == b.headers;
    } else {
      assert 'c' !in b.headers - {'c'};
    }
  }

  lemma HoistedHasSections(b: Body)
    ensures Hoisted(b).Some? ==> b.sections != []
  {
    hide Str;
  }
}
