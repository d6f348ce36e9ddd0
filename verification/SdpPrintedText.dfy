/** Printing an SDP body as text and parsing the text again: what stripping and splitting the text into lines do. */
module SdpPrintedText {
  import opened Basics
  import opened SdpText
  import opened Sdp
  import opened SdpRoundTrip

  // ----- Values without line breaks -----

  ghost predicate CleanHeaders(headers: map<char, Header>) {
    forall n :: n in headers && headers[n].Generic? ==> NoBreak(headers[n].text)
  }

  predicate CleanAttr(a: Attr) {
    NoBreak(a.name) && (a.value.Some? ==> NoBreak(a.value.value))
  }

  ghost predicate CleanAttrs(attrs: seq<Attr>) {
    forall i :: 0 <= i < |attrs| ==> CleanAttr(attrs[i])
  }

  ghost predicate CleanSection(s: Section) {
    CleanHeaders(s.headers) && CleanAttrs(s.attrs)
  }

  /** No value of the body has a line break in it. */
  ghost predicate Clean(b: Body) {
    && CleanHeaders(b.headers) && CleanAttrs(b.attrs)
    && forall i :: 0 <= i < |b.sections| ==> CleanSection(b.sections[i])
  }

  lemma {:induction false} JoinHasNoBreak(ts: seq<string>)
    requires AreTokens(ts)
    ensures NoBreak(Join(ts))
    ensures ts != [] ==> Join(ts) != "" && !IsBlank(Join(ts)[|Join(ts)| - 1])
    decreases |ts|
  {
    if |ts| > 1 {
      JoinHasNoBreak(ts[1..]);
      var rest := Join(ts[1..]);
      var all := ts[0] + " " + rest;
      assert all[|all| - 1] == rest[|rest| - 1];
      assert forall i :: 0 <= i < |all| ==>
          all[i] == if i < |ts[0]| then ts[0][i] else if i == |ts[0]| then ' ' else rest[i - |ts[0]| - 1];
    }
  }

  lemma MediaTokens(h: Header)
    requires HeaderOk('m', h)
    ensures AreTokens([h.stype, Decimal(h.port), h.transport] + FormatTokens(h.formats))
  {
    DecimalRoundTrip(h.port);
    if h.formats.Numbers? {
      NumbersRoundTrip(h.formats.pts);
    }
    hide Decimal, ParseInt, IsToken, IsAv, Decimals, ParseNumbers;
  }

  /** Only generic headers can have a break, or a blank at the end. */
  lemma HeaderText(n: char, h: Header)
    requires HeaderOk(n, h)
    ensures h.Generic? || (NoBreak(Str(h)) && Str(h) != "" && !IsBlank(Str(h)[|Str(h)| - 1]))
  {
    if n == 'o' {
      JoinHasNoBreak(h.fields);
    } else if n == 'c' {
      JoinHasNoBreak([h.ntype, h.atype, h.addr]);
    } else if n == 'm' {
      MediaTokens(h);
      JoinHasNoBreak([h.stype, Decimal(h.port), h.transport] + FormatTokens(h.formats));
    }
    hide Join, IsToken, IsBlank, IsBreak, Decimal;
  }

  lemma LineHasNoBreak(n: char, v: string)
    requires NoBreak(v) && IsSmall(n)
    ensures NoBreak(Line(n, v))
  {
    var l := Line(n, v);
    assert forall i :: 0 <= i < |l| ==> l[i] == if i == 0 then n else if i == 1 then '=' else v[i - 2];
  }

  lemma {:induction false} HeaderLinesClean(names: string, headers: map<char, Header>)
    requires CleanHeaders(headers) && (forall n :: n in headers ==> HeaderOk(n, headers[n]))
    requires forall i :: 0 <= i < |names| ==> IsSmall(names[i])
    ensures NoBreaks(HeaderLines(names, headers))
    decreases |names|
  {
    hide HeaderOk, Str, NoBreak, Line;
    if names != "" {
      HeaderLinesClean(names[1..], headers);
      if names[0] in headers {
        HeaderText(names[0], headers[names[0]]);
        TextOfGeneric(headers[names[0]]);
        LineHasNoBreak(names[0], Str(headers[names[0]]));
      }
    }
  }

  lemma TextOfGeneric(h: Header)
    ensures h.Generic? ==> Str(h) == h.text
  {
  }

  lemma AttrText(a: Attr)
    requires CleanAttr(a)
    ensures NoBreak(AttrStr(a))
  {
    if a.value.Some? {
      var t := AttrStr(a);
      assert forall i :: 0 <= i < |t| ==>
          t[i] == if i < |a.name| then a.name[i] else if i == |a.name| then ':' else a.value.value[i - |a.name| - 1];
    }
  }

  lemma {:induction false} AttrLinesClean(attrs: seq<Attr>)
    requires CleanAttrs(attrs)
    ensures NoBreaks(AttrLines(attrs))
    decreases |attrs|
  {
    hide NoBreak, Line, AttrStr, CleanAttr;
    if attrs != [] {
      AttrLinesClean(attrs[1..]);
      AttrText(attrs[0]);
      LineHasNoBreak('a', AttrStr(attrs[0]));
    }
  }

  lemma NoBreaksConcat(a: seq<string>, b: seq<string>)
    requires NoBreaks(a) && NoBreaks(b)
    ensures NoBreaks(a + b)
  {
    hide NoBreak;
  }

  lemma SectionLinesClean(s: Section, noC: bool)
    requires SectionOk(s) && CleanSection(s)
    ensures NoBreaks(SectionLines(s, noC))
  {
    HeaderLinesClean(SectionNames(noC), s.headers);
    AttrLinesClean(s.attrs);
    hide NoBreaks, HeaderLines, AttrLines;
    NoBreaksConcat(HeaderLines(SectionNames(noC), s.headers), AttrLines(s.attrs));
  }

  lemma {:induction false} SectionsLinesClean(sections: seq<Section>, hoisted: Option<string>)
    requires forall i :: 0 <= i < |sections| ==> SectionOk(sections[i]) && CleanSection(sections[i])
    ensures NoBreaks(SectionsLines(sections, hoisted))
    decreases |sections|
  {
    hide SectionOk, CleanSection, SectionLines, Covered, NoBreak;
    if sections != [] {
      SectionsLinesClean(sections[1..], hoisted);
      SectionLinesClean(sections[0], Covered(sections[0], hoisted));
      hide NoBreaks;
      NoBreaksConcat(SectionLines(sections[0], Covered(sections[0], hoisted)), SectionsLines(sections[1..], hoisted));
    }
  }

  lemma TopClean(b: Body, hoisted: Option<string>)
    requires BodyOk(b) && Clean(b) && (hoisted.Some? ==> NoBreak(hoisted.value))
    ensures NoBreaks(HeaderLines(TOP_HEADERS, b.headers))
    ensures hoisted.Some? ==>
              NoBreaks(HeaderLines(FIRST_HALF, b.headers) + [Line('c', hoisted.value)]
                       + HeaderLines(SECOND_HALF, b.headers))
  {
    hide HeaderLines, NoBreak, Line;
    HeaderLinesClean(FIRST_HALF, b.headers);
    HeaderLinesClean(SECOND_HALF, b.headers);
    HeaderLinesClean(TOP_HEADERS, b.headers);
    if hoisted.Some? {
      LineHasNoBreak('c', hoisted.value);
      NoBreaksConcat(HeaderLines(FIRST_HALF, b.headers), [Line('c', hoisted.value)]);
      NoBreaksConcat(HeaderLines(FIRST_HALF, b.headers) + [Line('c', hoisted.value)],
                     HeaderLines(SECOND_HALF, b.headers));
    }
  }

  lemma PrintedClean(b: Body, hoisted: Option<string>)
    requires BodyOk(b) && Clean(b) && (hoisted.Some? ==> NoBreak(hoisted.value))
    ensures NoBreaks(PrintWith(b, hoisted))
  {
    TopClean(b, hoisted);
    AttrLinesClean(b.attrs);
    SectionsLinesClean(b.sections, hoisted);
    hide NoBreaks, HeaderLines, AttrLines, SectionsLines;
    var top := match hoisted
               case Some(c) => HeaderLines(FIRST_HALF, b.headers) + [Line('c', c)] + HeaderLines(SECOND_HALF, b.headers)
               case None => HeaderLines(TOP_HEADERS, b.headers);
    NoBreaksConcat(top, AttrLines(b.attrs));
    NoBreaksConcat(top + AttrLines(b.attrs), SectionsLines(b.sections, hoisted));
  }

  // ----- What is parsed from lines is clean -----

  lemma SplitOnceClean(s: string, sep: char)
    requires NoBreak(s)
    ensures NoBreak(SplitOnce(s, sep).0) && (SplitOnce(s, sep).1.Some? ==> NoBreak(SplitOnce(s, sep).1.value))
  {
  }

  lemma SectionAddedClean(s: Section, name: string, v: string)
    requires CleanSection(s) && NoBreak(v) && AddSectionHeader(s, name, v).Ok?
    ensures CleanSection(AddSectionHeader(s, name, v).value)
  {
    SplitOnceClean(v, ':');
    hide NoBreak, SplitOnce, Split, ParseMedia;
  }

  lemma SectionConnectionClean(s: Section, v: string)
    requires CleanSection(s) && AddSectionHeader(s, "c", v).Ok?
    ensures CleanSection(AddSectionHeader(s, "c", v).value)
  {
    hide NoBreak, Split;
  }

  lemma TopAddedClean(b: Body, name: string, v: string)
    requires Clean(b) && (NoBreak(v) || name == "c") && AddTopHeader(b, name, v).Ok?
    ensures Clean(AddTopHeader(b, name, v).value)
  {
    if NoBreak(v) {
      SplitOnceClean(v, ':');
    }
    hide NoBreak, SplitOnce, Split, ParseMedia, CleanSection;
  }

  lemma LineParsedClean(p: Parsing, line: string)
    requires Clean(p.body) && NoBreak(line) && ParseLine(p, line).Ok?
    ensures Clean(ParseLine(p, line).value.body)
  {
    var (raw, v) := SplitOnce(line, '=');
    SplitOnceClean(line, '=');
    var name := Lower(raw);
    var sections := if name == "m" then p.body.sections + [Section(map[], [])] else p.body.sections;
    hide SplitOnce, Lower, NoBreak;
    if sections != [] {
      SectionAddedClean(sections[|sections| - 1], name, v.value);
    } else if name != "c" {
      TopAddedClean(p.body, name, v.value);
    }
    hide AddSectionHeader, AddTopHeader, CleanAttrs, CleanHeaders;
  }

  lemma {:induction false} LinesParsedClean(p: Parsing, lines: seq<string>)
    requires Clean(p.body) && NoBreaks(lines) && ParseLines(p, lines).Ok?
    ensures Clean(ParseLines(p, lines).value.body)
    decreases |lines|
  {
    hide Clean, ParseLine, NoBreak;
    if lines != [] {
      LineParsedClean(p, lines[0]);
      LinesParsedClean(ParseLine(p, lines[0]).value, lines[1..]);
    }
  }

  lemma {:induction false} FilledClean(sections: seq<Section>, c: string)
    requires FillIn(sections, c).Ok? && forall i :: 0 <= i < |sections| ==> CleanSection(sections[i])
    ensures var filled := FillIn(sections, c).value;
            forall i :: 0 <= i < |filled| ==> CleanSection(filled[i])
    decreases |sections|
  {
    hide CleanSection, AddSectionHeader;
    if sections != [] {
      if 'c' !in sections[0].headers {
        SectionConnectionClean(sections[0], c);
      }
      FilledClean(sections[1..], c);
    }
  }

  lemma {:induction false} NonBlankClean(lines: seq<string>)
    requires NoBreaks(lines)
    ensures NoBreaks(NonBlank(lines))
    decreases |lines|
  {
    hide NoBreak, IsBlankLine;
    if lines != [] {
      NonBlankClean(lines[1..]);
    }
  }

  /** What is read from lines has no line breaks. */
  lemma ParsedClean(lines: seq<string>)
    requires NoBreaks(lines)
    ensures Parse(lines).Ok? ==> Clean(Parse(lines).value)
  {
    if Parse(lines).Ok? {
      NonBlankClean(lines);
      var p := ParseLines(NOTHING, NonBlank(lines)).value;
      LinesParsedClean(NOTHING, NonBlank(lines));
      if p.c.Some? && p.body.sections != [] {
        FilledClean(p.body.sections, p.c.value);
      } else if p.c.Some? {
        TopAddedClean(p.body, "c", p.c.value);
      }
      hide ParseLines, NonBlank, FillIn, AddTopHeader, Missing, MissingInSections, CleanSection, NoBreak;
    }
  }

  // ----- The last line -----

  /** A line as the printers make it: a header's, or an attribute's. */
  ghost predicate Printed(line: string) {
    || (exists n, h :: IsSmall(n) && n != 'a' && HeaderOk(n, h) && line == Line(n, Str(h)))
    || (exists v :: line == Line('a', v))
  }

  ghost predicate AllPrinted(lines: seq<string>) {
    forall i :: 0 <= i < |lines| ==> Printed(lines[i])
  }

  lemma {:induction false} HeaderLinesPrinted(names: string, headers: map<char, Header>)
    requires forall n :: n in headers ==> HeaderOk(n, headers[n])
    requires forall i :: 0 <= i < |names| ==> IsSmall(names[i]) && names[i] != 'a'
    ensures AllPrinted(HeaderLines(names, headers))
    decreases |names|
  {
    hide HeaderOk, Str, Line;
    if names != "" {
      HeaderLinesPrinted(names[1..], headers);
      if names[0] in headers {
        assert HeaderOk(names[0], headers[names[0]]);
        assert Printed(Line(names[0], Str(headers[names[0]])));
        hide Printed;
      }
    }
  }

  lemma {:induction false} AttrLinesPrinted(attrs: seq<Attr>)
    ensures AllPrinted(AttrLines(attrs)) && |AttrLines(attrs)| == |attrs|
    decreases |attrs|
  {
    hide Line, AttrStr;
    if attrs != [] {
      AttrLinesPrinted(attrs[1..]);
      assert Printed(Line('a', AttrStr(attrs[0])));
      hide Printed;
    }
  }

  lemma SectionLinesPrinted(s: Section, noC: bool)
    requires SectionOk(s)
    ensures AllPrinted(SectionLines(s, noC)) && SectionLines(s, noC) != []
  {
    HeaderLinesPrinted(SectionNames(noC), s.headers);
    AttrLinesPrinted(s.attrs);
    SectionLinesSplit(s, noC);
    hide Printed, HeaderLines, AttrLines, Line, Str;
  }

  lemma {:induction false} SectionsLinesPrinted(sections: seq<Section>, hoisted: Option<string>)
    requires forall i :: 0 <= i < |sections| ==> SectionOk(sections[i])
    ensures AllPrinted(SectionsLines(sections, hoisted))
    ensures sections != [] ==> SectionsLines(sections, hoisted) != []
    decreases |sections|
  {
    hide SectionOk, SectionLines, Covered, Printed;
    if sections != [] {
      SectionsLinesPrinted(sections[1..], hoisted);
      SectionLinesPrinted(sections[0], Covered(sections[0], hoisted));
    }
  }

  lemma {:induction false} SomeHeaderLine(names: string, headers: map<char, Header>, n: char)
    requires n in names && n in headers
    ensures HeaderLines(names, headers) != []
    decreases |names|
  {
    hide Str, Line;
    if names[0] != n {
      assert n in names[1..];
      SomeHeaderLine(names[1..], headers, n);
    }
  }

  /** The last line is a header's or an attribute's, and never the hoisted connection. */
  lemma LastPrinted(b: Body, hoisted: Option<string>)
    requires BodyOk(b) && (hoisted.Some? ==> b.sections != [])
    ensures var lines := PrintWith(b, hoisted);
            lines != [] && Printed(lines[|lines| - 1])
  {
    HeaderLinesPrinted(TOP_HEADERS, b.headers);
    AttrLinesPrinted(b.attrs);
    SectionsLinesPrinted(b.sections, hoisted);
    NoneMissing(TOP_REQUIRED, b.headers);
    assert TOP_REQUIRED[0] == 'v';
    SomeHeaderLine(TOP_HEADERS, b.headers, 'v');
    hide Printed, HeaderLines, AttrLines, SectionsLines, HeaderOk, Missing, Line;
  }

  /** The first character of a printed text is that of its version line. */
  lemma StartsWithVersion(b: Body, hoisted: Option<string>)
    requires BodyOk(b)
    ensures var lines := PrintWith(b, hoisted);
            lines != [] && lines[0] != "" && lines[0][0] == 'v'
  {
    NoneMissing(TOP_REQUIRED, b.headers);
    assert TOP_REQUIRED[0] == 'v';
    hide Str, AttrLines, SectionsLines, HeaderOk, Missing;
    assert FIRST_HALF[0] == 'v' && TOP_HEADERS[0] == 'v';
    assert 'v' in b.headers;
    assert HeaderLines(FIRST_HALF, b.headers)
           == [Line('v', Str(b.headers['v']))] + HeaderLines(FIRST_HALF[1..], b.headers);
    assert HeaderLines(TOP_HEADERS, b.headers)
           == [Line('v', Str(b.headers['v']))] + HeaderLines(TOP_HEADERS[1..], b.headers);
  }

  // ----- What the stripped last line changes -----

  ghost predicate EndsBlank(line: string) {
    line != "" && IsBlank(line[|line| - 1])
  }

  /** A body without its connections: reading a connection into it, or sharing one out, does not change this. */
  ghost function WithoutC(b: Body): (map<char, Header>, seq<Attr>, seq<Section>) {
    (b.headers - {'c'}, b.attrs, SectionsWithoutC(b.sections))
  }

  ghost function SectionsWithoutC(sections: seq<Section>): (r: seq<Section>)
    ensures |r| == |sections|
    ensures forall i :: 0 <= i < |r| ==> r[i] == Stripped(sections[i], true)
  {
    seq(|sections|, i requires 0 <= i < |sections| => Stripped(sections[i], true))
  }

  lemma AddedC(s: Section, v: string)
    requires AddSectionHeader(s, "c", v).Ok?
    ensures Stripped(AddSectionHeader(s, "c", v).value, true) == Stripped(s, true)
  {
    hide ParseHeader;
    var h := ParseHeader('c', v).value;
    assert s.headers['c' := h] - {'c'} == s.headers - {'c'};
  }

  lemma {:induction false} FillInKeeps(sections: seq<Section>, c: string)
    requires FillIn(sections, c).Ok?
    ensures SectionsWithoutC(FillIn(sections, c).value) == SectionsWithoutC(sections)
    decreases |sections|
  {
    hide AddSectionHeader, Stripped;
    if sections != [] {
      if 'c' !in sections[0].headers {
        AddedC(sections[0], c);
      }
      FillInKeeps(sections[1..], c);
      var filled := FillIn(sections, c).value;
      assert filled[1..] == FillIn(sections[1..], c).value;
      forall i | 0 <= i < |filled| ensures Stripped(filled[i], true) == Stripped(sections[i], true) {
        if i > 0 {
          assert filled[i] == filled[1..][i - 1] && sections[i] == sections[1..][i - 1];
          assert SectionsWithoutC(filled[1..])[i - 1] == SectionsWithoutC(sections[1..])[i - 1];
        }
      }
    }
  }

  lemma DistributeKeeps(p: Parsing)
    requires Distribute(p).Ok?
    ensures WithoutC(Distribute(p).value) == WithoutC(p.body)
  {
    hide ParseHeader, FillIn;
    if p.c.Some? && p.body.sections != [] {
      FillInKeeps(p.body.sections, p.c.value);
    } else if p.c.Some? {
      var h := ParseHeader('c', p.c.value).value;
      assert p.body.headers['c' := h] - {'c'} == p.body.headers - {'c'};
    }
  }

  lemma DifferentAttrs(v: string, v': string)
    requires ParseAttr(v) == ParseAttr(v')
    ensures v == v'
  {
    AttrStrOf(v);
    AttrStrOf(v');
  }

  lemma AttrStrOf(v: string)
    ensures AttrStr(ParseAttr(v)) == v
  {
    var i := IndexOf(v, ':');
    if i < |v| {
      assert v == v[..i] + ":" + v[i + 1..];
    }
  }

  /** Two values of one generic header or of an attribute, read in the same state, give different bodies. */
  lemma ValueMatters(q: Parsing, n: char, v: string, v': string)
    requires IsSmall(n) && n !in {'c', 'o', 'm'} && v != v'
    requires ParseLine(q, Line(n, v)).Ok? && ParseLine(q, Line(n, v')).Ok?
    ensures WithoutC(ParseLine(q, Line(n, v)).value.body) != WithoutC(ParseLine(q, Line(n, v')).value.body)
  {
    LineRoundTrip(n, v);
    LineRoundTrip(n, v');
    hide SplitOnce, Lower, Line;
    var sections := q.body.sections;
    var b, b' := ParseLine(q, Line(n, v)).value.body, ParseLine(q, Line(n, v')).value.body;
    if n == 'a' {
      if ParseAttr(v) == ParseAttr(v') {
        DifferentAttrs(v, v');
      }
      hide ParseAttr;
      if sections == [] {
        assert b.attrs[|q.body.attrs|] != b'.attrs[|q.body.attrs|];
      } else {
        var last := |sections| - 1;
        var k := |sections[last].attrs|;
        assert b.sections[last].attrs[k] != b'.sections[last].attrs[k];
        LastSectionMatters(q, b, b', n);
      }
    } else if sections == [] {
      assert (b.headers - {'c'})[n] != (b'.headers - {'c'})[n];
    } else {
      LastSectionMatters(q, b, b', n);
    }
  }

  lemma LastSectionMatters(q: Parsing, b: Body, b': Body, n: char)
    requires q.body.sections != [] && |b.sections| == |b'.sections| == |q.body.sections|
    requires var s, s' := b.sections[|b.sections| - 1], b'.sections[|b.sections| - 1];
             || (n != 'c' && n in s.headers && n in s'.headers && s.headers[n] != s'.headers[n])
             || s.attrs != s'.attrs
    ensures WithoutC(b) != WithoutC(b')
  {
    var last := |b.sections| - 1;
    var s, s' := Stripped(b.sections[last], true), Stripped(b'.sections[last], true);
    assert s != s' by {
      if b.sections[last].attrs == b'.sections[last].attrs {
        assert s.headers[n] != s'.headers[n];
      }
    }
    assert SectionsWithoutC(b.sections)[last] != SectionsWithoutC(b'.sections)[last];
  }

  lemma {:induction false} RightStripLine(n: char, v: string)
    requires IsSmall(n)
    ensures RightStrip(Line(n, v)) == Line(n, RightStrip(v))
    decreases |v|
  {
    var l := Line(n, v);
    if v == "" {
      assert l[1] == '=';
    } else {
      assert l[|l| - 1] == v[|v| - 1];
      if IsBlank(v[|v| - 1]) {
        assert l[..|l| - 1] == Line(n, v[..|v| - 1]);
        RightStripLine(n, v[..|v| - 1]);
      }
    }
  }

  /** A printed line that ends in a blank is that of a generic header or an attribute. */
  lemma BlankEnds(line: string) returns (n: char, v: string)
    requires Printed(line) && EndsBlank(line)
    ensures IsSmall(n) && n !in {'c', 'o', 'm'} && line == Line(n, v)
    ensures RightStrip(line) == Line(n, RightStrip(v)) && RightStrip(v) != v
  {
    if exists v :: line == Line('a', v) {
      n := 'a';
      v :| line == Line('a', v);
    } else {
      var h: Header;
      n, h :| IsSmall(n) && n != 'a' && HeaderOk(n, h) && line == Line(n, Str(h));
      v := Str(h);
      HeaderText(n, h);
      assert Str(h) != "" ==> line[|line| - 1] == Str(h)[|Str(h)| - 1];
      assert h.Generic?;
    }
    RightStripLine(n, v);
    RightStripEnds(line);
    hide RightStrip, HeaderOk, Str, IsBlank;
  }

  // ----- One line more -----

  lemma {:induction false} ReadLast(p: Parsing, a: seq<string>, l: string)
    ensures ParseLines(p, a + [l]) == match ParseLines(p, a)
                                      case Err(e) => Err(e)
                                      case Ok(q) => ParseLine(q, l)
    decreases |a|
  {
    hide ParseLine;
    if a == [] {
      assert a + [l] == [l] && [l][1..] == [];
    } else {
      assert (a + [l])[1..] == a[1..] + [l];
      if ParseLine(p, a[0]).Ok? {
        ReadLast(ParseLine(p, a[0]).value, a[1..], l);
      }
    }
  }

  lemma NotBlankEither(b: Body, hoisted: Option<string>, init: seq<string>, last: string, n: char, v: string)
    requires PrintWith(b, hoisted) == init + [last]
    ensures NonBlank(init + [Line(n, v)]) == init + [Line(n, v)]
  {
    hide IsBlankLine, HeaderLines, AttrLines, SectionsLines, NonBlank, Line;
    HeaderLinesNotBlank(FIRST_HALF, b.headers);
    HeaderLinesNotBlank(SECOND_HALF, b.headers);
    HeaderLinesNotBlank(TOP_HEADERS, b.headers);
    AttrLinesNotBlank(b.attrs);
    SectionsLinesNotBlank(b.sections, hoisted);
    if hoisted.Some? {
      LineNotBlank('c', hoisted.value);
    }
    LineNotBlank(n, v);
    var lines := init + [Line(n, v)];
    forall i | 0 <= i < |lines| ensures !IsBlankLine(lines[i]) {
      if i < |init| {
        assert lines[i] == PrintWith(b, hoisted)[i];
      }
    }
    NothingBlank(lines);
  }

  lemma ReadsDifferently(q: Parsing, n: char, v: string, v': string, b: Body)
    requires IsSmall(n) && n !in {'c', 'o', 'm'} && v != v'
    requires ParseLine(q, Line(n, v)).Ok? && Distribute(ParseLine(q, Line(n, v)).value) == Ok(b)
    ensures ParseLine(q, Line(n, v')).Ok? ==> Distribute(ParseLine(q, Line(n, v')).value) != Ok(b)
  {
    hide ParseLine, Distribute, Line, WithoutC;
    DistributeKeeps(ParseLine(q, Line(n, v)).value);
    if ParseLine(q, Line(n, v')).Ok? {
      ValueMatters(q, n, v, v');
      if Distribute(ParseLine(q, Line(n, v')).value).Ok? {
        DistributeKeeps(ParseLine(q, Line(n, v')).value);
      }
    }
  }

  lemma ParseLast(init: seq<string>, l: string, b: Body)
    requires NonBlank(init + [l]) == init + [l] && ParseLines(NOTHING, init).Ok?
    requires var q := ParseLines(NOTHING, init).value;
             ParseLine(q, l).Ok? ==> Distribute(ParseLine(q, l).value) != Ok(b)
    ensures Parse(init + [l]) != Ok(b)
  {
    hide ParseLines, ParseLine, Distribute, NonBlank, Missing, MissingInSections;
    ReadLast(NOTHING, init, l);
  }

  lemma BeforeTheLast(b: Body, hoisted: Option<string>, init: seq<string>, last: string)
    requires BodyOk(b) && (hoisted.Some? ==> b.sections != []) && PrintWith(b, hoisted) == init + [last]
    ensures ParseLines(NOTHING, init).Ok?
    ensures var q := ParseLines(NOTHING, init).value;
            ParseLine(q, last).Ok? && Distribute(ParseLine(q, last).value) == Ok(Canonical(b))
  {
    hide BodyOk, PrintWith, ParseLines, ParseLine, Distribute, Canonical, AllStripped, TopConnection;
    BodyRead(b, hoisted);
    DistributeRestores(b, hoisted);
    ReadLast(NOTHING, init, last);
  }

  /** With the blanks at its end taken from the last line, something else is read. */
  lemma StrippedMatters(b: Body, hoisted: Option<string>, init: seq<string>, last: string)
    requires BodyOk(b) && (hoisted.Some? ==> b.sections != [])
    requires PrintWith(b, hoisted) == init + [last] && Printed(last) && EndsBlank(last)
    ensures Parse(init + [RightStrip(last)]) != Ok(Canonical(b))
  {
    hide BodyOk, PrintWith, ParseLines, ParseLine, Distribute, Canonical, NonBlank, Printed, EndsBlank, RightStrip,
         Line, Parse;
    var n, v := BlankEnds(last);
    BeforeTheLast(b, hoisted, init, last);
    ReadsDifferently(ParseLines(NOTHING, init).value, n, v, RightStrip(v), Canonical(b));
    NotBlankEither(b, hoisted, init, last, n, RightStrip(v));
    ParseLast(init, RightStrip(last), Canonical(b));
  }

  // ----- Main results -----

  lemma CanonicalClean(b: Body)
    requires BodyOk(b) && Clean(Canonical(b))
    ensures Clean(b)
  {
    hide NoBreak, CleanAttrs, CleanSection, AttrsOk, Missing, SectionOk;
    forall n | n in b.headers && b.headers[n].Generic? ensures NoBreak(b.headers[n].text) {
      assert HeaderOk(n, b.headers[n]);
      assert n in Canonical(b).headers;
    }
  }

  function LastOf(lines: seq<string>): string {
    if lines == [] then "" else lines[|lines| - 1]
  }

  /** A text with a line break in a value is not read back. */
  lemma BreaksAreLost(b: Body, text: string)
    requires BodyOk(b) && !Clean(b)
    ensures ParseText(text) != Ok(Canonical(b))
  {
    hide BodyOk, Clean, Parse, Canonical, Splitlines, Strip, NoBreaks;
    LinesHaveNoBreaks(Strip(text));
    ParsedClean(Splitlines(Strip(text)));
    if ParseText(text) == Ok(Canonical(b)) {
      CanonicalClean(b);
    }
  }

  /** The text of the printed lines is read back as the body if and only if no value has a line break in it and the
      last line does not end in a blank. */
  lemma TextReadsBack(b: Body, hoisted: Option<string>)
    requires BodyOk(b) && (hoisted.Some? ==> b.sections != [] && NoBreak(hoisted.value))
    ensures ParseText(TextOf(PrintWith(b, hoisted))) == Ok(Canonical(b))
            <==> Clean(b) && !EndsBlank(LastOf(PrintWith(b, hoisted)))
  {
    hide BodyOk, PrintWith, Parse, Canonical, Printed, EndsBlank, Clean, Splitlines, Strip, TextOf, NoBreak;
    var lines := PrintWith(b, hoisted);
    LastPrinted(b, hoisted);
    var init, last := lines[..|lines| - 1], LastOf(lines);
    assert lines == init + [last];
    if !Clean(b) {
      BreaksAreLost(b, TextOf(lines));
    } else {
      CleanTextSplits(b, hoisted, init, last);
      if EndsBlank(last) {
        StrippedMatters(b, hoisted, init, last);
      } else {
        NoBlankEnd(last);
        ParseUndoesPrint(b, hoisted);
      }
    }
  }

  lemma NoBlankEnd(last: string)
    requires !EndsBlank(last)
    ensures RightStrip(last) == last
  {
  }

  lemma PrintedKeepsSomething(line: string)
    requires Printed(line)
    ensures RightStrip(line) != ""
  {
    var n, v :| IsSmall(n) && line == Line(n, v);
    RightStripLine(n, v);
    hide RightStrip;
  }

  lemma VersionStays(text: string)
    requires text != "" && text[0] == 'v'
    ensures LeftStrip(text) == text
  {
  }

  lemma CleanTextSplits(b: Body, hoisted: Option<string>, init: seq<string>, last: string)
    requires BodyOk(b) && Clean(b) && (hoisted.Some? ==> b.sections != [] && NoBreak(hoisted.value))
    requires PrintWith(b, hoisted) == init + [last] && Printed(last)
    ensures Splitlines(Strip(TextOf(PrintWith(b, hoisted)))) == init + [RightStrip(last)]
  {
    PrintedClean(b, hoisted);
    PrintedKeepsSomething(last);
    StartsWithVersion(b, hoisted);
    hide BodyOk, PrintWith, Clean, NoBreak, Printed, Strip, Splitlines, RightStrip, LeftStrip;
    var lines := init + [last];
    assert NoBreak(last) by {
      assert lines[|init|] == last;
    }
    assert NoBreaks(init) by {
      assert forall i :: 0 <= i < |init| ==> init[i] == lines[i];
    }
    assert TextOf(lines) == lines[0] + CRLF + TextOf(lines[1..]);
    VersionStays(TextOf(lines));
    PrintedTextSplits(init, last);
  }

  lemma HoistedHasNoBreak(b: Body)
    requires BodyOk(b) && Hoisted(b).Some?
    ensures b.sections != [] && NoBreak(Hoisted(b).value)
  {
    assert SectionOk(b.sections[0]);
    HeaderText('c', b.sections[0].headers['c']);
    hide NoBreak, IsBlank, Missing, AttrsOk;
  }

  lemma Regroup<T>(f: seq<T>, x: seq<T>, b: seq<T>, a: seq<T>)
    ensures f + (x + b) + a == (f + x) + (b + a) && f + b + a == f + (b + a)
  {
  }

  lemma OnlyConnection(headers: map<char, Header>)
    requires 'c' in headers
    ensures HeaderLines("c", headers) == [Line('c', Str(headers['c']))]
  {
    assert "c"[1..] == "" && HeaderLines("", headers) == [];
    hide Str, Line;
  }

  /** A section's lines with its connection and without it. */
  lemma SectionLinesAre(s: Section)
    requires 'c' in s.headers
    ensures var front, rest := HeaderLines("mi", s.headers), HeaderLines("bk", s.headers) + AttrLines(s.attrs);
            && SectionLines(s, true) == front + rest
            && SectionLines(s, false) == (front + [Line('c', Str(s.headers['c']))]) + rest
  {
    assert SECTION_HEADERS == "mi" + ("c" + "bk") && SectionNames(true) == "mi" + "bk";
    hide HeaderLines, Str, Line, AttrLines;
    HeaderLinesConcat("mi", "c" + "bk", s.headers);
    HeaderLinesConcat("c", "bk", s.headers);
    HeaderLinesConcat("mi", "bk", s.headers);
    OnlyConnection(s.headers);
    Regroup(HeaderLines("mi", s.headers), [Line('c', Str(s.headers['c']))], HeaderLines("bk", s.headers),
            AttrLines(s.attrs));
  }

  lemma ConnectionLineEnd(s: Section)
    requires SectionOk(s)
    ensures !EndsBlank(Line('c', Str(s.headers['c'])))
  {
    var c := s.headers['c'];
    HeaderText('c', c);
    var l := Line('c', Str(c));
    assert l[|l| - 1] == Str(c)[|Str(c)| - 1];
    hide Str, IsBlank, HeaderOk, AttrsOk, Line;
  }

  /** The last line of a section that carries its connection ends as the one without it does, or in the connection. */
  lemma SectionEnd(s: Section)
    requires SectionOk(s)
    ensures !EndsBlank(LastOf(SectionLines(s, true))) ==> !EndsBlank(LastOf(SectionLines(s, false)))
  {
    var l, rest := Line('c', Str(s.headers['c'])), HeaderLines("bk", s.headers) + AttrLines(s.attrs);
    var front := HeaderLines("mi", s.headers);
    ConnectionLineEnd(s);
    assert 'c' in s.headers;
    hide *;
    SectionLinesAre(s);
    LastOfConcat(front, rest);
    LastOfConcat(front + [l], rest);
    LastOfConcat(front, [l]);
    LastOfOne(l);
  }

  lemma LastOfOne(l: string)
    ensures LastOf([l]) == l
  {
  }

  lemma {:induction false} SectionsEnd(sections: seq<Section>, hoisted: Option<string>)
    requires forall i :: 0 <= i < |sections| ==> SectionOk(sections[i])
    ensures !EndsBlank(LastOf(SectionsLines(sections, hoisted))) ==> !EndsBlank(LastOf(SectionsLines(sections, None)))
    decreases |sections|
  {
    hide SectionOk, SectionLines, EndsBlank, Printed;
    if sections != [] {
      SectionsEnd(sections[1..], hoisted);
      SectionsLinesPrinted(sections[1..], hoisted);
      SectionsLinesPrinted(sections[1..], None);
      SectionEnd(sections[0]);
      SectionLinesPrinted(sections[0], true);
      SectionLinesPrinted(sections[0], false);
      hide Covered;
      LastOfConcat(SectionLines(sections[0], Covered(sections[0], hoisted)), SectionsLines(sections[1..], hoisted));
      LastOfConcat(SectionLines(sections[0], false), SectionsLines(sections[1..], None));
      assert !Covered(sections[0], None) by {
        NeverCovered(sections[0]);
      }
    }
  }

  lemma NeverCovered(s: Section)
    ensures !Covered(s, None)
  {
  }

  lemma LastOfConcat(a: seq<string>, b: seq<string>)
    ensures LastOf(a + b) == if b != [] then LastOf(b) else LastOf(a)
  {
    if b == [] {
      assert a + b == a;
    }
  }

  lemma LastIsSections(b: Body, hoisted: Option<string>)
    requires SectionsLines(b.sections, hoisted) != []
    ensures LastOf(PrintWith(b, hoisted)) == LastOf(SectionsLines(b.sections, hoisted))
  {
    hide HeaderLines, AttrLines, SectionsLines, Line;
  }

  lemma PlainEnd(b: Body, hoisted: Option<string>)
    requires BodyOk(b) && (hoisted.Some? ==> b.sections != [])
    ensures !EndsBlank(LastOf(PrintWith(b, hoisted))) ==> !EndsBlank(LastOf(PrintWith(b, None)))
  {
    if b.sections != [] {
      SectionsEnd(b.sections, hoisted);
      SectionsLinesPrinted(b.sections, hoisted);
      SectionsLinesPrinted(b.sections, None);
      hide BodyOk, Printed, EndsBlank, SectionsLines;
      LastIsSections(b, hoisted);
      LastIsSections(b, None);
    }
  }

  /** For every well-formed body, printed with the connection hoisted where the printer does so, and printed with one
      in every section: each text is read back, without a session-level connection over sections, if and only if no
      value has a line break in it and the last line does not end in a blank. If the first is read back, so is the
      second, and both give the same body. What is read back is the body itself if and only if, besides, there are no
      sections or no session-level connection. */
  lemma PrintKeepsMeaning(b: Body)
    requires BodyOk(b)
    ensures ParseText(PrintText(b)) == Ok(Canonical(b)) <==> Clean(b) && !EndsBlank(LastOf(Print(b)))
    ensures ParseText(TextOf(PrintPlain(b))) == Ok(Canonical(b)) <==> Clean(b) && !EndsBlank(LastOf(PrintPlain(b)))
    ensures !EndsBlank(LastOf(Print(b))) ==> !EndsBlank(LastOf(PrintPlain(b)))
    ensures ParseText(PrintText(b)) == Ok(b) <==>
            Clean(b) && !EndsBlank(LastOf(Print(b))) && (b.sections == [] || 'c' !in b.headers)
  {
    hide BodyOk, Clean, EndsBlank, PrintWith, Hoisted, Parse, Splitlines, Strip, TextOf, NoBreak;
    if Hoisted(b).Some? {
      HoistedHasNoBreak(b);
    }
    TextReadsBack(b, Hoisted(b));
    TextReadsBack(b, None);
    PlainEnd(b, Hoisted(b));
    ParsedOk(Splitlines(Strip(PrintText(b))));
    if b.sections != [] {
      if 'c' in b.headers {
        assert 'c' !in Canonical(b).headers;
      } else {
        assert b.headers - {'c'} == b.headers;
      }
    }
  }

  /** For every text the parser accepts: printing what was read and reading it again changes nothing, if and only if
      the last printed line does not end in a blank. */
  lemma ReprintingIsStable(text: string)
    ensures ParseText(text).Ok? ==>
              var b := ParseText(text).value;
              ParseText(PrintText(b)) == ParseText(text) <==> !EndsBlank(LastOf(Print(b)))
  {
    hide BodyOk, Clean, EndsBlank, Parse, Print, PrintPlain, Splitlines, Strip, TextOf, NoBreaks;
    LinesHaveNoBreaks(Strip(text));
    ParsedOk(Splitlines(Strip(text)));
    ParsedClean(Splitlines(Strip(text)));
    if ParseText(text).Ok? {
      PrintKeepsMeaning(ParseText(text).value);
    }
  }
}
