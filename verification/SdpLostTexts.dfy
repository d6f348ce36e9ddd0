/** SDP bodies that the printers do not carry over: inputs at which the conditions of `SdpPrintedText` fail. */
module SdpLostTexts {
  import opened Basics
  import opened SdpText
  import opened Sdp
  import opened SdpRoundTrip
  import opened SdpPrintedText

  lemma {:induction false} NonBlankSnoc(lines: seq<string>, l: string)
    requires !IsBlankLine(l)
    ensures NonBlank(lines + [l]) == NonBlank(lines) + [l]
    decreases |lines|
  {
    hide IsBlankLine;
    if lines == [] {
      assert lines + [l] == [l] && [l][1..] == [];
    } else {
      assert (lines + [l])[1..] == lines[1..] + [l];
      NonBlankSnoc(lines[1..], l);
    }
  }

  function WithHeader(s: Section, n: char, h: Header): Section {
    s.(headers := s.headers[n := h])
  }

  /** The lines of a body with one section, as they are read. */
  lemma OneSectionRead(b: Body, s: Section)
    requires BodyOk(b) && b.sections == [s] && SectionOk(s) && 'c' !in b.headers
    ensures var c := Some(Str(s.headers['c']));
            && NonBlank(Print(b)) == Print(b)
            && ParseLines(NOTHING, Print(b)) == Ok(Parsing(b.(sections := [Stripped(s, true)]), c))
  {
    var c := Some(Str(s.headers['c']));
    hide ParseLines, NonBlank, PrintWith, Str, BodyOk, SectionOk, Hoisted, AllStripped, TopConnection;
    OneHoisted(b, s);
    BodyRead(b, c);
    PrintedNotBlank(b, c);
    assert b.headers - {'c'} == b.headers;
  }

  lemma OneHoisted(b: Body, s: Section)
    requires b.sections == [s] && 'c' in s.headers
    ensures var c := Some(Str(s.headers['c']));
            Hoisted(b) == c && AllStripped([s], c) == [Stripped(s, true)] && TopConnection(b, c) == c
  {
    assert [s][1..] == [];
    hide Str;
  }

  lemma ConnectionBack(s: Section, v: string)
    requires SectionOk(s)
    ensures AddSectionHeader(WithHeader(Stripped(s, true), 'b', Generic(v)), "c", Str(s.headers['c']))
            == Ok(WithHeader(s, 'b', Generic(v)))
  {
    HeaderRoundTrip('c', s.headers['c']);
    assert WithHeader(Stripped(s, true), 'b', Generic(v)).headers['c' := s.headers['c']]
           == WithHeader(s, 'b', Generic(v)).headers;
    hide Str, ParseHeader, HeaderOk;
  }

  lemma BandwidthRead(p: Parsing, s: Section, v: string)
    requires p.body.sections == [s]
    ensures ParseLine(p, Line('b', v)) == Ok(WithLast(p, [], WithHeader(s, 'b', Generic(v))))
  {
    assert [] + [s] == [s];
    assert WithLast(p, [], s) == p;
    SectionLine(p, [], s, 'b', Generic(v));
  }

  /** A bandwidth line after all others is read into the one section that the body has. */
  lemma LateBandwidth(b: Body, s: Section, v: string)
    requires BodyOk(b) && b.sections == [s] && SectionOk(s) && 'c' !in b.headers
    ensures Parse(Print(b) + [Line('b', v)]) == Ok(b.(sections := [WithHeader(s, 'b', Generic(v))]))
  {
    var c := Str(s.headers['c']);
    var p := Parsing(b.(sections := [Stripped(s, true)]), Some(c));
    ConnectionBack(s, v);
    LateCheck(b, s, v);
    hide ParseLines, ParseLine, NonBlank, Print, Str, BodyOk, Line, IsBlankLine, AddSectionHeader, Distribute, Check,
         Stripped;
    OneSectionRead(b, s);
    LineNotBlank('b', v);
    NonBlankSnoc(Print(b), Line('b', v));
    ReadLast(NOTHING, Print(b), Line('b', v));
    BandwidthRead(p, Stripped(s, true), v);
    NoConnection(s, v);
    LateFill(p, WithHeader(Stripped(s, true), 'b', Generic(v)), WithHeader(s, 'b', Generic(v)), c);
  }

  lemma NoConnection(s: Section, v: string)
    ensures 'c' !in WithHeader(Stripped(s, true), 'b', Generic(v)).headers
  {
  }

  lemma LateFill(p: Parsing, s: Section, t: Section, c: string)
    requires p.c == Some(c) && 'c' !in s.headers && AddSectionHeader(s, "c", c) == Ok(t)
    ensures Distribute(WithLast(p, [], s)) == Ok(p.body.(sections := [t]))
  {
    hide AddSectionHeader;
    assert [s][1..] == [] && [] + [s] == [s];
    assert FillIn([], c) == Ok([]);
    assert [t] + [] == [t];
  }

  lemma LateCheck(b: Body, s: Section, v: string)
    requires BodyOk(b) && b.sections == [s] && SectionOk(s)
    ensures Check(b.(sections := [WithHeader(s, 'b', Generic(v))]))
            == Ok(b.(sections := [WithHeader(s, 'b', Generic(v))]))
  {
    SectionsComplete([WithHeader(s, 'b', Generic(v))]);
    hide MissingInSections, Missing, HeaderOk, AttrsOk;
  }

  function Audio(attrs: seq<Attr>): Section {
    Section(map['m' := Media("audio", 4, "RTP", Numbers([0])), 'c' := Connection("IN", "IP4", "h")], attrs)
  }

  function Call(section: Section): Body {
    Body(map['v' := Generic("0"), 'o' := Origin(["-", "1", "1", "IN", "IP4", "h"]), 's' := Generic("-"),
             't' := Generic("0 0")],
         [], [section])
  }

  lemma AudioOk(attrs: seq<Attr>)
    requires AttrsOk(attrs)
    ensures SectionOk(Audio(attrs))
  {
    assert AreTokens(["IN", "IP4", "h"]);
    assert IsToken("audio") && IsToken("RTP") && IsAv("audio");
    hide IsToken, IsAv, AttrsOk;
  }

  lemma CallHeadersOk(section: Section)
    ensures HeadersOk(TOP_HEADERS, Call(section).headers)
  {
    assert AreTokens(["-", "1", "1", "IN", "IP4", "h"]);
    hide IsToken;
  }

  lemma CallOk(section: Section)
    requires SectionOk(section)
    ensures BodyOk(Call(section))
  {
    CallHeadersOk(section);
    hide HeadersOk, SectionOk, Missing;
    NoneMissing(TOP_REQUIRED, Call(section).headers);
  }

  lemma CallClean(section: Section)
    requires CleanSection(section)
    ensures Clean(Call(section))
  {
    hide CleanSection;
  }

  /** The parser accepts a bandwidth line after an attribute `x` with a blank behind it, and keeps the blank; printed,
      the attribute comes last, and reading the text again loses the blank. */
  lemma TrailingBlankIsLost()
    ensures var attrs := [Attr("x ", None)];
            var b := Call(WithHeader(Audio(attrs), 'b', Generic("AS:64")));
            var text := TextOf(Print(Call(Audio(attrs))) + ["b=AS:64"]);
            ParseText(text) == Ok(b) && ParseText(PrintText(b)) != Ok(b)
  {
    hide *;
    var s := Audio([Attr("x ", None)]);
    var t := WithHeader(s, 'b', Generic("AS:64"));
    BlankFacts(s, t);
    CallOk(s);
    CallOk(t);
    CallClean(s);
    CallShape(s, t);
    LateBandwidth(Call(s), s, "AS:64");
    LateTextSplits(Call(s), "b=AS:64");
    PrintKeepsMeaning(Call(t));
    assert ParseText(TextOf(Print(Call(s)) + ["b=AS:64"])) == Parse(Print(Call(s)) + ["b=AS:64"]) by {
      ParsesAs(TextOf(Print(Call(s)) + ["b=AS:64"]));
    }
  }

  lemma ParsesAs(text: string)
    ensures ParseText(text) == Parse(Splitlines(Strip(text)))
  {
  }

  lemma CallShape(s: Section, t: Section)
    ensures Call(s).sections == [s] && 'c' !in Call(s).headers
    ensures Call(s).(sections := [t]) == Call(t)
  {
  }

  lemma BlankFacts(s: Section, t: Section)
    requires s == Audio([Attr("x ", None)]) && t == WithHeader(s, 'b', Generic("AS:64"))
    ensures SectionOk(s) && SectionOk(t) && CleanSection(s)
    ensures Line('b', "AS:64") == "b=AS:64" && NoBreak("b=AS:64") && !EndsBlank("b=AS:64")
    ensures EndsBlank(LastOf(Print(Call(t))))
  {
    hide Print, HeaderOk, EndsBlank;
    AudioOk([Attr("x ", None)]);
    BlankLast(s);
    BandwidthOk();
  }

  lemma BandwidthOk()
    ensures HeaderOk('b', Generic("AS:64")) && !EndsBlank("b=AS:64")
  {
  }

  lemma LateTextSplits(b: Body, last: string)
    requires BodyOk(b) && Clean(b) && NoBreak(last) && last != "" && !EndsBlank(last)
    ensures Splitlines(Strip(TextOf(Print(b) + [last]))) == Print(b) + [last]
  {
    var lines := Print(b) + [last];
    hide Hoisted, PrintWith, NoBreak, Splitlines, Strip, Clean, BodyOk, EndsBlank, LeftStrip, RightStrip;
    if Hoisted(b).Some? {
      HoistedHasNoBreak(b);
    }
    PrintedClean(b, Hoisted(b));
    StartsWithVersion(b, Hoisted(b));
    NoBlankEnd(last);
    assert TextOf(lines) == lines[0] + CRLF + TextOf(lines[1..]);
    VersionStays(TextOf(lines));
    PrintedTextSplits(Print(b), last);
  }

  lemma BlankLast(s: Section)
    requires s == Audio([Attr("x ", None)])
    ensures EndsBlank(LastOf(Print(Call(WithHeader(s, 'b', Generic("AS:64"))))))
  {
    var t := WithHeader(s, 'b', Generic("AS:64"));
    var h := Hoisted(Call(t));
    assert [t][1..] == [] && [Attr("x ", None)][1..] == [];
    assert AttrLines([Attr("x ", None)]) == [Line('a', "x ")];
    hide HeaderLines, Hoisted;
    assert SectionsLines([t], h) == SectionLines(t, Covered(t, h));
    assert LastOf(SectionLines(t, Covered(t, h))) == Line('a', "x ");
    assert LastOf(Print(Call(t))) == Line('a', "x ");
  }

  /** A session-level connection over sections is printed and read, but the body read has none. */
  lemma SessionConnectionIsLost()
    ensures var b := Call(Audio([]));
            var b' := b.(headers := b.headers['c' := Connection("IN", "IP4", "h")]);
            BodyOk(b') && ParseText(PrintText(b')) == Ok(b) && b != b'
  {
    hide *;
    var s := Audio([]);
    var b := Call(s);
    var b' := b.(headers := b.headers['c' := Connection("IN", "IP4", "h")]);
    AudioClean();
    AudioOk([]);
    CallOk(s);
    CallClean(s);
    CallShape(s, s);
    ConnectionOk();
    WithSessionConnection(b, Connection("IN", "IP4", "h"));
    SmoothLast(b');
    PrintKeepsMeaning(b');
    WithoutSessionConnection(b, b');
  }

  lemma AudioClean()
    ensures CleanSection(Audio([])) && AttrsOk([])
  {
  }

  lemma ConnectionOk()
    ensures HeaderOk('c', Connection("IN", "IP4", "h"))
  {
    assert AreTokens(["IN", "IP4", "h"]);
  }

  lemma WithoutSessionConnection(b: Body, b': Body)
    requires b.sections != [] && 'c' !in b.headers
    requires b' == b.(headers := b.headers['c' := Connection("IN", "IP4", "h")])
    ensures Canonical(b') == b && b' != b
  {
    assert b'.headers - {'c'} == b.headers;
    assert 'c' in b'.headers;
  }

  lemma WithSessionConnection(b: Body, c: Header)
    requires BodyOk(b) && Clean(b) && HeaderOk('c', c)
    ensures BodyOk(b.(headers := b.headers['c' := c])) && Clean(b.(headers := b.headers['c' := c]))
  {
    NoneMissing(TOP_REQUIRED, b.headers);
    NoneMissing(TOP_REQUIRED, b.headers['c' := c]);
    hide Missing, SectionOk, CleanSection, AttrsOk, CleanAttrs, NoBreak;
    assert c.Connection?;
  }

  lemma OnlyMedia(s: Section)
    requires s == Audio([])
    ensures HeaderLines("mibk", s.headers) == [Line('m', Str(s.headers['m']))]
  {
    hide Str, Line;
    assert "mibk"[1..] == "ibk" && "ibk"[1..] == "bk" && "bk"[1..] == "k" && "k"[1..] == "";
    assert HeaderLines("ibk", s.headers) == [];
  }

  lemma SmoothLast(b: Body)
    requires b.sections == [Audio([])]
    ensures !EndsBlank(LastOf(Print(b)))
  {
    var s := Audio([]);
    var h := Hoisted(b);
    assert [s][1..] == [];
    OnlyMedia(s);
    var m := s.headers['m'];
    assert HeaderOk('m', m) by {
      assert IsToken("audio") && IsToken("RTP") && IsAv("audio");
    }
    HeaderText('m', m);
    var l := Line('m', Str(m));
    assert l[|l| - 1] == Str(m)[|Str(m)| - 1];
    hide HeaderLines, Str;
    assert SectionsLines([s], h) == SectionLines(s, Covered(s, h));
    assert LastOf(Print(b)) == l;
  }

  /** A value with a line break in it is printed as two lines. */
  lemma LineBreakIsLost()
    ensures var b := Call(Audio([Attr("x\ny", None)]));
            BodyOk(b) && ParseText(PrintText(b)) != Ok(b)
  {
    hide *;
    var s := Audio([Attr("x\ny", None)]);
    BrokenFacts(s);
    CallOk(s);
    CallUnclean(s);
    PrintKeepsMeaning(Call(s));
  }

  lemma BrokenFacts(s: Section)
    requires s == Audio([Attr("x\ny", None)])
    ensures SectionOk(s) && !CleanSection(s)
  {
    AudioOk([Attr("x\ny", None)]);
    assert IsBreak("x\ny"[1]);
    hide HeaderOk;
    assert !CleanAttr(s.attrs[0]);
  }

  lemma CallUnclean(s: Section)
    requires !CleanSection(s)
    ensures !Clean(Call(s))
  {
    assert Call(s).sections[0] == s;
  }
}
