/** The objects of `sippy/SdpBody.py` and `sippy/SdpMediaDescription.py`: what the parser's and the printers' loops do
    to them is what `Sdp` says. */
module SdpObjects {
  import opened Basics
  import opened SdpText
  import opened Sdp

  /** The names that a printer with `noC` goes over. */
  function Without(names: string, noC: bool): string {
    if names == "" then ""
    else if noC && names[0] == 'c' then Without(names[1..], noC)
    else [names[0]] + Without(names[1..], noC)
  }

  lemma SectionNamesAre(noC: bool)
    ensures Without(SECTION_HEADERS, noC) == SectionNames(noC)
  {
    assert SECTION_HEADERS[1..] == "icbk";
    assert "icbk"[1..] == "cbk";
    assert "cbk"[1..] == "bk";
    assert "bk"[1..] == "k";
    assert Without("k", noC) == "k";
    assert Without("bk", noC) == "bk";
    assert Without("cbk", noC) == if noC then "bk" else "cbk";
    assert Without("icbk", noC) == if noC then "ibk" else "icbk";
  }

  /** `rval += ' %d' % format` */
  method AppendNumbers(head: seq<string>, pts: seq<int>, start: string) returns (rval: string)
    requires head != [] && start == Join(head)
    ensures rval == Join(head + Decimals(pts))
  {
    hide Join, Decimal;
    rval := start;
    ghost var done := head;
    for i := 0 to |pts|
      invariant done != [] && done + Decimals(pts[i..]) == head + Decimals(pts) && rval == Join(done)
    {
      JoinSnoc(done, Decimal(pts[i]));
      assert pts[i..][1..] == pts[i + 1..];
      rval := rval + " " + Decimal(pts[i]);
      done := done + [Decimal(pts[i])];
    }
    assert done == done + Decimals(pts[|pts|..]);
  }

  /** `rval += ' %s' % format` */
  method AppendNames(head: seq<string>, names: seq<string>, start: string) returns (rval: string)
    requires head != [] && start == Join(head)
    ensures rval == Join(head + names)
  {
    hide Join;
    rval := start;
    assert head + names[..0] == head;
    for i := 0 to |names|
      invariant rval == Join(head + names[..i])
    {
      JoinSnoc(head + names[..i], names[i]);
      assert (head + names[..i]) + [names[i]] == head + names[..i + 1];
      rval := rval + " " + names[i];
    }
    assert names[..|names|] == names;
  }

  /** `str` of a media header, format by format. */
  method MediaStr(stype: string, port: int, transport: string, formats: Formats) returns (rval: string)
    ensures rval == Str(Media(stype, port, transport, formats))
  {
    var p := Decimal(port);
    rval := stype + " " + p + " " + transport;
    hide Decimal;
    JoinOfThree(stype, p, transport);
    match formats {
      case Numbers(pts) => rval := AppendNumbers([stype, p, transport], pts, rval);
      case Names(names) => rval := AppendNames([stype, p, transport], names, rval);
    }
  }

  lemma JoinOfThree(a: string, b: string, c: string)
    ensures Join([a, b, c]) == a + " " + b + " " + c
  {
    assert [a, b, c][1..] == [b, c];
    assert [b, c][1..] == [c];
    assert Join([b, c]) == b + " " + c;
  }

  /** One of the printers' loops over header names. */
  method HeadersStr(names: string, headers: map<char, Header>, noC: bool) returns (s: seq<string>)
    ensures s == HeaderLines(Without(names, noC), headers)
  {
    hide Str, Line;
    s := [];
    for i := 0 to |names|
      invariant s + HeaderLines(Without(names[i..], noC), headers) == HeaderLines(Without(names, noC), headers)
    {
      var name := names[i];
      assert names[i..][1..] == names[i + 1..];
      if noC && name == 'c' {
        continue;
      }
      assert ([name] + Without(names[i + 1..], noC))[1..] == Without(names[i + 1..], noC);
      if name in headers {
        s := s + [Line(name, Str(headers[name]))];
      }
    }
  }

  method AttrsStr(attrs: seq<Attr>) returns (s: seq<string>)
    ensures s == AttrLines(attrs)
  {
    hide AttrStr, Line;
    s := [];
    for i := 0 to |attrs|
      invariant s + AttrLines(attrs[i..]) == AttrLines(attrs)
    {
      assert attrs[i..][1..] == attrs[i + 1..];
      s := s + [Line('a', AttrStr(attrs[i]))];
    }
  }

  class SdpMediaDescription {
    var headers: map<char, Header>
    var a_headers: seq<Attr>

    ghost function View(): Section
      reads this
    {
      Section(headers, a_headers)
    }

    constructor ()
      ensures View() == Section(map[], [])
    {
      headers, a_headers := map[], [];
    }

    method AddHeader(name: string, header: string) returns (err: Option<Error>)
      modifies this
      ensures match AddSectionHeader(old(View()), name, header)
              case Ok(s) => err.None? && View() == s
              case Err(e) => err == Some(e) && View() == old(View())
    {
      hide ParseHeader;
      if name == "a" {
        a_headers := a_headers + [ParseAttr(header)];
        return None;
      }
      if |name| != 1 || name[0] !in SECTION_HEADERS {
        return Some(UnknownHeader);
      }
      match ParseHeader(name[0], header) {
        case Err(e) => return Some(e);
        case Ok(h) =>
          headers := headers[name[0] := h];
          return None;
      }
    }

    method LocalStr(noC: bool) returns (s: seq<string>)
      ensures s == SectionLines(View(), noC)
    {
      SectionNamesAre(noC);
      var hs := HeadersStr(SECTION_HEADERS, headers, noC);
      var attrs := AttrsStr(a_headers);
      s := hs + attrs;
    }
  }

  ghost function Views(sections: seq<SdpMediaDescription>): (vs: seq<Section>)
    reads sections
    ensures |vs| == |sections| && forall i :: 0 <= i < |sections| ==> vs[i] == sections[i].View()
  {
    seq(|sections|, i requires 0 <= i < |sections| reads sections => sections[i].View())
  }

  ghost predicate Distinct(sections: seq<SdpMediaDescription>) {
    forall i, j :: 0 <= i < j < |sections| ==> sections[i] != sections[j]
  }

  class SdpBody {
    var headers: map<char, Header>
    var a_headers: seq<Attr>
    var sections: seq<SdpMediaDescription>

    ghost function View(): Body
      reads this, sections
    {
      Body(headers, a_headers, Views(sections))
    }

    ghost predicate Valid()
      reads this
    {
      Distinct(sections)
    }

    constructor ()
      ensures Valid() && View() == Body(map[], [], []) && sections == []
    {
      headers, a_headers, sections := map[], [], [];
    }

    method AddHeader(name: string, header: string) returns (err: Option<Error>)
      modifies this`headers, this`a_headers
      ensures match AddTopHeader(old(View()), name, header)
              case Ok(b) => err.None? && View() == b
              case Err(e) => err == Some(e) && View() == old(View())
    {
      hide ParseHeader;
      if name == "a" {
        a_headers := a_headers + [ParseAttr(header)];
        return None;
      }
      if |name| != 1 || name[0] !in TOP_HEADERS {
        return Some(UnknownHeader);
      }
      match ParseHeader(name[0], header) {
        case Err(e) => return Some(e);
        case Ok(h) =>
          headers := headers[name[0] := h];
          return None;
      }
    }

    /** `self.sections[-1].addHeader(name, v)` */
    method AddToLastSection(name: string, v: string, ghost c: Option<string>) returns (err: Option<Error>)
      requires Valid() && sections != []
      modifies sections
      ensures match AddToLast(old(Parsing(View(), c)), name, v)
              case Ok(p) => err.None? && Parsing(View(), c) == p
              case Err(e) => err == Some(e)
    {
      hide AddSectionHeader;
      var n := |sections| - 1;
      err := sections[n].AddHeader(name, v);
      if err.None? {
        assert Views(sections) == old(Views(sections))[..n] + [sections[n].View()];
      }
    }

    /** One turn of the parser's loop. */
    method ReadLine(line: string, c: Option<string>) returns (err: Option<Error>, c': Option<string>)
      requires Valid()
      modifies this, sections
      ensures Valid() && (forall k :: 0 <= k < |sections| ==> sections[k] in old(sections) || fresh(sections[k]))
      ensures match ParseLine(old(Parsing(View(), c)), line)
              case Ok(p) => err.None? && Parsing(View(), c') == p
              case Err(e) => err == Some(e)
    {
      hide AddTopHeader, AddToLast;
      err, c' := None, c;
      var (raw, v) := SplitOnce(line, '=');
      if v.None? {
        return Some(BadLine), c;
      }
      var name := Lower(raw);
      hide SplitOnce, Lower;
      if name == "m" {
        var section := new SdpMediaDescription();
        sections := sections + [section];
        assert Views(sections) == old(Views(sections)) + [section.View()];
      }
      if sections == [] {
        if name == "c" {
          c' := v;
        } else {
          err := AddHeader(name, v.value);
        }
      } else {
        err := AddToLastSection(name, v.value, c);
      }
    }

    /** A session-level connection goes to the sections without one. */
    method FillSections(c: string) returns (err: Option<Error>)
      requires Valid()
      modifies sections
      ensures match FillIn(old(Views(sections)), c)
              case Ok(filled) => err.None? && Views(sections) == filled
              case Err(e) => err == Some(e)
    {
      hide AddSectionHeader, FillIn;
      ghost var before := Views(sections);
      FillNone(before, c);
      for i := 0 to |sections|
        invariant forall k :: i <= k < |sections| ==> sections[k].View() == before[k]
        invariant FillIn(before, c) == FillAfter(Views(sections)[..i], before[i..], c)
      {
        assert before[i..][0] == before[i] && before[i..][1..] == before[i + 1..];
        ghost var done := Views(sections)[..i];
        FillStep(done, before[i..], c);
        if 'c' !in sections[i].headers {
          err := sections[i].AddHeader("c", c);
          if err.Some? {
            return;
          }
        }
        assert Views(sections)[..i + 1] == done + [sections[i].View()];
      }
      FillDone(Views(sections), c);
      assert before[|sections|..] == [] && Views(sections)[..|sections|] == Views(sections);
      err := None;
    }

    method FirstMissing(names: string, hs: map<char, Header>) returns (m: Option<char>)
      ensures m == Missing(names, hs)
    {
      for i := 0 to |names|
        invariant Missing(names, hs) == Missing(names[i..], hs)
      {
        assert names[i..][1..] == names[i + 1..];
        if names[i] !in hs {
          return Some(names[i]);
        }
      }
      return None;
    }

    method CheckRequired() returns (err: Option<Error>)
      ensures match Check(View())
              case Ok(_) => err.None?
              case Err(e) => err == Some(e)
    {
      var m := FirstMissing(TOP_REQUIRED, headers);
      hide Missing;
      if m.Some? {
        return Some(MissingTop(m.value));
      }
      ghost var views := Views(sections);
      for i := 0 to |sections|
        invariant MissingInSections(views) == MissingInSections(views[i..])
      {
        assert views[i..][1..] == views[i + 1..];
        m := FirstMissing(SECTION_REQUIRED, sections[i].headers);
        if m.Some? {
          return Some(MissingMedia(m.value));
        }
      }
      return None;
    }

    /** Reading a text into a new object; an error stands for the exception. */
    method Read(text: string) returns (err: Option<Error>)
      requires Valid() && sections == [] && View() == Body(map[], [], [])
      modifies this
      ensures match ParseText(text)
              case Ok(b) => err.None? && View() == b
              case Err(e) => err == Some(e)
    {
      var avlines := NonBlank(Splitlines(Strip(text)));
      var c_header: Option<string> := None;
      hide ParseLine, Check, FillIn, AddTopHeader, NonBlank, Splitlines, Strip;
      for i := 0 to |avlines|
        invariant Valid() && forall k :: 0 <= k < |sections| ==> fresh(sections[k])
        invariant ParseLines(Parsing(View(), c_header), avlines[i..]) == ParseLines(NOTHING, avlines)
      {
        assert avlines[i..][1..] == avlines[i + 1..];
        err, c_header := ReadLine(avlines[i], c_header);
        if err.Some? {
          return;
        }
      }
      if c_header.Some? {
        if sections != [] {
          err := FillSections(c_header.value);
        } else {
          err := AddHeader("c", c_header.value);
        }
        if err.Some? {
          return;
        }
      }
      err := CheckRequired();
      assert err.None? ==> Check(View()) == Ok(View()) by {
        CheckKeeps(View());
      }
    }

    method SectionsStr(hoisted: Option<string>) returns (s: seq<string>)
      ensures s == SectionsLines(Views(sections), hoisted)
    {
      hide SectionLines, Str;
      ghost var views := Views(sections);
      s := [];
      for i := 0 to |sections|
        invariant s + SectionsLines(views[i..], hoisted) == SectionsLines(views, hoisted)
      {
        assert views[i..][1..] == views[i + 1..];
        var hs := sections[i].headers;
        var lines := sections[i].LocalStr(hoisted.Some? && 'c' in hs && Str(hs['c']) == hoisted.value);
        s := s + lines;
      }
    }

    /** The session part with connection text `c` between its two halves. */
    method TopStr(c: string) returns (s: seq<string>)
      ensures s == HeaderLines(FIRST_HALF, headers) + [Line('c', c)] + HeaderLines(SECOND_HALF, headers)
    {
      WithoutNone(FIRST_HALF);
      WithoutNone(SECOND_HALF);
      s := HeadersStr(FIRST_HALF, headers, false);
      var rest := HeadersStr(SECOND_HALF, headers, false);
      s := s + [Line('c', c)] + rest;
    }

    /** The text of `__str__`. */
    method ToText() returns (s: string)
      ensures s == PrintText(View())
    {
      var lines := ToLines();
      hide Print;
      s := JoinLines(lines);
    }

    /** The lines of `__str__` (and of `localStr`, which differs only in addresses of this host). */
    method ToLines() returns (s: seq<string>)
      ensures s == Print(View())
    {
      hide HeaderLines, AttrLines, SectionsLines, Str, Line;
      var attrs := AttrsStr(a_headers);
      if |sections| == 1 && 'c' in sections[0].headers {
        var c := Str(sections[0].headers['c']);
        s := TopStr(c);
        var lines := SectionsStr(Some(c));
        s := s + attrs + lines;
        return;
      }
      var hoisted := None;
      if |sections| > 1 && 'c' !in headers && 'c' in sections[0].headers
         && 'c' in sections[1].headers && Str(sections[0].headers['c']) == Str(sections[1].headers['c']) {
        hoisted := Some(Str(sections[0].headers['c']));
      }
      if hoisted.Some? {
        s := TopStr(hoisted.value);
      } else {
        WithoutNone(TOP_HEADERS);
        s := HeadersStr(TOP_HEADERS, headers, false);
      }
      var lines := SectionsStr(hoisted);
      s := s + attrs + lines;
    }
  }

  /** `s += '%s=%s\r\n'` over the lines. */
  method JoinLines(lines: seq<string>) returns (s: string)
    ensures s == TextOf(lines)
  {
    s := "";
    assert lines[..0] == [];
    for i := 0 to |lines|
      invariant s == TextOf(lines[..i])
    {
      assert lines[..i + 1] == lines[..i] + [lines[i]];
      TextOfSnoc(lines[..i], lines[i]);
      s := s + lines[i] + CRLF;
    }
    assert lines[..|lines|] == lines;
  }

  lemma {:induction false} WithoutNone(names: string)
    ensures Without(names, false) == names
  {
    if names != "" {
      WithoutNone(names[1..]);
    }
  }

  lemma CheckKeeps(b: Body)
    ensures Check(b).Ok? ==> Check(b) == Ok(b)
  {
  }

  /** What comes of filling in the rest when some sections are done. */
  ghost function FillAfter(done: seq<Section>, rest: seq<Section>, c: string): Result<seq<Section>, Error> {
    match FillIn(rest, c)
    case Err(e) => Err(e)
    case Ok(filled) => Ok(done + filled)
  }

  lemma FillNone(rest: seq<Section>, c: string)
    ensures forall none: seq<Section> :: none == [] ==> FillAfter(none, rest[0..], c) == FillIn(rest, c)
  {
    assert rest[0..] == rest;
    assert forall filled: seq<Section> :: [] + filled == filled;
    hide FillIn;
  }

  lemma FillStep(done: seq<Section>, rest: seq<Section>, c: string)
    requires rest != []
    ensures var first := if 'c' in rest[0].headers then Ok(rest[0]) else AddSectionHeader(rest[0], "c", c);
            FillAfter(done, rest, c) == match first
                                        case Err(e) => Err(e)
                                        case Ok(s) => FillAfter(done + [s], rest[1..], c)
  {
    hide AddSectionHeader;
    assert forall s, filled :: (done + [s]) + filled == done + ([s] + filled);
  }

  lemma FillDone(done: seq<Section>, c: string)
    ensures FillAfter(done, [], c) == Ok(done)
  {
    assert done + [] == done;
  }
}
