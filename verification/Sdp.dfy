/** SDP bodies as `sippy/SdpBody.py`, `sippy/SdpMediaDescription.py` and the header classes parse and print them,
    over the lines of the text. */
module Sdp {
  import opened Basics
  import opened SdpText

  // ----- Headers -----

  datatype Formats = Numbers(pts: seq<int>) | Names(names: seq<string>)

  datatype Header =
    | Generic(text: string)
    | Origin(fields: seq<string>)
    | Connection(ntype: string, atype: string, addr: string)
    | Media(stype: string, port: int, transport: string, formats: Formats)

  datatype Attr = Attr(name: string, value: Option<string>)

  datatype Section = Section(headers: map<char, Header>, attrs: seq<Attr>)

  datatype Body = Body(headers: map<char, Header>, attrs: seq<Attr>, sections: seq<Section>)

  datatype Error = BadLine | UnknownHeader | BadValue | MissingTop(header: char) | MissingMedia(header: char)

  const FIRST_HALF := "vosiuep"
  const SECOND_HALF := "btrzk"
  const TOP_HEADERS := "vosiuepcbtrzk"
  const SECTION_HEADERS := "micbk"
  const TOP_REQUIRED := "vost"
  const SECTION_REQUIRED := "cm"

  predicate IsAv(stype: string) {
    Lower(stype) == "audio" || Lower(stype) == "video"
  }

  function ParseNumbers(ts: seq<string>): Option<seq<int>> {
    if ts == [] then Some([])
    else
      var n, rest := ParseInt(ts[0]), ParseNumbers(ts[1..]);
      if n.None? || rest.None? then None else Some([n.value] + rest.value)
  }

  function ParseMedia(v: string): Result<Header, Error> {
    var params := Split(v);
    if |params| < 3 || ParseInt(params[1]).None? then Err(BadValue)
    else
      var port := ParseInt(params[1]).value;
      if IsAv(params[0]) then
        match ParseNumbers(params[3..])
        case None => Err(BadValue)
        case Some(pts) => Ok(Media(params[0], port, params[2], Numbers(pts)))
      else
        Ok(Media(params[0], port, params[2], Names(params[3..])))
  }

  /** The constructor that `f_types` names for a header. */
  function ParseHeader(name: char, v: string): Result<Header, Error> {
    if name == 'o' then
      if |Split(v)| == 6 then Ok(Origin(Split(v))) else Err(BadValue)
    else if name == 'c' then
      var fields := Split(v);
      if |fields| >= 3 then Ok(Connection(fields[0], fields[1], fields[2])) else Err(BadValue)
    else if name == 'm' then
      ParseMedia(v)
    else
      Ok(Generic(v))
  }

  function Decimals(ns: seq<int>): seq<string> {
    if ns == [] then [] else [Decimal(ns[0])] + Decimals(ns[1..])
  }

  function FormatTokens(f: Formats): seq<string> {
    match f
    case Numbers(pts) => Decimals(pts)
    case Names(names) => names
  }

  function Str(h: Header): string {
    match h
    case Generic(text) => text
    case Origin(fields) => Join(fields)
    case Connection(ntype, atype, addr) => Join([ntype, atype, addr])
    case Media(stype, port, transport, formats) => Join([stype, Decimal(port), transport] + FormatTokens(formats))
  }

  function ParseAttr(v: string): Attr {
    var (name, value) := SplitOnce(v, ':');
    Attr(name, value)
  }

  function AttrStr(a: Attr): string {
    if a.value.None? then a.name else a.name + ":" + a.value.value
  }

  // ----- Printing -----

  function Line(name: char, v: string): string {
    [name] + "=" + v
  }

  /** The headers that are there, in the order of `names`. */
  function HeaderLines(names: string, headers: map<char, Header>): seq<string> {
    if names == "" then []
    else if names[0] in headers then [Line(names[0], Str(headers[names[0]]))] + HeaderLines(names[1..], headers)
    else HeaderLines(names[1..], headers)
  }

  function AttrLines(attrs: seq<Attr>): seq<string> {
    if attrs == [] then [] else [Line('a', AttrStr(attrs[0]))] + AttrLines(attrs[1..])
  }

  function SectionNames(noC: bool): string {
    if noC then "mibk" else SECTION_HEADERS
  }

  function SectionLines(s: Section, noC: bool): seq<string> {
    HeaderLines(SectionNames(noC), s.headers) + AttrLines(s.attrs)
  }

  /** `hoisted` is the text of a connection that the top of the body carries for the sections. */
  predicate Covered(s: Section, hoisted: Option<string>) {
    hoisted.Some? && 'c' in s.headers && Str(s.headers['c']) == hoisted.value
  }

  function SectionsLines(sections: seq<Section>, hoisted: Option<string>): seq<string> {
    if sections == [] then []
    else SectionLines(sections[0], Covered(sections[0], hoisted)) + SectionsLines(sections[1..], hoisted)
  }

  /** When and what the printer hoists. */
  function Hoisted(b: Body): Option<string> {
    if |b.sections| == 1 && 'c' in b.sections[0].headers then Some(Str(b.sections[0].headers['c']))
    else if |b.sections| > 1 && 'c' !in b.headers && 'c' in b.sections[0].headers
            && 'c' in b.sections[1].headers && Str(b.sections[0].headers['c']) == Str(b.sections[1].headers['c'])
      then Some(Str(b.sections[0].headers['c']))
    else None
  }

  function PrintWith(b: Body, hoisted: Option<string>): seq<string> {
    (match hoisted
     case Some(c) => HeaderLines(FIRST_HALF, b.headers) + [Line('c', c)] + HeaderLines(SECOND_HALF, b.headers)
     case None => HeaderLines(TOP_HEADERS, b.headers))
    + AttrLines(b.attrs) + SectionsLines(b.sections, hoisted)
  }

  function Print(b: Body): seq<string> {
    PrintWith(b, Hoisted(b))
  }

  /** Every section with its own connection. */
  function PrintPlain(b: Body): seq<string> {
    PrintWith(b, None)
  }

  // ----- Parsing -----

  /** The body so far, and the text of a session-level connection. */
  datatype Parsing = Parsing(body: Body, c: Option<string>)

  const NOTHING := Parsing(Body(map[], [], []), None)

  function AddSectionHeader(s: Section, name: string, v: string): Result<Section, Error> {
    if name == "a" then Ok(s.(attrs := s.attrs + [ParseAttr(v)]))
    else if |name| != 1 || name[0] !in SECTION_HEADERS then Err(UnknownHeader)
    else
      match ParseHeader(name[0], v)
      case Err(e) => Err(e)
      case Ok(h) => Ok(s.(headers := s.headers[name[0] := h]))
  }

  function AddTopHeader(b: Body, name: string, v: string): Result<Body, Error> {
    if name == "a" then Ok(b.(attrs := b.attrs + [ParseAttr(v)]))
    else if |name| != 1 || name[0] !in TOP_HEADERS then Err(UnknownHeader)
    else
      match ParseHeader(name[0], v)
      case Err(e) => Err(e)
      case Ok(h) => Ok(b.(headers := b.headers[name[0] := h]))
  }

  /** `self.sections[-1].addHeader(name, v)` */
  function AddToLast(p: Parsing, name: string, v: string): Result<Parsing, Error>
    requires p.body.sections != []
  {
    var n := |p.body.sections| - 1;
    match AddSectionHeader(p.body.sections[n], name, v)
    case Err(e) => Err(e)
    case Ok(s) => Ok(p.(body := p.body.(sections := p.body.sections[..n] + [s])))
  }

  function ParseLine(p: Parsing, line: string): Result<Parsing, Error> {
    var (raw, v) := SplitOnce(line, '=');
    if v.None? then Err(BadLine)
    else
      var name := Lower(raw);
      var p1 := if name == "m" then p.(body := p.body.(sections := p.body.sections + [Section(map[], [])])) else p;
      if p1.body.sections != [] then AddToLast(p1, name, v.value)
      else if name == "c" then Ok(p.(c := v))
      else
        match AddTopHeader(p.body, name, v.value)
        case Err(e) => Err(e)
        case Ok(b) => Ok(p.(body := b))
  }

  function ParseLines(p: Parsing, lines: seq<string>): Result<Parsing, Error>
    decreases |lines|
  {
    if lines == [] then Ok(p)
    else
      match ParseLine(p, lines[0])
      case Err(e) => Err(e)
      case Ok(p1) => ParseLines(p1, lines[1..])
  }

  /** A session-level connection goes to every section without its own. */
  function FillIn(sections: seq<Section>, c: string): Result<seq<Section>, Error> {
    if sections == [] then Ok([])
    else
      var first := if 'c' in sections[0].headers then Ok(sections[0]) else AddSectionHeader(sections[0], "c", c);
      match first
      case Err(e) => Err(e)
      case Ok(s) =>
        match FillIn(sections[1..], c)
        case Err(e) => Err(e)
        case Ok(rest) => Ok([s] + rest)
  }

  function Distribute(p: Parsing): Result<Body, Error> {
    if p.c.None? then Ok(p.body)
    else if p.body.sections == [] then AddTopHeader(p.body, "c", p.c.value)
    else
      match FillIn(p.body.sections, p.c.value)
      case Err(e) => Err(e)
      case Ok(sections) => Ok(p.body.(sections := sections))
  }

  /** The first of the required headers that is not there. */
  function Missing(names: string, headers: map<char, Header>): Option<char> {
    if names == "" then None else if names[0] !in headers then Some(names[0]) else Missing(names[1..], headers)
  }

  function MissingInSections(sections: seq<Section>): Option<char> {
    if sections == [] then None
    else
      var m := Missing(SECTION_REQUIRED, sections[0].headers);
      if m.Some? then m else MissingInSections(sections[1..])
  }

  function Check(b: Body): Result<Body, Error> {
    var top, media := Missing(TOP_REQUIRED, b.headers), MissingInSections(b.sections);
    if top.Some? then Err(MissingTop(top.value))
    else if media.Some? then Err(MissingMedia(media.value))
    else Ok(b)
  }

  predicate IsBlankLine(line: string) {
    forall i :: 0 <= i < |line| ==> IsBlank(line[i])
  }

  function NonBlank(lines: seq<string>): seq<string> {
    if lines == [] then []
    else (if IsBlankLine(lines[0]) then [] else [lines[0]]) + NonBlank(lines[1..])
  }

  function Parse(lines: seq<string>): Result<Body, Error> {
    match ParseLines(NOTHING, NonBlank(lines))
    case Err(e) => Err(e)
    case Ok(p) =>
      match Distribute(p)
      case Err(e) => Err(e)
      case Ok(b) => Check(b)
  }

  // ----- Texts -----

  /** The whole constructor: the text is stripped and split into lines first. */
  function ParseText(text: string): Result<Body, Error> {
    Parse(Splitlines(Strip(text)))
  }

  function PrintText(b: Body): string {
    TextOf(Print(b))
  }

  // ----- What a body must be for its lines to be read back; every parsed body is -----

  ghost predicate HeaderOk(name: char, h: Header) {
    if name == 'o' then h.Origin? && |h.fields| == 6 && AreTokens(h.fields)
    else if name == 'c' then h.Connection? && AreTokens([h.ntype, h.atype, h.addr])
    else if name == 'm' then
      && h.Media? && IsToken(h.stype) && IsToken(h.transport)
      && (if IsAv(h.stype) then h.formats.Numbers? else h.formats.Names? && AreTokens(h.formats.names))
    else h.Generic?
  }

  ghost predicate HeadersOk(names: string, headers: map<char, Header>) {
    forall n :: n in headers ==> n in names && HeaderOk(n, headers[n])
  }

  ghost predicate AttrsOk(attrs: seq<Attr>) {
    forall i :: 0 <= i < |attrs| ==> ':' !in attrs[i].name
  }

  ghost predicate SectionOk(s: Section) {
    HeadersOk(SECTION_HEADERS, s.headers) && AttrsOk(s.attrs) && 'm' in s.headers && 'c' in s.headers
  }

  ghost predicate BodyOk(b: Body) {
    && HeadersOk(TOP_HEADERS, b.headers) && AttrsOk(b.attrs)
    && Missing(TOP_REQUIRED, b.headers).None?
    && forall i :: 0 <= i < |b.sections| ==> SectionOk(b.sections[i])
  }
}
