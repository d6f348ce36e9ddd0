/** Text handling that the SDP code leans on: blanks, tokens, decimal numbers, and splitting at a separator. */
module SdpText {
  import opened Basics

  /** Python's `str.isspace`. */
  predicate IsBlank(c: char) {
    var n := c as int;
    9 <= n <= 13 || 28 <= n <= 32 || n == 133 || n == 160 || n == 0x1680 || 0x2000 <= n <= 0x200a
    || n == 0x2028 || n == 0x2029 || n == 0x202f || n == 0x205f || n == 0x3000
  }

  /** Where Python's `str.splitlines` ends a line. */
  predicate IsBreak(c: char) {
    var n := c as int;
    10 <= n <= 13 || 28 <= n <= 30 || n == 133 || n == 0x2028 || n == 0x2029
  }

  /** A non-empty piece of text without blanks. */
  predicate IsToken(s: string) {
    s != "" && forall i :: 0 <= i < |s| ==> !IsBlank(s[i])
  }

  ghost predicate AreTokens(ts: seq<string>) {
    forall i :: 0 <= i < |ts| ==> IsToken(ts[i])
  }

  function TokenLength(s: string): (n: nat)
    ensures n <= |s|
    ensures forall i :: 0 <= i < n ==> !IsBlank(s[i])
    ensures n < |s| ==> IsBlank(s[n])
  {
    if s == "" || IsBlank(s[0]) then 0 else 1 + TokenLength(s[1..])
  }

  /** Python's `s.split()`. */
  function Split(s: string): seq<string>
    decreases |s|
  {
    if s == "" then []
    else if IsBlank(s[0]) then Split(s[1..])
    else
      var n := TokenLength(s);
      [s[..n]] + Split(s[n..])
  }

  function Join(ts: seq<string>): string {
    if ts == [] then "" else if |ts| == 1 then ts[0] else ts[0] + " " + Join(ts[1..])
  }

  lemma {:induction false} SplitGivesTokens(s: string)
    ensures AreTokens(Split(s))
    decreases |s|
  {
    if s != "" {
      if IsBlank(s[0]) {
        SplitGivesTokens(s[1..]);
      } else {
        SplitGivesTokens(s[TokenLength(s)..]);
      }
    }
  }

  lemma TokenLengthOf(t: string, rest: string)
    requires IsToken(t) && (rest == "" || IsBlank(rest[0]))
    ensures TokenLength(t + rest) == |t|
  {
    var s := t + rest;
    assert forall i :: 0 <= i < |t| ==> s[i] == t[i];
    assert rest != "" ==> s[|t|] == rest[0];
  }

  /** Splitting undoes joining. */
  lemma {:induction false} SplitJoin(ts: seq<string>)
    requires AreTokens(ts)
    ensures Split(Join(ts)) == ts
    decreases |ts|
  {
    if |ts| == 1 {
      TokenLengthOf(ts[0], "");
      assert ts[0] + "" == ts[0];
      assert ts[0][|ts[0]|..] == "";
    } else if |ts| > 1 {
      SplitJoin(ts[1..]);
      var rest := " " + Join(ts[1..]);
      TokenLengthOf(ts[0], rest);
      assert Join(ts) == ts[0] + rest;
      assert rest[1..] == Join(ts[1..]);
      assert Join(ts)[|ts[0]|..] == rest;
    }
  }

  lemma {:induction false} JoinSnoc(ts: seq<string>, t: string)
    ensures Join(ts + [t]) == if ts == [] then t else Join(ts) + " " + t
    decreases |ts|
  {
    if |ts| >= 1 {
      assert (ts + [t])[1..] == ts[1..] + [t];
      JoinSnoc(ts[1..], t);
    }
  }

  // ----- Decimal numbers -----

  function Digit(d: nat): char
    requires d < 10
  {
    (48 + d) as char
  }

  predicate IsDigit(c: char) {
    48 <= c as int <= 57
  }

  function Digits(n: nat): string {
    if n < 10 then [Digit(n)] else Digits(n / 10) + [Digit(n % 10)]
  }

  predicate AllDigits(s: string) {
    forall i :: 0 <= i < |s| ==> IsDigit(s[i])
  }

  function Value(s: string): nat
    requires AllDigits(s)
  {
    if s == "" then 0 else 10 * Value(s[..|s| - 1]) + (s[|s| - 1] as int - 48)
  }

  /** Python's `'%d' % n`. */
  function Decimal(n: int): string {
    if n < 0 then "-" + Digits(-n) else Digits(n)
  }

  function ParseNat(s: string): Option<nat> {
    if s != "" && AllDigits(s) then Some(Value(s)) else None
  }

  function Negate(r: Option<nat>): Option<int> {
    if r.Some? then Some(0 - r.value) else None
  }

  /** Python's `int(s)` on a sign and digits. */
  function ParseInt(s: string): Option<int> {
    if s != "" && s[0] == '-' then Negate(ParseNat(s[1..]))
    else if s != "" && s[0] == '+' then ParseNat(s[1..])
    else ParseNat(s)
  }

  lemma {:induction false} DigitsRoundTrip(n: nat)
    ensures Digits(n) != "" && AllDigits(Digits(n)) && Value(Digits(n)) == n
  {
    if n < 10 {
      assert [Digit(n)][..0] == "";
    } else {
      DigitsRoundTrip(n / 10);
      assert Digits(n)[..|Digits(n)| - 1] == Digits(n / 10);
    }
  }

  lemma DecimalRoundTrip(n: int)
    ensures ParseInt(Decimal(n)) == Some(n) && IsToken(Decimal(n))
  {
    var m: nat := if n < 0 then -n else n;
    DigitsRoundTrip(m);
    var d := Digits(m);
    hide Digits, Value;
    assert IsDigit(d[0]);
    assert forall i :: 0 <= i < |d| ==> IsDigit(d[i]);
    assert ("-" + d)[1..] == d;
    if n < 0 {
      assert ParseNat(d) == Some(m);
    }
  }

  // ----- Splitting once -----

  function IndexOf(s: string, sep: char): (i: nat)
    ensures i <= |s|
    ensures forall j :: 0 <= j < i ==> s[j] != sep
    ensures i < |s| ==> s[i] == sep
  {
    if s == "" || s[0] == sep then 0 else 1 + IndexOf(s[1..], sep)
  }

  /** Python's `s.split(sep, 1)`: the part before the first separator, and the part after it if there is one. */
  function SplitOnce(s: string, sep: char): (r: (string, Option<string>))
    ensures sep !in r.0
  {
    var i := IndexOf(s, sep);
    if i < |s| then (s[..i], Some(s[i + 1..])) else (s, None)
  }

  lemma SplitOnceOf(name: string, sep: char, v: string)
    requires sep !in name
    ensures SplitOnce(name + [sep] + v, sep) == (name, Some(v))
    ensures SplitOnce(name, sep) == (name, None)
  {
    var s := name + [sep] + v;
    assert s[|name|] == sep;
    assert forall j :: 0 <= j < |name| ==> s[j] == name[j];
    assert IndexOf(s, sep) == |name| == IndexOf(name, sep);
    assert s[..|name|] == name && s[|name| + 1..] == v;
  }

  function Lower(s: string): (r: string)
    ensures |r| == |s|
  {
    seq(|s|, i requires 0 <= i < |s| => if 'A' <= s[i] <= 'Z' then (s[i] as int + 32) as char else s[i])
  }

  // ----- Lines -----

  predicate NoBreak(s: string) {
    forall i :: 0 <= i < |s| ==> !IsBreak(s[i])
  }

  function LineLength(s: string): (n: nat)
    ensures n <= |s| && NoBreak(s[..n])
    ensures n < |s| ==> IsBreak(s[n])
  {
    if s == "" || IsBreak(s[0]) then 0 else 1 + LineLength(s[1..])
  }

  /** Python's `s.splitlines()`: a carriage return and a line feed are one break. */
  function Splitlines(s: string): seq<string>
    decreases |s|
  {
    var n := LineLength(s);
    if s == "" then []
    else if n == |s| then [s]
    else
      var rest := s[n + 1..];
      [s[..n]] + Splitlines(if s[n] == '\r' && rest != "" && rest[0] == '\n' then rest[1..] else rest)
  }

  function LeftStrip(s: string): string {
    if s != "" && IsBlank(s[0]) then LeftStrip(s[1..]) else s
  }

  function RightStrip(s: string): (r: string)
    ensures r <= s
  {
    if s != "" && IsBlank(s[|s| - 1]) then RightStrip(s[..|s| - 1]) else s
  }

  /** Python's `s.strip()`. */
  function Strip(s: string): string {
    RightStrip(LeftStrip(s))
  }

  const CRLF := "\r\n"

  /** The printers' text: each line ends with a carriage return and a line feed. */
  function TextOf(lines: seq<string>): string {
    if lines == [] then "" else lines[0] + CRLF + TextOf(lines[1..])
  }

  ghost predicate NoBreaks(lines: seq<string>) {
    forall i :: 0 <= i < |lines| ==> NoBreak(lines[i])
  }

  lemma {:induction false} LinesHaveNoBreaks(s: string)
    ensures NoBreaks(Splitlines(s))
    decreases |s|
  {
    var n := LineLength(s);
    if s != "" && n < |s| {
      var rest := s[n + 1..];
      LinesHaveNoBreaks(if s[n] == '\r' && rest != "" && rest[0] == '\n' then rest[1..] else rest);
    }
  }

  lemma LineLengthOf(line: string, rest: string)
    requires NoBreak(line) && (rest == "" || IsBreak(rest[0]))
    ensures LineLength(line + rest) == |line|
  {
    var s := line + rest;
    assert forall i :: 0 <= i < |line| ==> s[i] == line[i];
    assert rest != "" ==> s[|line|] == rest[0];
    var n := LineLength(s);
    assert forall i :: 0 <= i < n ==> s[..n][i] == s[i];
  }

  lemma FirstLine(line: string, rest: string)
    requires NoBreak(line)
    ensures Splitlines(line + CRLF + rest) == [line] + Splitlines(rest)
  {
    var s := line + (CRLF + rest);
    assert s == line + CRLF + rest;
    LineLengthOf(line, CRLF + rest);
    assert s[..|line|] == line && s[|line| + 1..] == "\n" + rest;
    assert ("\n" + rest)[1..] == rest;
  }

  /** Splitting the printed lines, the last of them without its break. */
  lemma {:induction false} SplitlinesTextOf(lines: seq<string>, last: string)
    requires NoBreaks(lines) && NoBreak(last) && last != ""
    ensures Splitlines(TextOf(lines) + last) == lines + [last]
    decreases |lines|
  {
    if lines == [] {
      LineLengthOf(last, "");
      assert last + "" == last && TextOf(lines) + last == last;
      assert Splitlines(last) == [last];
    } else {
      SplitlinesTextOf(lines[1..], last);
      FirstLine(lines[0], TextOf(lines[1..]) + last);
      assert TextOf(lines) + last == lines[0] + CRLF + (TextOf(lines[1..]) + last);
      assert [lines[0]] + (lines[1..] + [last]) == lines + [last];
    }
  }

  lemma {:induction false} TextOfSnoc(lines: seq<string>, last: string)
    ensures TextOf(lines + [last]) == TextOf(lines) + last + CRLF
    decreases |lines|
  {
    if lines == [] {
      assert [last][1..] == [];
    } else {
      TextOfSnoc(lines[1..], last);
      assert (lines + [last])[1..] == lines[1..] + [last];
    }
  }

  /** Stripping on the right reaches no further than the last part that has something else than blanks. */
  lemma {:induction false} RightStripConcat(a: string, b: string)
    requires RightStrip(b) != ""
    ensures RightStrip(a + b) == a + RightStrip(b)
    decreases |b|
  {
    var n := |b| - 1;
    assert (a + b)[|a| + n] == b[n];
    if IsBlank(b[n]) {
      assert (a + b)[..|a| + n] == a + b[..n];
      RightStripConcat(a, b[..n]);
    }
  }

  lemma RightStripCrlf(s: string)
    ensures RightStrip(s + CRLF) == RightStrip(s)
  {
    assert (s + CRLF)[..|s| + 1] == s + "\r";
    assert (s + "\r")[..|s|] == s;
  }

  /** What reading the printed text sees: the lines, the last one without the blanks at its end. */
  lemma PrintedTextSplits(lines: seq<string>, last: string)
    requires NoBreaks(lines) && NoBreak(last) && RightStrip(last) != ""
    requires LeftStrip(TextOf(lines + [last])) == TextOf(lines + [last])
    ensures Splitlines(Strip(TextOf(lines + [last]))) == lines + [RightStrip(last)]
  {
    TextOfSnoc(lines, last);
    RightStripCrlf(TextOf(lines) + last);
    RightStripConcat(TextOf(lines), last);
    assert NoBreak(RightStrip(last));
    SplitlinesTextOf(lines, RightStrip(last));
  }

  lemma {:induction false} RightStripEnds(s: string)
    ensures RightStrip(s) == s <==> s == "" || !IsBlank(s[|s| - 1])
  {
    if s != "" && IsBlank(s[|s| - 1]) {
      assert |RightStrip(s)| <= |s| - 1;
    }
  }
}
