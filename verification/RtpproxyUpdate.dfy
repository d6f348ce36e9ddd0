/** What the RTP proxy's answer to an update means: `sippy/Rtp_proxy/Session/update.py`. */
module RtpproxyUpdate {
  import opened Basics
  import opened SdpText

  /** A subcommand, and whether it accepts its results. */
  datatype Subcommand = Subcommand(commands: seq<string>, accepts: seq<string> -> bool)

  /** The answer split at `&&`: the blank-separated fields of its first part, and the other parts if any. */
  datatype Answer = Answer(fields: seq<string>, results: seq<string>)

  datatype Params = Params(subcommands: seq<Subcommand>, atype: string, remote_ip: string, proxy_address: string)

  datatype Update = Update(port: int, address: string, family: string, sendonly: bool, handed: seq<seq<string>>)

  datatype Reason = Errored | TooMany | Blamed(command: string) | Rejected(index: nat) | BadPort

  /** What becomes of an answer: one call of the result callback, with an update or without one, or an exception
      before any call. */
  datatype Verdict = Success(ur: Update) | Failure(reason: Reason) | Raised

  // ----- The text of an answer -----

  /** Where `&&` begins, or the length of the text when it is nowhere. */
  function AndAnd(s: string): (i: nat)
    ensures i == |s| || i + 2 <= |s|
  {
    if |s| < 2 then |s| else if s[0] == '&' && s[1] == '&' then 0 else 1 + AndAnd(s[1..])
  }

  /** Python's `s.split('&&')`. */
  function Parts(s: string): (r: seq<string>)
    ensures r != []
    decreases |s|
  {
    var i := AndAnd(s);
    if i == |s| then [s] else [s[..i]] + Parts(s[i + 2..])
  }

  function StripAll(parts: seq<string>): (r: seq<string>)
    ensures |r| == |parts|
  {
    seq(|parts|, i requires 0 <= i < |parts| => Strip(parts[i]))
  }

  /** What stands before the results. */
  function Head(text: string): string {
    var r := RightStrip(text);
    r[..AndAnd(r)]
  }

  function Results(text: string): seq<string> {
    var r := RightStrip(text);
    if AndAnd(r) == |r| then [] else StripAll(Parts(r[AndAnd(r) + 2..]))
  }

  function AnswerOf(text: string): (a: Answer)
    ensures AreTokens(a.fields)
  {
    SplitGivesTokens(Head(text));
    Answer(Split(Head(text)), Results(text))
  }

  predicate AllBlank(s: string) {
    forall i :: 0 <= i < |s| ==> IsBlank(s[i])
  }

  lemma {:induction false} NoFieldsWhenBlank(s: string)
    ensures Split(s) == [] <==> AllBlank(s)
    decreases |s|
  {
    if s != "" && IsBlank(s[0]) {
      NoFieldsWhenBlank(s[1..]);
      assert forall i :: 0 < i < |s| ==> s[i] == s[1..][i - 1];
    }
  }

  // ----- Which results belong to which subcommand -----

  function Flatten(subs: seq<Subcommand>): seq<string> {
    if subs == [] then [] else subs[0].commands + Flatten(subs[1..])
  }

  function Zeros(n: nat): seq<string> {
    seq(n, _ => "0")
  }

  /** The results, filled up with zeros to one for each command. */
  function Padded(subs: seq<Subcommand>, results: seq<string>): seq<string>
    requires |results| <= |Flatten(subs)|
  {
    results + Zeros(|Flatten(subs)| - |results|)
  }

  /** Where the commands of subcommand `i` begin among all commands. */
  function Start(subs: seq<Subcommand>, i: nat): nat
    requires i <= |subs|
  {
    |Flatten(subs[..i])|
  }

  lemma {:induction false} FlattenConcat(a: seq<Subcommand>, b: seq<Subcommand>)
    ensures Flatten(a + b) == Flatten(a) + Flatten(b)
    decreases |a|
  {
    if a == [] {
      assert a + b == b;
    } else {
      assert (a + b)[1..] == a[1..] + b;
      FlattenConcat(a[1..], b);
    }
  }

  lemma StartsInside(subs: seq<Subcommand>, i: nat)
    requires i < |subs|
    ensures Start(subs, i + 1) == Start(subs, i) + |subs[i].commands| <= |Flatten(subs)|
    ensures Flatten(subs)[Start(subs, i)..Start(subs, i + 1)] == subs[i].commands
  {
    FlattenConcat(subs[..i], [subs[i]]);
    assert subs[..i] + [subs[i]] == subs[..i + 1];
    assert [subs[i]][1..] == [];
    FlattenConcat(subs[..i + 1], subs[i + 1..]);
    assert subs[..i + 1] + subs[i + 1..] == subs;
  }

  /** Subcommand `i`'s own results: as many as it has commands, at the same places. */
  function Slice(subs: seq<Subcommand>, all: seq<string>, i: nat): seq<string>
    requires i < |subs| && |all| == |Flatten(subs)|
  {
    StartsInside(subs, i);
    all[Start(subs, i)..Start(subs, i + 1)]
  }

  function SlicesUpTo(subs: seq<Subcommand>, all: seq<string>, n: nat): (r: seq<seq<string>>)
    requires n <= |subs| && |all| == |Flatten(subs)|
    ensures |r| == n
  {
    seq(n, i requires 0 <= i < n => Slice(subs, all, i))
  }

  lemma Adjoin(all: seq<string>, i: nat, j: nat)
    requires i <= j <= |all|
    ensures all[..i] + all[i..j] == all[..j]
  {
  }

  /** The slices are contiguous and leave nothing out. */
  lemma {:induction false} SlicesCover(subs: seq<Subcommand>, all: seq<string>, n: nat)
    requires n <= |subs| && |all| == |Flatten(subs)|
    ensures Start(subs, n) <= |all| && Concat(SlicesUpTo(subs, all, n)) == all[..Start(subs, n)]
    decreases n
  {
    if n == 0 {
      assert subs[..0] == [];
    } else {
      SlicesCover(subs, all, n - 1);
      StartsInside(subs, n - 1);
      assert SlicesUpTo(subs, all, n)[..n - 1] == SlicesUpTo(subs, all, n - 1);
      Adjoin(all, Start(subs, n - 1), Start(subs, n));
      hide Flatten;
    }
  }

  function Concat(parts: seq<seq<string>>): seq<string> {
    if parts == [] then [] else Concat(parts[..|parts| - 1]) + parts[|parts| - 1]
  }

  lemma SlicesCoverAll(subs: seq<Subcommand>, all: seq<string>)
    requires |all| == |Flatten(subs)|
    ensures Concat(SlicesUpTo(subs, all, |subs|)) == all
  {
    SlicesCover(subs, all, |subs|);
    assert subs[..|subs|] == subs;
    assert all[..|all|] == all;
  }

  // ----- The verdict -----

  function FirstRejected(subs: seq<Subcommand>, all: seq<string>, from: nat): Option<nat>
    requires from <= |subs| && |all| == |Flatten(subs)|
    decreases |subs| - from
  {
    if from == |subs| then None
    else if !subs[from].accepts(Slice(subs, all, from)) then Some(from)
    else FirstRejected(subs, all, from + 1)
  }

  function SubcommandsVerdict(subs: seq<Subcommand>, results: seq<string>): Option<Reason> {
    var n := |results|;
    if n > |Flatten(subs)| then Some(TooMany)
    else if n > 0 && results[n - 1] == "-1" then Some(Blamed(Flatten(subs)[n - 1]))
    else
      match FirstRejected(subs, Padded(subs, results), 0)
      case Some(i) => Some(Rejected(i))
      case None => None
  }

  /** An old-style request to put the session on hold. */
  predicate OnHold(p: Params) {
    (p.atype == "IP4" && p.remote_ip == "0.0.0.0") || (p.atype == "IP6" && p.remote_ip == "::")
  }

  function UpdateOf(p: Params, a: Answer, port: int): Update
    requires p.subcommands != [] ==> |a.results| <= |Flatten(p.subcommands)|
    requires a.fields != []
  {
    var handed := if p.subcommands == [] then []
                  else SlicesUpTo(p.subcommands, Padded(p.subcommands, a.results), |p.subcommands|);
    if |a.fields| > 1 then
      Update(port, a.fields[1], if |a.fields| > 2 && a.fields[2] == "6" then "IP6" else "IP4", OnHold(p), handed)
    else
      Update(port, p.proxy_address, "IP4", OnHold(p), handed)
  }

  function PortVerdict(p: Params, a: Answer): Verdict
    requires p.subcommands != [] ==> |a.results| <= |Flatten(p.subcommands)|
    requires a.fields != []
  {
    match ParseInt(a.fields[0])
    case None => Raised
    case Some(port) => if port == 0 then Failure(BadPort) else Success(UpdateOf(p, a, port))
  }

  function AnswerVerdict(p: Params, a: Answer): Verdict
    requires AreTokens(a.fields)
  {
    if a.fields == [] then Raised
    else if a.fields[0][0] == 'E' then Failure(Errored)
    else
      var sub := if p.subcommands == [] then None else SubcommandsVerdict(p.subcommands, a.results);
      if sub.Some? then Failure(sub.value) else PortVerdict(p, a)
  }

  function VerdictOf(p: Params, text: Option<string>): Verdict {
    match text
    case None => Failure(Errored)
    case Some(t) => AnswerVerdict(p, AnswerOf(t))
  }

  /** An exception instead of a call of the callback: the text has only blanks before the first `&&`, or its first
      field is not a number, does not begin with an E, and no subcommand finds fault with the results. */
  lemma RaisedExactlyWhen(p: Params, text: string)
    ensures VerdictOf(p, Some(text)).Raised? <==>
            AllBlank(Head(text)) ||
            (Split(Head(text)) != [] && var port := Split(Head(text))[0];
             ParseInt(port).None? && !(['E'] <= port)
             && (p.subcommands == [] || SubcommandsVerdict(p.subcommands, Results(text)).None?))
  {
    NoFieldsWhenBlank(Head(text));
    hide SubcommandsVerdict, ParseInt, Split, Head, Results, AllBlank;
    var a := AnswerOf(text);
    assert a.fields != [] ==> IsToken(a.fields[0]);
  }

  /** Answers that raise: an empty one, one that begins with the results, and a word in the place of the port. */
  lemma AnswersThatRaise(p: Params)
    ensures VerdictOf(p, Some("")).Raised? && VerdictOf(p, Some("&&1")).Raised?
    ensures p.subcommands == [] ==> VerdictOf(p, Some("abc")).Raised?
  {
    assert Head("&&1") == "" && Head("") == "";
    RaisedExactlyWhen(p, "");
    RaisedExactlyWhen(p, "&&1");
    assert AndAnd("abc") == 3 by {
      assert "abc"[1..] == "bc" && "bc"[1..] == "c";
    }
    assert Head("abc") == "abc" && Split("abc") == ["abc"] by {
      assert IsToken("abc");
      SplitJoin(["abc"]);
    }
    assert !IsDigit("abc"[0]);
    RaisedExactlyWhen(p, "abc");
  }

  lemma {:induction false} NoneRejected(subs: seq<Subcommand>, all: seq<string>, from: nat)
    requires from <= |subs| && |all| == |Flatten(subs)|
    ensures FirstRejected(subs, all, from).None?
            <==> forall i :: from <= i < |subs| ==> subs[i].accepts(Slice(subs, all, i))
    decreases |subs| - from
  {
    if from < |subs| {
      NoneRejected(subs, all, from + 1);
    }
    hide Slice, Flatten;
  }

  /** After a success every subcommand was handed exactly its own slice of the padded results, accepted it, and the
      slices together are all of them. */
  lemma SuccessHandsOutSlices(p: Params, text: string)
    requires VerdictOf(p, Some(text)).Success? && p.subcommands != []
    ensures |Results(text)| <= |Flatten(p.subcommands)|
    ensures var all, handed := Padded(p.subcommands, Results(text)), VerdictOf(p, Some(text)).ur.handed;
            && |handed| == |p.subcommands|
            && Concat(handed) == all
            && forall i :: 0 <= i < |handed| ==>
                 |handed[i]| == |p.subcommands[i].commands| && p.subcommands[i].accepts(handed[i])
  {
    var subs := p.subcommands;
    hide Split, Head, Results;
    var all := Padded(subs, Results(text));
    SlicesCoverAll(subs, all);
    NoneRejected(subs, all, 0);
    forall i | 0 <= i < |subs| ensures |Slice(subs, all, i)| == |subs[i].commands| {
      StartsInside(subs, i);
    }
    hide Slice, Flatten, Concat, ParseInt, OnHold, Padded;
  }

  // ----- The object -----

  class UpdateParams {
    var subcommands: seq<Subcommand>
    var atype: string
    var remote_ip: string
    var proxy_address: string
    var armed: bool                       // whether there is a result callback
    var calls: seq<Verdict>               // what it has been called with

    function View(): Params
      reads this
    {
      Params(subcommands, atype, remote_ip, proxy_address)
    }

    ghost predicate Valid()
      reads this
    {
      forall i :: 0 <= i < |subcommands| ==> subcommands[i].commands != []
    }

    constructor (atype: string, remote_ip: string, proxy_address: string)
      ensures Valid() && View() == Params([], atype, remote_ip, proxy_address) && armed && calls == []
    {
      subcommands, armed, calls := [], true, [];
      this.atype, this.remote_ip, this.proxy_address := atype, remote_ip, proxy_address;
    }

    /** `sum(len(sc.commands) for sc in self.subcommands)` */
    method Expected() returns (n: nat)
      ensures n == |Flatten(subcommands)|
    {
      n := 0;
      assert subcommands[..0] == [];
      for i := 0 to |subcommands|
        invariant n == Start(subcommands, i)
      {
        StartsInside(subcommands, i);
        n := n + |subcommands[i].commands|;
      }
      assert subcommands[..|subcommands|] == subcommands;
    }

    /** The command that the last of `n` results belongs to. */
    method Blame(n: nat) returns (command: string)
      requires 0 < n <= |Flatten(subcommands)|
      ensures command == Flatten(subcommands)[n - 1]
    {
      var foff := n;
      var i := 0;
      assert subcommands[..0] == [] && subcommands[..|subcommands|] == subcommands;
      while i < |subcommands|
        invariant 0 <= i <= |subcommands| && foff > 0 && n == Start(subcommands, i) + foff
      {
        StartsInside(subcommands, i);
        ghost var own := Flatten(subcommands)[Start(subcommands, i)..Start(subcommands, i + 1)];
        if foff > |subcommands[i].commands| {
          foff := foff - |subcommands[i].commands|;
          i := i + 1;
          continue;
        }
        assert own[foff - 1] == Flatten(subcommands)[n - 1];
        return subcommands[i].commands[foff - 1];
      }
      assert false;
    }

    /** The subcommands take their results from the front of the list, until it is used up. */
    method HandOut(results: seq<string>) returns (rejected: Option<nat>, handed: seq<seq<string>>)
      requires Valid() && |results| == |Flatten(subcommands)|
      ensures rejected == FirstRejected(subcommands, results, 0)
      ensures rejected.None? ==> handed == SlicesUpTo(subcommands, results, |subcommands|)
    {
      var subc_ress := results;
      handed := [];
      assert subcommands[..0] == [] && subcommands[..|subcommands|] == subcommands;
      hide SdpText.ParseInt;
      for i := 0 to |subcommands|
        invariant Start(subcommands, i) <= |results| && subc_ress == results[Start(subcommands, i)..]
        invariant handed == SlicesUpTo(subcommands, results, i)
        invariant FirstRejected(subcommands, results, 0) == FirstRejected(subcommands, results, i)
      {
        StartsInside(subcommands, i);
        var own := subc_ress[..|subcommands[i].commands|];
        assert own == Slice(subcommands, results, i);
        if !subcommands[i].accepts(own) {
          return Some(i), handed;
        }
        handed := handed + [own];
        subc_ress := subc_ress[|subcommands[i].commands|..];
        if |subc_ress| == 0 {
          NoneAfter(subcommands, i);
          return None, handed;
        }
      }
      rejected := None;
    }

    /** What is wrong with the results, if anything; the part for `len(self.subcommands) > 0`. */
    method CheckResults(subc_ress: seq<string>) returns (reason: Option<Reason>, handed: seq<seq<string>>)
      requires Valid()
      ensures reason == SubcommandsVerdict(subcommands, subc_ress)
      ensures reason.None? ==>
                |subc_ress| <= |Flatten(subcommands)|
                && handed == SlicesUpTo(subcommands, Padded(subcommands, subc_ress), |subcommands|)
    {
      hide FirstRejected;
      handed := [];
      var actual := |subc_ress|;
      var expected := Expected();
      if actual > expected {
        return Some(TooMany), handed;
      }
      if actual > 0 && subc_ress[actual - 1] == "-1" {
        var command := Blame(actual);
        return Some(Blamed(command)), handed;
      }
      var rejected;
      rejected, handed := HandOut(subc_ress + Zeros(expected - actual));
      reason := if rejected.Some? then Some(Rejected(rejected.value)) else None;
    }

    /** `self.result_callback(...)`, which is no longer there after a success. */
    method Call(v: Verdict) returns (raised: bool)
      modifies this`calls
      ensures raised == !armed && calls == if raised then old(calls) else old(calls) + [v]
    {
      raised := !armed;
      if armed {
        calls := calls + [v];
      }
    }

    method ProcessRtppResult(result: Option<string>) returns (raised: bool)
      requires Valid()
      modifies this`calls, this`armed
      ensures var v := VerdictOf(View(), result);
              && raised == (v.Raised? || !old(armed))
              && calls == (if raised then old(calls) else old(calls) + [v])
              && armed == (old(armed) && !v.Success?)
    {
      hide SubcommandsVerdict, Flatten, Padded, SlicesUpTo, ParseInt, Split, AndAnd, Parts, StripAll, RightStrip;
      if result.None? {
        raised := Call(Failure(Errored));
        return;
      }
      var text := RightStrip(result.value);
      var cut := AndAnd(text);
      var t1 := Split(text[..cut]);
      SplitGivesTokens(text[..cut]);
      if t1 == [] {
        return true;
      }
      if t1[0][0] == 'E' {
        raised := Call(Failure(Errored));
        return;
      }
      var handed := [];
      if |subcommands| > 0 {
        var subc_ress := if cut == |text| then [] else StripAll(Parts(text[cut + 2..]));
        var reason;
        reason, handed := CheckResults(subc_ress);
        if reason.Some? {
          raised := Call(Failure(reason.value));
          return;
        }
      }
      var port := ParseInt(t1[0]);
      if port.None? {
        return true;
      }
      if port.value == 0 {
        raised := Call(Failure(BadPort));
        return;
      }
      var address, family := proxy_address, "IP4";
      if |t1| > 1 {
        address := t1[1];
        if |t1| > 2 && t1[2] == "6" {
          family := "IP6";
        }
      }
      raised := Call(Success(Update(port.value, address, family, OnHold(View()), handed)));
      armed := armed && raised;
    }
  }

  /** When the list is used up after subcommand `i`, it was the last one. */
  lemma NoneAfter(subs: seq<Subcommand>, i: nat)
    requires i < |subs| && forall k :: 0 <= k < |subs| ==> subs[k].commands != []
    requires Start(subs, i + 1) == |Flatten(subs)|
    ensures i + 1 == |subs|
  {
    if i + 1 < |subs| {
      StartsInside(subs, i + 1);
    }
  }
}
