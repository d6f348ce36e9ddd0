/** The verdict on an answer of the RTP proxy, case by case, and the texts that have given fields and results
    (`process_rtpp_result` in `sippy/Rtp_proxy/Session/update.py`). */
module RtpproxyAnswers {
  import opened Basics
  import opened SdpText
  import opened RtpproxyUpdate

  // ----- The verdict -----

  /** The results for `n` commands that stand from `first` on; those that the answer lacks are zeros. */
  predicate ResultsFor(rs: seq<string>, first: nat, own: seq<string>, n: nat) {
    && |own| == n
    && forall k :: 0 <= k < n ==> own[k] == if first + k < |rs| then rs[first + k] else "0"
  }

  /** How many commands the first `i` subcommands have. */
  function Before(subs: seq<Subcommand>, i: nat): nat
    requires i <= |subs|
  {
    if i == 0 then 0 else Before(subs, i - 1) + |subs[i - 1].commands|
  }

  /** Command number `n` of them all, counted over the subcommands. */
  predicate IsCommand(subs: seq<Subcommand>, n: nat, command: string) {
    exists i, k :: 0 <= i < |subs| && 0 <= k < |subs[i].commands| && Before(subs, i) + k == n
                   && command == subs[i].commands[k]
  }

  predicate Accepts(subs: seq<Subcommand>, rs: seq<string>, i: nat, own: seq<string>) {
    i < |subs| && ResultsFor(rs, Before(subs, i), own, |subs[i].commands|) && subs[i].accepts(own)
  }

  predicate Rejects(subs: seq<Subcommand>, rs: seq<string>, i: nat, own: seq<string>) {
    i < |subs| && ResultsFor(rs, Before(subs, i), own, |subs[i].commands|) && !subs[i].accepts(own)
  }

  /** Every subcommand before `i` accepts its results, `handed`. */
  predicate Taken(subs: seq<Subcommand>, rs: seq<string>, i: nat, handed: seq<seq<string>>) {
    i <= |subs| && |handed| == i && forall k :: 0 <= k < i ==> Accepts(subs, rs, k, handed[k])
  }

  /** What is wrong with the results, and otherwise who got what. */
  ghost predicate ResultsSay(subs: seq<Subcommand>, rs: seq<string>, reason: Option<Reason>) {
    if |rs| > Before(subs, |subs|) then reason == Some(TooMany)
    else if rs != [] && rs[|rs| - 1] == "-1" then
      reason.Some? && reason.value.Blamed? && IsCommand(subs, |rs| - 1, reason.value.command)
    else
      match reason
      case None => exists handed :: Taken(subs, rs, |subs|, handed)
      case Some(Rejected(i)) => exists handed, own :: Taken(subs, rs, i, handed) && Rejects(subs, rs, i, own)
      case _ => false
  }

  /** The port, the address and the family that the fields name; and whether the update was asked for a hold. */
  predicate UpdateSays(p: Params, fields: seq<string>, rs: seq<string>, ur: Update)
    requires fields != []
  {
    && ParseInt(fields[0]) == Some(ur.port) && ur.port != 0
    && ur.address == (if |fields| > 1 then fields[1] else p.proxy_address)
    && (ur.family == "IP6" || ur.family == "IP4")
    && (ur.family == "IP6" <==> |fields| > 2 && fields[2] == "6")
    && (ur.sendonly <==> (p.atype == "IP4" && p.remote_ip == "0.0.0.0") || (p.atype == "IP6" && p.remote_ip == "::"))
    && Taken(p.subcommands, rs, |p.subcommands|, ur.handed)
  }

  /** In the order in which the answer is looked at: an error, the results if there are subcommands, the port. */
  ghost predicate VerdictSays(p: Params, fields: seq<string>, rs: seq<string>, v: Verdict)
    requires AreTokens(fields)
  {
    if fields == [] then v == Raised
    else if fields[0][0] == 'E' then v == Failure(Errored)
    else if p.subcommands != [] && v.Failure? && v.reason != BadPort then ResultsSay(p.subcommands, rs, Some(v.reason))
    else
      && (p.subcommands != [] ==> ResultsSay(p.subcommands, rs, None))
      && match v
         case Raised => ParseInt(fields[0]).None?
         case Failure(reason) => reason == BadPort && ParseInt(fields[0]) == Some(0)
         case Success(ur) => UpdateSays(p, fields, rs, ur)
  }

  lemma {:induction false} BeforeIs(subs: seq<Subcommand>, i: nat)
    requires i <= |subs|
    ensures Before(subs, i) == Start(subs, i)
    decreases i
  {
    if i == 0 {
      assert subs[..0] == [];
    } else {
      BeforeIs(subs, i - 1);
      StartsInside(subs, i - 1);
    }
    hide Flatten;
  }

  lemma AllIs(subs: seq<Subcommand>)
    ensures Before(subs, |subs|) == |Flatten(subs)|
  {
    BeforeIs(subs, |subs|);
    assert subs[..|subs|] == subs;
  }

  lemma SliceIs(subs: seq<Subcommand>, rs: seq<string>, i: nat)
    requires i < |subs| && |rs| <= |Flatten(subs)|
    ensures ResultsFor(rs, Before(subs, i), Slice(subs, Padded(subs, rs), i), |subs[i].commands|)
  {
    BeforeIs(subs, i);
    StartsInside(subs, i);
    hide Flatten, Start, Before;
  }

  lemma FlattenCommand(subs: seq<Subcommand>, n: nat)
    requires n < |Flatten(subs)|
    ensures IsCommand(subs, n, Flatten(subs)[n])
  {
    var i := Within(subs, n, |subs|);
    StartsInside(subs, i);
    BeforeIs(subs, i);
    BeforeIs(subs, i + 1);
    hide Flatten, Start, Before;
    var k := n - Before(subs, i);
    assert Flatten(subs)[Start(subs, i)..Start(subs, i + 1)][k] == Flatten(subs)[n];
  }

  lemma {:induction false} Within(subs: seq<Subcommand>, n: nat, m: nat) returns (i: nat)
    requires m <= |subs| && (n < Before(subs, m) || (m == |subs| && n < |Flatten(subs)|))
    ensures i < m && Before(subs, i) <= n < Before(subs, i + 1)
    decreases m
  {
    AllIs(subs);
    if n < Before(subs, m - 1) {
      i := Within(subs, n, m - 1);
    } else {
      i := m - 1;
    }
  }

  lemma {:induction false} FirstRejectedIs(subs: seq<Subcommand>, all: seq<string>, from: nat)
    requires from <= |subs| && |all| == |Flatten(subs)|
    ensures var r := FirstRejected(subs, all, from);
            && (r.Some? ==> from <= r.value < |subs| && !subs[r.value].accepts(Slice(subs, all, r.value)))
            && forall i :: from <= i < (if r.Some? then r.value else |subs|) ==> subs[i].accepts(Slice(subs, all, i))
    decreases |subs| - from
  {
    if from < |subs| {
      FirstRejectedIs(subs, all, from + 1);
    }
    hide Slice, Flatten;
  }

  lemma SlicesTaken(subs: seq<Subcommand>, rs: seq<string>, n: nat)
    requires n <= |subs| && |rs| <= |Flatten(subs)|
    requires forall i :: 0 <= i < n ==> subs[i].accepts(Slice(subs, Padded(subs, rs), i))
    ensures Taken(subs, rs, n, SlicesUpTo(subs, Padded(subs, rs), n))
  {
    hide Slice, Flatten, Before;
    forall k | 0 <= k < n ensures Accepts(subs, rs, k, SlicesUpTo(subs, Padded(subs, rs), n)[k]) {
      SliceIs(subs, rs, k);
    }
  }

  lemma ResultsSo(subs: seq<Subcommand>, rs: seq<string>)
    ensures ResultsSay(subs, rs, SubcommandsVerdict(subs, rs))
    ensures SubcommandsVerdict(subs, rs).None? ==>
              |rs| <= |Flatten(subs)| && Taken(subs, rs, |subs|, SlicesUpTo(subs, Padded(subs, rs), |subs|))
  {
    AllIs(subs);
    hide Before, Flatten, IsCommand, Taken, Accepts, Rejects, Slice, FirstRejected;
    if |rs| <= |Flatten(subs)| {
      if rs != [] && rs[|rs| - 1] == "-1" {
        FlattenCommand(subs, |rs| - 1);
      } else {
        FirstRejectedIs(subs, Padded(subs, rs), 0);
        var r := FirstRejected(subs, Padded(subs, rs), 0);
        var n := if r.Some? then r.value else |subs|;
        SlicesTaken(subs, rs, n);
        if r.Some? {
          RejectsSo(subs, rs, n);
        }
      }
    }
  }

  lemma RejectsSo(subs: seq<Subcommand>, rs: seq<string>, i: nat)
    requires i < |subs| && |rs| <= |Flatten(subs)| && !subs[i].accepts(Slice(subs, Padded(subs, rs), i))
    ensures Rejects(subs, rs, i, Slice(subs, Padded(subs, rs), i))
  {
    SliceIs(subs, rs, i);
    hide Slice, Flatten, Before, Padded;
  }

  /** The verdict on every text: raised or an error where the first field says so, else the first thing wrong with the
      results of the subcommands, else what the port says, and a success with the port, address and family of the
      fields, after every subcommand has accepted its own results. */
  lemma EveryAnswer(p: Params, text: string)
    ensures AreTokens(Split(Head(text)))
    ensures VerdictSays(p, Split(Head(text)), Results(text), VerdictOf(p, Some(text)))
    ensures VerdictOf(p, None) == Failure(Errored)
  {
    SplitGivesTokens(Head(text));
    ResultsSo(p.subcommands, Results(text));
    var (fields, rs) := (Split(Head(text)), Results(text));
    hide Split, Head, Results, ResultsSay, SubcommandsVerdict, ParseInt, Taken, SlicesUpTo, Padded, Flatten;
    if p.subcommands == [] {
      NothingTaken(p.subcommands, rs);
    }
    if p.subcommands != [] && SubcommandsVerdict(p.subcommands, rs).Some? {
      NoBadPort(p.subcommands, rs);
    }
  }

  lemma NothingTaken(subs: seq<Subcommand>, rs: seq<string>)
    requires subs == []
    ensures Taken(subs, rs, |subs|, [])
  {
  }

  lemma NoBadPort(subs: seq<Subcommand>, rs: seq<string>)
    requires SubcommandsVerdict(subs, rs).Some?
    ensures SubcommandsVerdict(subs, rs).value != BadPort
  {
  }

  // ----- The texts -----

  /** `&&` in front of each result. */
  function Tail(rs: seq<string>): string {
    if rs == [] then "" else "&&" + (rs[0] + Tail(rs[1..]))
  }

  /** The fields with blanks between them, and then the results. */
  function AnswerText(fields: seq<string>, rs: seq<string>): string {
    Join(fields) + Tail(rs)
  }

  predicate NoAnd(s: string) {
    forall i :: 0 <= i < |s| ==> s[i] != '&'
  }

  ghost predicate Plain(ts: seq<string>) {
    AreTokens(ts) && forall i :: 0 <= i < |ts| ==> NoAnd(ts[i])
  }

  lemma {:induction false} AndAndOf(x: string, rest: string)
    requires NoAnd(x) && (rest == "" || (|rest| >= 2 && rest[0] == '&' && rest[1] == '&'))
    ensures AndAnd(x + rest) == |x|
    decreases |x|
  {
    if x == "" {
      assert x + rest == rest;
    } else {
      assert (x + rest)[1..] == x[1..] + rest;
      AndAndOf(x[1..], rest);
      if |x + rest| < 2 {
        assert |x| == 1 && rest == "";
      }
    }
  }

  lemma {:induction false} JoinNoAnd(ts: seq<string>)
    requires Plain(ts)
    ensures NoAnd(Join(ts))
    decreases |ts|
  {
    if |ts| > 1 {
      JoinNoAnd(ts[1..]);
    }
  }

  lemma TailStarts(rs: seq<string>)
    ensures Tail(rs) == "" || (|Tail(rs)| >= 2 && Tail(rs)[0] == '&' && Tail(rs)[1] == '&')
    ensures Tail(rs) == "" <==> rs == []
  {
  }

  lemma {:induction false} PartsOf(rs: seq<string>)
    requires rs != [] && Plain(rs)
    ensures Parts(rs[0] + Tail(rs[1..])) == rs
    decreases |rs|
  {
    var s := rs[0] + Tail(rs[1..]);
    AndAndOf(rs[0], Tail(rs[1..]));
    TailStarts(rs[1..]);
    if |rs| > 1 {
      PartsOf(rs[1..]);
      assert s[|rs[0]| + 2..] == rs[1] + Tail(rs[1..][1..]);
      assert s[..|rs[0]|] == rs[0];
    } else {
      assert s == rs[0];
    }
  }

  lemma StripToken(t: string)
    requires IsToken(t)
    ensures Strip(t) == t
  {
    RightStripEnds(t);
  }

  lemma {:induction false} JoinEnds(ts: seq<string>)
    requires AreTokens(ts) && ts != []
    ensures Join(ts) != "" && !IsBlank(Join(ts)[|Join(ts)| - 1])
    decreases |ts|
  {
    if |ts| > 1 {
      JoinEnds(ts[1..]);
    }
  }

  lemma {:induction false} TailEnds(rs: seq<string>)
    requires AreTokens(rs) && rs != []
    ensures Tail(rs) != "" && !IsBlank(Tail(rs)[|Tail(rs)| - 1])
    decreases |rs|
  {
    assert Tail(rs) == "&&" + rs[0] + Tail(rs[1..]);
    if |rs| > 1 {
      TailEnds(rs[1..]);
    } else {
      assert Tail(rs[1..]) == "";
    }
  }

  lemma NothingStripped(fields: seq<string>, rs: seq<string>)
    requires AreTokens(fields) && AreTokens(rs) && fields != []
    ensures RightStrip(AnswerText(fields, rs)) == AnswerText(fields, rs)
  {
    JoinEnds(fields);
    if rs != [] {
      TailEnds(rs);
    }
    RightStripEnds(AnswerText(fields, rs));
    hide Join, Tail;
  }

  lemma {:induction false} AllStripped(rs: seq<string>)
    requires AreTokens(rs)
    ensures StripAll(rs) == rs
  {
    hide Strip;
    forall i | 0 <= i < |rs| ensures Strip(rs[i]) == rs[i] {
      StripToken(rs[i]);
    }
  }

  lemma TextCuts(fields: seq<string>, rs: seq<string>)
    requires Plain(fields) && Plain(rs) && fields != []
    ensures var r := RightStrip(AnswerText(fields, rs));
            && AndAnd(r) == |Join(fields)| && r[..AndAnd(r)] == Join(fields) && r[AndAnd(r)..] == Tail(rs)
  {
    NothingStripped(fields, rs);
    JoinNoAnd(fields);
    TailStarts(rs);
    AndAndOf(Join(fields), Tail(rs));
    hide RightStrip, Join, Tail, AndAnd;
  }

  lemma TailParts(rs: seq<string>)
    requires Plain(rs) && rs != []
    ensures |Tail(rs)| >= 2 && StripAll(Parts(Tail(rs)[2..])) == rs
  {
    PartsOf(rs);
    AllStripped(rs);
    hide Parts, StripAll;
    assert Tail(rs)[2..] == rs[0] + Tail(rs[1..]);
  }

  /** The text that has the given fields and results is read as having them. */
  lemma TextIsRead(fields: seq<string>, rs: seq<string>)
    requires Plain(fields) && Plain(rs) && fields != []
    ensures Split(Head(AnswerText(fields, rs))) == fields && Results(AnswerText(fields, rs)) == rs
  {
    hide AnswerText, RightStrip, AndAnd, Parts, StripAll, Join, Tail, Split, Plain;
    TextCuts(fields, rs);
    PlainTokens(fields);
    SplitJoin(fields);
    TailStarts(rs);
    if rs != [] {
      TailParts(rs);
      var r := RightStrip(AnswerText(fields, rs));
      assert r[AndAnd(r)..][2..] == r[AndAnd(r) + 2..];
    }
  }

  lemma PlainTokens(ts: seq<string>)
    requires Plain(ts)
    ensures AreTokens(ts)
  {
  }
}
