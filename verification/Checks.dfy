/** The rule checks of an evaluation run (`checks.ts`): verdicts, and the model call at which a counted rule was first met. */
module Checks {
  import opened Common
  import opened Turns

  datatype Tokens = Tokens(input: nat, cacheRead: nat, output: nat)

  datatype Reached = Reached(call: nat, ms: int, tokens: Tokens)

  datatype Verdict = Verdict(pass: bool, found: nat, reached: Option<Reached>)

  /** The first `n` calls; a slice past the end is the whole. */
  function UpTo(calls: seq<CallRecord>, n: nat): seq<CallRecord> {
    if n < |calls| then calls[..n] else calls
  }

  function SumTokens(calls: seq<CallRecord>): Tokens {
    if calls == [] then Tokens(0, 0, 0)
    else
      var sum, last := SumTokens(calls[..|calls| - 1]), calls[|calls| - 1].usage;
      Tokens(sum.input + last.input, sum.cacheRead + last.cacheRead, sum.output + last.output)
  }

  function SumMs(calls: seq<CallRecord>): int {
    if calls == [] then 0 else SumMs(calls[..|calls| - 1]) + calls[|calls| - 1].ms
  }

  function ReachedAt(call: nat, calls: seq<CallRecord>): Reached {
    var upTo := UpTo(calls, call);
    var ms := if upTo != [] && upTo[|upTo| - 1].at.Some? then upTo[|upTo| - 1].at.value else SumMs(upTo);
    Reached(call, ms, SumTokens(upTo))
  }

  /** Running totals: after `k` calls the tokens are `tokens[k]` and the calls' own times add up to `times[k]`. */
  predicate Totals(calls: seq<CallRecord>, tokens: seq<Tokens>, times: seq<int>) {
    && |tokens| == |times| == |calls| + 1
    && tokens[0] == Tokens(0, 0, 0) && times[0] == 0
    && forall k :: 0 <= k < |calls| ==>
         && tokens[k + 1].input == tokens[k].input + calls[k].usage.input
         && tokens[k + 1].cacheRead == tokens[k].cacheRead + calls[k].usage.cacheRead
         && tokens[k + 1].output == tokens[k].output + calls[k].usage.output
         && times[k + 1] == times[k] + calls[k].ms
  }

  /** What was spent by a call: the totals of the calls up to it, past the end of all; the time is when the last of them ended. */
  ghost predicate SpentBy(calls: seq<CallRecord>, reached: Reached) {
    var n := if reached.call < |calls| then reached.call else |calls|;
    exists tokens, times :: Totals(calls, tokens, times)
      && reached.tokens == tokens[n]
      && reached.ms == if n > 0 && calls[n - 1].at.Some? then calls[n - 1].at.value else times[n]
  }

  lemma HasTotals(calls: seq<CallRecord>) returns (tokens: seq<Tokens>, times: seq<int>)
    ensures Totals(calls, tokens, times)
    ensures forall k :: 0 <= k <= |calls| ==> tokens[k] == SumTokens(calls[..k]) && times[k] == SumMs(calls[..k])
  {
    tokens := seq(|calls| + 1, k requires 0 <= k <= |calls| => SumTokens(calls[..k]));
    times := seq(|calls| + 1, k requires 0 <= k <= |calls| => SumMs(calls[..k]));
    SumsOfOneMore(calls, 0);
    forall k | 0 <= k < |calls|
      ensures SumTokens(calls[..k + 1]) == Added(SumTokens(calls[..k]), calls[k].usage)
      ensures SumMs(calls[..k + 1]) == SumMs(calls[..k]) + calls[k].ms
    {
      SumsOfOneMore(calls, k);
    }
    hide SumTokens, SumMs;
  }

  function Added(sum: Tokens, usage: Usage): Tokens {
    Tokens(sum.input + usage.input, sum.cacheRead + usage.cacheRead, sum.output + usage.output)
  }

  lemma SumsOfOneMore(calls: seq<CallRecord>, k: nat)
    ensures SumTokens(calls[..0]) == Tokens(0, 0, 0) && SumMs(calls[..0]) == 0
    ensures k < |calls| ==> SumTokens(calls[..k + 1]) == Added(SumTokens(calls[..k]), calls[k].usage)
    ensures k < |calls| ==> SumMs(calls[..k + 1]) == SumMs(calls[..k]) + calls[k].ms
  {
    if k < |calls| {
      assert calls[..k + 1][..k] == calls[..k];
    }
  }

  /** Where a rule is reached says what was spent by then. */
  lemma {:induction false} ReachedIsSpent(calls: seq<CallRecord>, call: nat)
    ensures ReachedAt(call, calls).call == call && SpentBy(calls, ReachedAt(call, calls))
  {
    var tokens, times := HasTotals(calls);
    var n := if call < |calls| then call else |calls|;
    assert UpTo(calls, call) == calls[..n];
    hide Totals, SumTokens, SumMs;
    assert tokens[n] == SumTokens(calls[..n]);
  }

  /** The order the matches are sorted by: a match with no call counts as past every call. */
  predicate Earlier(a: Option<nat>, b: Option<nat>) {
    b.None? || (a.Some? && a.value <= b.value)
  }

  /** The verdict of a counted rule over the calls its matches were made in. */
  function Bounded(found: seq<Option<nat>>, min: Option<nat>, max: Option<nat>, calls: seq<CallRecord>): Verdict {
    var least := if min.Some? then min.value else 1;
    var pass := |found| >= least && (max.None? || |found| <= max.value);
    var sorted := Sort(found, Earlier);
    var at := if 0 < least <= |sorted| then sorted[least - 1] else None;
    Verdict(pass, |found|, if pass && at.Some? then Some(ReachedAt(at.value, calls)) else None)
  }

  function By(k: int): Option<nat> -> bool {
    (m: Option<nat>) => m.Some? && m.value <= k
  }

  /** The matches made in calls up to `k`. */
  function Met(found: seq<Option<nat>>, k: int): nat {
    Count(found, By(k))
  }

  predicate HasCall(m: Option<nat>) {
    m.Some?
  }

  function WithCall(found: seq<Option<nat>>): nat {
    Count(found, HasCall)
  }

  lemma EarlierIsOrder()
    ensures TotalOrder(Earlier)
  {
  }

  /** In a sorted list the entries up to a position are met by then, and those from it are not met before. */
  lemma MetInSorted(s: seq<Option<nat>>, i: nat, k: int)
    requires Sorted(s, Earlier) && i < |s|
    ensures s[i].Some? && s[i].value <= k ==> Met(s, k) >= i + 1
    ensures s[i].None? || k < s[i].value ==> Met(s, k) <= i
    ensures s[i].Some? ==> WithCall(s) >= i + 1
    ensures s[i].None? ==> WithCall(s) <= i
  {
    var met := By(k);
    assert s == s[..i] + [s[i]] + s[i + 1..];
    CountConcat(s[..i] + [s[i]], s[i + 1..], met);
    CountConcat(s[..i] + [s[i]], s[i + 1..], HasCall);
    CountPush(s[..i], s[i], met);
    CountPush(s[..i], s[i], HasCall);
    CountBound(s[..i], met);
    CountBound(s[..i], HasCall);
    if s[i].Some? {
      CountAll(s[..i], HasCall);
    } else {
      CountNone(s[i + 1..], HasCall);
    }
    if s[i].Some? && s[i].value <= k {
      CountAll(s[..i], met);
    } else {
      CountNone(s[i + 1..], met);
    }
  }

  lemma {:induction false} CountBound<T>(s: seq<T>, p: T -> bool)
    ensures Count(s, p) <= |s|
  {
    if s != [] {
      CountBound(s[..|s| - 1], p);
    }
  }

  /** The least call by which at least `min` matches were made. */
  ghost predicate FirstMet(found: seq<Option<nat>>, min: nat, call: nat) {
    Met(found, call) >= min && forall k: int :: k < call ==> Met(found, k) < min
  }

  /**
   A counted rule passes when its matches are within the bounds, and then says where it was met: at the least call by
   which `min` of them were made. It says nowhere just when it fails, asks for nothing, or too few matches have a call.
   */
  lemma {:induction false} BoundedReachesFirstMet(found: seq<Option<nat>>, min: Option<nat>, max: Option<nat>, calls: seq<CallRecord>)
    ensures var v := Bounded(found, min, max, calls);
            var least := if min.Some? then min.value else 1;
            && v.found == |found|
            && (v.pass <==> least <= |found| && (max.Some? ==> |found| <= max.value))
            && (v.reached.Some? <==> v.pass && 0 < least <= WithCall(found))
            && (v.reached.Some? ==> FirstMet(found, least, v.reached.value.call) && SpentBy(calls, v.reached.value))
  {
    hide Sort, WithCall, SumTokens, SumMs, UpTo, FirstMet, TotalOrder, SpentBy, ReachedAt;
    if Bounded(found, min, max, calls).reached.Some? {
      ReachedIsSpent(calls, Sort(found, Earlier)[(if min.Some? then min.value else 1) - 1].value);
    }
    EarlierIsOrder();
    SortSorts(found, Earlier);
    SortedPlace(found, if min.Some? then min.value else 1);
  }

  /** The place the rule looks at in the sorted list: it has a call just when enough matches have, and that call is the first. */
  lemma SortedPlace(found: seq<Option<nat>>, least: nat)
    ensures var sorted := Sort(found, Earlier);
            && (0 < least <= |sorted| ==> (sorted[least - 1].Some? <==> least <= WithCall(found)))
            && (0 < least <= |sorted| && sorted[least - 1].Some? ==> FirstMet(found, least, sorted[least - 1].value))
            && WithCall(found) <= |found| == |sorted|
  {
    hide Sort, FirstMet;
    var sorted := Sort(found, Earlier);
    EarlierIsOrder();
    SortSorts(found, Earlier);
    CountPermutation(sorted, found, HasCall);
    CountBound(found, HasCall);
    if 0 < least <= |sorted| {
      SortedNumbered(sorted, least);
      if sorted[least - 1].Some? {
        SortedFirstMet(found, sorted, least);
      }
    }
  }

  lemma SortedNumbered(sorted: seq<Option<nat>>, least: nat)
    requires Sorted(sorted, Earlier) && 0 < least <= |sorted|
    ensures sorted[least - 1].Some? <==> least <= WithCall(sorted)
  {
    MetInSorted(sorted, least - 1, 0);
  }

  lemma SortedFirstMet(found: seq<Option<nat>>, sorted: seq<Option<nat>>, least: nat)
    requires Sorted(sorted, Earlier) && multiset(sorted) == multiset(found)
    requires 0 < least <= |sorted| && sorted[least - 1].Some?
    ensures FirstMet(found, least, sorted[least - 1].value)
  {
    var call := sorted[least - 1].value;
    MetInSorted(sorted, least - 1, call);
    CountPermutation(sorted, found, By(call));
    assert Met(found, call) >= least;
    forall k: int | k < call ensures Met(found, k) < least {
      MetInSorted(sorted, least - 1, k);
      CountPermutation(sorted, found, By(k));
      assert Met(found, k) == Met(sorted, k);
    }
    assert FirstMet(found, least, call);
  }

  /** Where a rule was met does not depend on the order its matches are listed in, and asking for more is met no earlier. */
  lemma {:induction false} FirstMetIsUniqueAndGrows(found: seq<Option<nat>>, listed: seq<Option<nat>>, min: nat, more: nat,
                                                    call: nat, later: nat)
    requires multiset(found) == multiset(listed) && min <= more
    requires FirstMet(found, min, call) && FirstMet(listed, more, later)
    ensures call <= later && (min == more ==> call == later)
  {
    CountPermutation(found, listed, By(later));
    CountPermutation(found, listed, By(call));
    assert Met(found, later) == Met(listed, later) && Met(found, call) == Met(listed, call);
  }

  /** The tokens spent up to a call grow with it. */
  lemma {:induction false} TokensGrow(calls: seq<CallRecord>, k: nat, l: nat)
    requires k <= l
    ensures var a, b := ReachedAt(k, calls).tokens, ReachedAt(l, calls).tokens;
            a.input <= b.input && a.cacheRead <= b.cacheRead && a.output <= b.output
    decreases l
  {
    if k < l {
      TokensGrow(calls, k, l - 1);
      if l <= |calls| {
        assert UpTo(calls, l)[..l - 1] == UpTo(calls, l - 1);
      }
    }
  }

  // The tools of a replayed log.

  /** Each number of a call is that of one of the answers outside memos. */
  lemma {:induction false} EveryNumberIsAnswered(answers: seq<Answer>, number: nat) returns (i: nat)
    requires 1 <= number <= Count(answers, Counted)
    ensures i < |answers| && Counted(answers[i]) && NumberOf(answers, i) == number
  {
    var n := |answers| - 1;
    if Counted(answers[n]) && number == Count(answers, Counted) {
      i := n;
    } else {
      i := EveryNumberIsAnswered(answers[..n], number);
      assert answers[..n][..i] == answers[..i];
    }
  }

  /** The calls up to a number end with the answer that has the number. */
  ghost predicate EndsWith(upTo: seq<CallRecord>, answers: seq<Answer>, i: nat, times: seq<int>, ends: seq<int>) {
    && i < |answers| && answers[i].message.Assistant? && upTo != []
    && IsCall(upTo[|upTo| - 1], answers[i].message, i, times, ends)
  }

  /** Every tool is of an answer: the calls up to its number are that many, end with the answer, and the tool is one of its own. */
  lemma {:induction false} ToolReachesItsCall(calls: seq<CallRecord>, tools: seq<ToolRecord>, answers: seq<Answer>,
                                              results: map<string, Outcome>, times: seq<int>, ends: seq<int>, j: nat) returns (i: nat)
    requires Replays(calls, tools, answers, results, times, ends) && j < |tools|
    ensures i < |answers| && Counted(answers[i]) && tools[j].call == NumberOf(answers, i)
    ensures var upTo := UpTo(calls, tools[j].call);
            && |upTo| == tools[j].call && upTo <= calls && EndsWith(upTo, answers, i, times, ends)
            && tools[j] in ToolsIn(answers[i].message.parts, tools[j].call, results)
  {
    i := EveryNumberIsAnswered(answers, tools[j].call);
    assert Placed(calls, tools, answers, i, results, times, ends);
    NumberedHas(tools, j);
  }

  lemma {:induction false} NumberedHas(tools: seq<ToolRecord>, j: nat)
    requires j < |tools|
    ensures tools[j] in Numbered(tools, tools[j].call)
  {
    if j < |tools| - 1 {
      NumberedHas(tools[..|tools| - 1], j);
    }
  }

  /** The calls in which the tools that a rule matches were made. */
  function Found(tools: seq<ToolRecord>, matches: ToolRecord -> bool): seq<Option<nat>> {
    if tools == [] then []
    else
      var last := tools[|tools| - 1];
      Found(tools[..|tools| - 1], matches) + if matches(last) then [Some(last.call)] else []
  }

  function MatchedBy(matches: ToolRecord -> bool, k: int): ToolRecord -> bool {
    (tool: ToolRecord) => matches(tool) && tool.call <= k
  }

  lemma {:induction false} FoundCounts(tools: seq<ToolRecord>, matches: ToolRecord -> bool, k: int)
    ensures Met(Found(tools, matches), k) == Count(tools, MatchedBy(matches, k))
    ensures |Found(tools, matches)| == Count(tools, matches) == WithCall(Found(tools, matches))
  {
    if tools != [] {
      var n := |tools| - 1;
      FoundCounts(tools[..n], matches, k);
      var before := Found(tools[..n], matches);
      if matches(tools[n]) {
        CountPush(before, Some(tools[n].call), By(k));
        CountPush(before, Some(tools[n].call), HasCall);
      } else {
        assert Found(tools, matches) == before;
      }
    }
  }

  /** The least number by which `min` of the tools that a rule matches were made. */
  ghost predicate FirstMatched(tools: seq<ToolRecord>, matches: ToolRecord -> bool, min: nat, call: nat) {
    && Count(tools, MatchedBy(matches, call)) >= min
    && forall k: int :: k < call ==> Count(tools, MatchedBy(matches, k)) < min
  }

  /** At the least number a matching tool was made. */
  lemma FirstMatchedIsMade(tools: seq<ToolRecord>, matches: ToolRecord -> bool, min: nat, call: nat) returns (j: nat)
    requires FirstMatched(tools, matches, min, call) && min > 0
    ensures j < |tools| && matches(tools[j]) && tools[j].call == call
  {
    var here := (tool: ToolRecord) => matches(tool) && tool.call == call;
    assert Count(tools, MatchedBy(matches, call - 1)) < min;
    CountSplits(tools, MatchedBy(matches, call), MatchedBy(matches, call - 1), here);
    j := Witness(tools, here);
  }

  lemma {:induction false} Witness<T>(s: seq<T>, p: T -> bool) returns (i: nat)
    requires Count(s, p) > 0
    ensures i < |s| && p(s[i])
  {
    if p(s[|s| - 1]) {
      i := |s| - 1;
    } else {
      i := Witness(s[..|s| - 1], p);
    }
  }

  /**
   A counted rule over the tools of a replayed log. It passes when as many tools match as its bounds allow; when it passes
   and asks for any, it was reached at the least call by which that many matching tools were made, one of them in that very
   call, and it says what the calls up to it spent, itself included.
   */
  lemma {:induction false} RuleOverReplay(calls: seq<CallRecord>, tools: seq<ToolRecord>, answers: seq<Answer>,
                                          results: map<string, Outcome>, times: seq<int>, ends: seq<int>,
                                          matches: ToolRecord -> bool, min: Option<nat>, max: Option<nat>)
    requires Replays(calls, tools, answers, results, times, ends)
    ensures var v := Bounded(Found(tools, matches), min, max, calls);
            var least, made := if min.Some? then min.value else 1, Count(tools, matches);
            && v.found == made
            && (v.pass <==> least <= made && (max.Some? ==> made <= max.value))
            && (v.reached.Some? <==> v.pass && least > 0)
            && (v.reached.Some? ==>
                  && FirstMatched(tools, matches, least, v.reached.value.call)
                  && SpentBy(calls, v.reached.value)
                  && exists i: nat, j: nat :: j < |tools| && matches(tools[j]) && tools[j].call == v.reached.value.call
                       && EndsWith(UpTo(calls, tools[j].call), answers, i, times, ends)
                       && tools[j] in ToolsIn(answers[i].message.parts, tools[j].call, results))
  {
    var found := Found(tools, matches);
    var v, least := Bounded(found, min, max, calls), if min.Some? then min.value else 1;
    BoundedReachesFirstMet(found, min, max, calls);
    FoundCounts(tools, matches, 0);
    hide Bounded, Replays, Found, SumTokens, SumMs, UpTo, Sort, SpentBy;
    if v.reached.Some? {
      var call := v.reached.value.call;
      FirstMetIsFirstMatched(tools, matches, least, call);
      var j := FirstMatchedIsMade(tools, matches, least, call);
      var i := ToolReachesItsCall(calls, tools, answers, results, times, ends, j);
    }
  }

  lemma FirstMetIsFirstMatched(tools: seq<ToolRecord>, matches: ToolRecord -> bool, min: nat, call: nat)
    requires FirstMet(Found(tools, matches), min, call)
    ensures FirstMatched(tools, matches, min, call)
  {
    FoundCounts(tools, matches, call);
    forall k: int | k < call ensures Count(tools, MatchedBy(matches, k)) < min {
      FoundCounts(tools, matches, k);
    }
  }

  /**
   A reply shown in an answer reaches the calls up to that answer's own, and so its tokens and time, just when no memo was
   answered before it or its call is the last.
   */
  lemma {:induction false} ReplyReachesItsCallIff(messages: seq<Message>, m: nat, calls: seq<CallRecord>, tools: seq<ToolRecord>,
                                                  results: map<string, Outcome>, times: seq<int>, ends: seq<int>)
    requires Replays(calls, tools, Answers(messages), results, times, ends)
    requires m <= |messages| && Answers(messages[..m]) != []
    requires Counted(Answers(messages[..m])[|Answers(messages[..m])| - 1])
    ensures var answers, i := Answers(messages), |Answers(messages[..m])| - 1;
            && i < |answers| && EndsWith(UpTo(calls, NumberOf(answers, i)), answers, i, times, ends)
            && (UpTo(calls, ReplyNumber(messages[..m])) == UpTo(calls, NumberOf(answers, i)) <==>
                  (forall a <- answers[..i] :: !a.memo) || NumberOf(answers, i) == |calls|)
  {
    var answers, i := Answers(messages), |Answers(messages[..m])| - 1;
    AnswersOfPrefix(messages, m);
    ReplyNumberIsRightIff(messages, m);
    assert answers[i] == Answers(messages[..m])[i];
    assert Placed(calls, tools, answers, i, results, times, ends);
    var own, number := NumberOf(answers, i), ReplyNumber(messages[..m]);
    hide Replays, Placed, Answers, NumberOf, ReplyNumber;
    assert UpTo(calls, own) == calls[..own];
    assert number < |calls| ==> UpTo(calls, number) == calls[..number];
  }
}
