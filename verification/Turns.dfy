/** The replay of a session's message log into the numbered calls and tools of a run (`readTurns` in `run.ts`). */
module Turns {
  import opened Common

  datatype Part =
    | Thinking(chars: nat)
    | Text(text: string)
    | ToolCall(id: string, name: string, args: string)

  datatype Usage = Usage(input: nat, cacheRead: nat, output: nat)

  /** A message of the session. `memo` says a user message is a memo request; `events` are the event lines it carries. */
  datatype Message =
    | User(text: string, memo: bool, events: seq<string>)
    | Assistant(parts: seq<Part>, usage: Usage, stop: string)
    | ToolResult(id: string, text: string, isError: bool)

  datatype CallRecord = CallRecord(ms: int, at: Option<int>, stop: string, usage: Usage, thinking: nat, text: string)

  datatype ToolRecord = ToolRecord(call: nat, name: string, args: string, result: string, isError: bool)

  datatype Outcome = Outcome(text: string, isError: bool)

  datatype Record = Record(prompt: string, events: seq<string>, calls: seq<CallRecord>, tools: seq<ToolRecord>)

  // What the loops compute, by recursion on the last message.

  /** The results of the tool calls by id; a later result of the same id replaces an earlier one. */
  function Results(messages: seq<Message>): map<string, Outcome> {
    if messages == [] then map[]
    else
      var before, last := Results(messages[..|messages| - 1]), messages[|messages| - 1];
      if last.ToolResult? then before[last.id := Outcome(last.text, last.isError)] else before
  }

  /** Whether the turn has come to its memo: the last user message was the request for it. */
  predicate InMemo(messages: seq<Message>) {
    messages != [] &&
    var last := messages[|messages| - 1];
    if last.User? then last.memo else InMemo(messages[..|messages| - 1])
  }

  /** An assistant message, and whether it is a memo's. */
  datatype Answer = Answer(message: Message, memo: bool)

  function Answers(messages: seq<Message>): (answers: seq<Answer>)
    ensures forall a <- answers :: a.message.Assistant?
  {
    if messages == [] then []
    else
      var before, last := messages[..|messages| - 1], messages[|messages| - 1];
      Answers(before) + if last.Assistant? then [Answer(last, InMemo(before))] else []
  }

  predicate Counted(a: Answer) {
    !a.memo
  }

  function Chars(parts: seq<Part>): nat {
    if parts == [] then 0
    else Chars(parts[..|parts| - 1]) + if parts[|parts| - 1].Thinking? then parts[|parts| - 1].chars else 0
  }

  function TextOf(parts: seq<Part>): string {
    if parts == [] then ""
    else TextOf(parts[..|parts| - 1]) + if parts[|parts| - 1].Text? then parts[|parts| - 1].text else ""
  }

  function ToolOf(call: Part, number: nat, results: map<string, Outcome>): ToolRecord
    requires call.ToolCall?
  {
    if call.id in results then ToolRecord(number, call.name, call.args, results[call.id].text, results[call.id].isError)
    else ToolRecord(number, call.name, call.args, "", false)
  }

  function ToolsIn(parts: seq<Part>, number: nat, results: map<string, Outcome>): seq<ToolRecord> {
    if parts == [] then []
    else
      var last := parts[|parts| - 1];
      ToolsIn(parts[..|parts| - 1], number, results) + if last.ToolCall? then [ToolOf(last, number, results)] else []
  }

  function CallOf(a: Answer, ms: int, at: Option<int>): CallRecord
    requires a.message.Assistant?
  {
    CallRecord(ms, at, a.message.stop, a.message.usage, Chars(a.message.parts), TextOf(a.message.parts))
  }

  /** The i-th time, 0 without one; the i-th end, absent without one. */
  function TimeAt(times: seq<int>, i: nat): int {
    if i < |times| then times[i] else 0
  }

  function EndAt(ends: seq<int>, i: nat): Option<int> {
    if i < |ends| then Some(ends[i]) else None
  }

  method ReadResults(messages: seq<Message>) returns (results: map<string, Outcome>)
    ensures results == Results(messages)
  {
    results := map[];
    for i := 0 to |messages|
      invariant results == Results(messages[..i])
    {
      assert messages[..i + 1][..i] == messages[..i];
      if messages[i].ToolResult? {
        results := results[messages[i].id := Outcome(messages[i].text, messages[i].isError)];
      }
    }
    assert messages[..|messages|] == messages;
  }

  method ReadParts(parts: seq<Part>, number: nat, results: map<string, Outcome>)
    returns (thinking: nat, text: string, tools: seq<ToolRecord>)
    ensures thinking == Chars(parts) && text == TextOf(parts) && tools == ToolsIn(parts, number, results)
  {
    thinking, text, tools := 0, "", [];
    for j := 0 to |parts|
      invariant thinking == Chars(parts[..j]) && text == TextOf(parts[..j]) && tools == ToolsIn(parts[..j], number, results)
    {
      assert parts[..j + 1][..j] == parts[..j];
      var part := parts[j];
      if part.Thinking? {
        thinking := thinking + part.chars;
      }
      if part.Text? {
        text := text + part.text;
      }
      if part.ToolCall? {
        tools := tools + [ToolOf(part, number, results)];
      }
    }
    assert parts[..|parts|] == parts;
  }

  /**
   The turns of a session. Every assistant message uses up one time, the memos' too; only those outside a memo become
   calls, and their tool calls carry the call's number.
   */
  method ReadTurns(messages: seq<Message>, times: seq<int>, ends: seq<int>) returns (record: Record)
    ensures Replays(record.calls, record.tools, Answers(messages), Results(messages), times, ends)
    ensures record.prompt == FirstPrompt(messages) && record.events == EventsOf(messages)
  {
    hide Replays;
    var results := ReadResults(messages);
    var calls: seq<CallRecord>, tools: seq<ToolRecord>, events: seq<string> := [], [], [];
    var prompt: Option<string> := None;
    var inMemo, answered := false, 0;
    EmptyReplays(results, times, ends);
    for i := 0 to |messages|
      invariant inMemo == InMemo(messages[..i])
      invariant answered == |Answers(messages[..i])|
      invariant Replays(calls, tools, Answers(messages[..i]), results, times, ends)
      invariant events == EventsOf(messages[..i]) && prompt == Prompt(messages[..i])
    {
      assert messages[..i + 1][..i] == messages[..i];
      var message := messages[i];
      if !message.Assistant? {
        assert Answers(messages[..i + 1]) == Answers(messages[..i]);
        if message.User? {
          inMemo := message.memo;
          if !inMemo {
            prompt := if prompt.None? then Some(message.text) else prompt;
            events := events + message.events;
          }
        }
        continue;
      }
      var time, end := TimeAt(times, answered), EndAt(ends, answered);
      answered := answered + 1;
      ghost var before, answer := Answers(messages[..i]), Answer(message, inMemo);
      assert Answers(messages[..i + 1]) == before + [answer];
      if inMemo {
        MemoReplays(calls, tools, before, answer, results, times, ends);
        continue;
      }
      var number := |calls| + 1;
      AnswerReplays(calls, tools, before, answer, results, times, ends);
      var thinking, text, own := ReadParts(message.parts, number, results);
      tools := tools + own;
      calls := calls + [CallRecord(time, end, message.stop, message.usage, thinking, text)];
    }
    assert messages[..|messages|] == messages;
    record := Record(if prompt.Some? then prompt.value else "", events, calls, tools);
  }

  /** The first user message that asks for no memo. */
  function Prompt(messages: seq<Message>): Option<string> {
    if messages == [] then None
    else
      var before, last := Prompt(messages[..|messages| - 1]), messages[|messages| - 1];
      if before.None? && last.User? && !last.memo then Some(last.text) else before
  }

  function FirstPrompt(messages: seq<Message>): string {
    if Prompt(messages).Some? then Prompt(messages).value else ""
  }

  function EventsOf(messages: seq<Message>): seq<string> {
    if messages == [] then []
    else
      var last := messages[|messages| - 1];
      EventsOf(messages[..|messages| - 1]) + if last.User? && !last.memo then last.events else []
  }

  /** The number the answer at `i` has among the calls. */
  function NumberOf(answers: seq<Answer>, i: nat): nat
    requires i <= |answers|
  {
    Count(answers[..i], Counted) + 1
  }

  /** The tool calls that carry a number. */
  function Numbered(tools: seq<ToolRecord>, number: nat): seq<ToolRecord> {
    if tools == [] then []
    else Numbered(tools[..|tools| - 1], number) + if tools[|tools| - 1].call == number then [tools[|tools| - 1]] else []
  }

  /** The call is the message's, with the times of the place `i`: how long it took, 0 without one, and when it ended, if known. */
  predicate IsCall(call: CallRecord, message: Message, i: nat, times: seq<int>, ends: seq<int>)
    requires message.Assistant?
  {
    && (i < |times| ==> call.ms == times[i]) && (i >= |times| ==> call.ms == 0)
    && (i < |ends| ==> call.at == Some(ends[i])) && (i >= |ends| ==> call.at == None)
    && call.stop == message.stop && call.usage == message.usage
    && call.thinking == Chars(message.parts) && call.text == TextOf(message.parts)
  }

  /** The answer at `i` is the call of its number, with the time of its own place; the tools of that number are its own. */
  predicate Placed(calls: seq<CallRecord>, tools: seq<ToolRecord>, answers: seq<Answer>, i: nat, results: map<string, Outcome>,
                   times: seq<int>, ends: seq<int>)
    requires i < |answers| && answers[i].message.Assistant?
  {
    var number := NumberOf(answers, i);
    && number <= |calls|
    && IsCall(calls[number - 1], answers[i].message, i, times, ends)
    && Numbered(tools, number) == ToolsIn(answers[i].message.parts, number, results)
  }

  /**
   What calls and tools must be of a log's answers. The answers outside memos are the calls, in order, each with the time
   of its own place among all answers; the tools of a call are its own tool calls, once each and in order; and the numbers
   never fall and name a call.
   */
  ghost predicate Replays(calls: seq<CallRecord>, tools: seq<ToolRecord>, answers: seq<Answer>, results: map<string, Outcome>,
                          times: seq<int>, ends: seq<int>)
  {
    && (forall i :: 0 <= i < |answers| ==> answers[i].message.Assistant?)
    && |calls| == Count(answers, Counted)
    && (forall i :: 0 <= i < |answers| && Counted(answers[i]) ==> Placed(calls, tools, answers, i, results, times, ends))
    && NumbersRise(tools, |calls|)
  }

  predicate NumbersRise(tools: seq<ToolRecord>, most: nat) {
    && (forall j :: 0 <= j < |tools| ==> 1 <= tools[j].call <= most)
    && (forall j, k :: 0 <= j < k < |tools| ==> tools[j].call <= tools[k].call)
  }

  lemma EmptyReplays(results: map<string, Outcome>, times: seq<int>, ends: seq<int>)
    ensures Replays([], [], [], results, times, ends)
  {
  }

  lemma NumberBefore(answers: seq<Answer>, answer: Answer, i: nat)
    requires i <= |answers|
    ensures (answers + [answer])[..i] == answers[..i] && NumberOf(answers + [answer], i) == NumberOf(answers, i)
  {
  }

  lemma StaysPlaced(calls: seq<CallRecord>, tools: seq<ToolRecord>, answers: seq<Answer>, i: nat, results: map<string, Outcome>,
                    times: seq<int>, ends: seq<int>, answer: Answer, moreCalls: seq<CallRecord>, moreTools: seq<ToolRecord>)
    requires i < |answers| && answers[i].message.Assistant? && Placed(calls, tools, answers, i, results, times, ends)
    requires forall t <- moreTools :: t.call == |calls| + 1
    ensures Placed(calls + moreCalls, tools + moreTools, answers + [answer], i, results, times, ends)
  {
    var number := NumberOf(answers, i);
    NumberBefore(answers, answer, i);
    NumberedConcat(tools, moreTools, number);
    NumberedOther(moreTools, number);
  }

  lemma NewIsPlaced(calls: seq<CallRecord>, tools: seq<ToolRecord>, answers: seq<Answer>, results: map<string, Outcome>,
                    times: seq<int>, ends: seq<int>, answer: Answer)
    requires |calls| == Count(answers, Counted) && NumbersRise(tools, |calls|) && answer.message.Assistant?
    ensures var n := |answers|;
            Placed(calls + [CallOf(answer, TimeAt(times, n), EndAt(ends, n))],
                   tools + ToolsIn(answer.message.parts, |calls| + 1, results), answers + [answer], n, results, times, ends)
  {
    var number := |calls| + 1;
    var own := ToolsIn(answer.message.parts, number, results);
    NumberBefore(answers, answer, |answers|);
    assert answers[..|answers|] == answers;
    OwnNumbers(answer.message.parts, number, results);
    NumberedConcat(tools, own, number);
    NumberedOther(tools, number);
    NumberedAll(own, number);
  }

  lemma MemoReplays(calls: seq<CallRecord>, tools: seq<ToolRecord>, answers: seq<Answer>, memo: Answer,
                    results: map<string, Outcome>, times: seq<int>, ends: seq<int>)
    requires Replays(calls, tools, answers, results, times, ends) && memo.memo && memo.message.Assistant?
    ensures Replays(calls, tools, answers + [memo], results, times, ends)
  {
    hide Placed;
    CountPush(answers, memo, Counted);
    assert calls + [] == calls && tools + [] == tools;
    forall i | 0 <= i < |answers| && Counted(answers[i]) ensures Placed(calls, tools, answers + [memo], i, results, times, ends) {
      StaysPlaced(calls, tools, answers, i, results, times, ends, memo, [], []);
    }
  }

  lemma AnswerReplays(calls: seq<CallRecord>, tools: seq<ToolRecord>, answers: seq<Answer>, answer: Answer,
                      results: map<string, Outcome>, times: seq<int>, ends: seq<int>)
    requires Replays(calls, tools, answers, results, times, ends) && !answer.memo && answer.message.Assistant?
    ensures var n := |answers|;
            Replays(calls + [CallOf(answer, TimeAt(times, n), EndAt(ends, n))],
                    tools + ToolsIn(answer.message.parts, |calls| + 1, results), answers + [answer], results, times, ends)
  {
    hide Placed;
    var n, own := |answers|, ToolsIn(answer.message.parts, |calls| + 1, results);
    var call := CallOf(answer, TimeAt(times, n), EndAt(ends, n));
    CountPush(answers, answer, Counted);
    OwnNumbers(answer.message.parts, |calls| + 1, results);
    NewIsPlaced(calls, tools, answers, results, times, ends, answer);
    forall i | 0 <= i < n && Counted(answers[i])
      ensures Placed(calls + [call], tools + own, answers + [answer], i, results, times, ends)
    {
      StaysPlaced(calls, tools, answers, i, results, times, ends, answer, [call], own);
    }
  }

  lemma {:induction false} OwnNumbers(parts: seq<Part>, number: nat, results: map<string, Outcome>)
    ensures forall t <- ToolsIn(parts, number, results) :: t.call == number
  {
    if parts != [] {
      OwnNumbers(parts[..|parts| - 1], number, results);
    }
  }

  lemma {:induction false} NumberedConcat(a: seq<ToolRecord>, b: seq<ToolRecord>, number: nat)
    ensures Numbered(a + b, number) == Numbered(a, number) + Numbered(b, number)
  {
    if b == [] {
      assert a + b == a;
    } else {
      assert (a + b)[..|a + b| - 1] == a + b[..|b| - 1];
      NumberedConcat(a, b[..|b| - 1], number);
    }
  }

  lemma {:induction false} NumberedAll(tools: seq<ToolRecord>, number: nat)
    requires forall t <- tools :: t.call == number
    ensures Numbered(tools, number) == tools
  {
    if tools != [] {
      NumberedAll(tools[..|tools| - 1], number);
      assert tools == tools[..|tools| - 1] + [tools[|tools| - 1]];
    }
  }

  lemma {:induction false} NumberedOther(tools: seq<ToolRecord>, number: nat)
    requires forall t <- tools :: t.call != number
    ensures Numbered(tools, number) == []
  {
    if tools != [] {
      NumberedOther(tools[..|tools| - 1], number);
    }
  }

  /** The number a reply is given when a tool of the last call shows it: the answers timed so far, memos included. */
  function ReplyNumber(before: seq<Message>): nat {
    |Answers(before)|
  }

  lemma {:induction false} AnswersOfPrefix(messages: seq<Message>, m: nat)
    requires m <= |messages|
    ensures Answers(messages[..m]) <= Answers(messages)
  {
    if m < |messages| {
      AnswersOfPrefix(messages[..|messages| - 1], m);
      assert messages[..|messages| - 1][..m] == messages[..m];
    } else {
      assert messages[..m] == messages;
    }
  }

  /**
   A reply is shown by a tool of the answer that ended last, at `i` among all of the log's. It carries that answer's number
   among the calls just when no memo was answered before; else it carries a later one.
   */
  lemma {:induction false} ReplyNumberIsRightIff(messages: seq<Message>, m: nat)
    requires m <= |messages| && Answers(messages[..m]) != []
    ensures var answers, i := Answers(messages), |Answers(messages[..m])| - 1;
            && i < |answers| && NumberOf(answers, i) <= ReplyNumber(messages[..m])
            && (ReplyNumber(messages[..m]) == NumberOf(answers, i) <==> forall a <- answers[..i] :: !a.memo)
  {
    AnswersOfPrefix(messages, m);
    CountsAllIff(Answers(messages)[..|Answers(messages[..m])| - 1]);
  }

  /** The log of a run with one memo: the event and its answer, the memo asked for and written, then another event and its answer. */
  function MemoLog(usage: Usage): seq<Message> {
    var event, memo, answer := User("", false, []), User("", true, []), Assistant([], usage, "");
    [event, answer, memo, answer, event, answer]
  }

  /** In such a run the last reply is shown by the second call, and there are no more; it is numbered 3. */
  lemma {:induction false} MemoShiftsReplyNumber(usage: Usage)
    ensures var answers := Answers(MemoLog(usage));
            ReplyNumber(MemoLog(usage)) == 3 && Count(answers, Counted) == 2 == NumberOf(answers, 2)
  {
    var event, memo, answer := User("", false, []), User("", true, []), Assistant([], usage, "");
    hide Answers, InMemo, Count, NumberOf;
    AnswersPush([], event);
    AnswersPush([event], answer);
    assert [] + [event] == [event] && [event] + [answer] == [event, answer];
    AnswersPush([event, answer], memo);
    AnswersPush([event, answer, memo], answer);
    assert [event, answer] + [memo] == [event, answer, memo] && [event, answer, memo] + [answer] == [event, answer, memo, answer];
    AnswersPush([event, answer, memo, answer], event);
    AnswersPush([event, answer, memo, answer, event], answer);
    assert [event, answer, memo, answer] + [event] == [event, answer, memo, answer, event];
    assert [event, answer, memo, answer, event] + [answer] == MemoLog(usage);
    assert Answers(MemoLog(usage)) == [Answer(answer, false), Answer(answer, true), Answer(answer, false)];
    ThreeAnswers(Answer(answer, false), Answer(answer, true), Answer(answer, false));
  }

  lemma ThreeAnswers(first: Answer, memo: Answer, last: Answer)
    requires !first.memo && memo.memo && !last.memo
    ensures Count([first, memo, last], Counted) == 2 == NumberOf([first, memo, last], 2)
  {
    assert [] + [first] == [first] && [first] + [memo] == [first, memo] && [first, memo] + [last] == [first, memo, last];
    assert [first, memo, last][..2] == [first, memo];
    CountPush([], first, Counted);
    CountPush([first], memo, Counted);
    CountPush([first, memo], last, Counted);
  }

  lemma AnswersPush(messages: seq<Message>, message: Message)
    ensures Answers(messages + [message]) ==
            Answers(messages) + if message.Assistant? then [Answer(message, InMemo(messages))] else []
    ensures InMemo(messages + [message]) == if message.User? then message.memo else InMemo(messages)
    ensures Answers([]) == [] && !InMemo([])
  {
    assert (messages + [message])[..|messages|] == messages;
  }

  lemma {:induction false} CountsAllIff(answers: seq<Answer>)
    ensures Count(answers, Counted) == |answers| <==> forall a <- answers :: !a.memo
    ensures Count(answers, Counted) <= |answers|
  {
    if answers != [] {
      CountsAllIff(answers[..|answers| - 1]);
      assert answers == answers[..|answers| - 1] + [answers[|answers| - 1]];
    }
  }

  /** What is gathered of a message's parts: thinking adds up, texts follow one another, nothing else counts. */
  lemma {:induction false} PartsAreGathered(a: seq<Part>, b: seq<Part>, part: Part)
    ensures Chars(a + b) == Chars(a) + Chars(b) && TextOf(a + b) == TextOf(a) + TextOf(b)
    ensures Chars([part]) == (if part.Thinking? then part.chars else 0) && TextOf([part]) == if part.Text? then part.text else ""
    ensures Chars([]) == 0 && TextOf([]) == ""
  {
    PartsPush([], part);
    assert [] + [part] == [part];
    hide *;
    if b == [] {
      NothingMore(a);
      NothingMore(TextOf(a));
    } else {
      var n := |b| - 1;
      PartsAreGathered(a, b[..n], part);
      PartsPush(b[..n], b[n]);
      PartsPush(a + b[..n], b[n]);
      LastOfConcat(a, b);
      Regrouped(TextOf(a), TextOf(b[..n]), if b[n].Text? then b[n].text else "");
    }
  }

  lemma NothingMore<T>(a: seq<T>)
    ensures a + [] == a
  {
  }

  lemma Regrouped<T>(a: seq<T>, b: seq<T>, c: seq<T>)
    ensures a + b + c == a + (b + c)
  {
  }

  lemma LastOfConcat<T>(a: seq<T>, b: seq<T>)
    requires b != []
    ensures b == b[..|b| - 1] + [b[|b| - 1]] && a + b == a + b[..|b| - 1] + [b[|b| - 1]]
  {
  }

  lemma PartsPush(parts: seq<Part>, part: Part)
    ensures Chars(parts + [part]) == Chars(parts) + if part.Thinking? then part.chars else 0
    ensures TextOf(parts + [part]) == TextOf(parts) + if part.Text? then part.text else ""
    ensures Chars([]) == 0 && TextOf([]) == ""
  {
    assert (parts + [part])[..|parts|] == parts;
  }

  /** A turn is in its memo just when the last user message before asked for it. */
  lemma {:induction false} MemoIsAskedFor(messages: seq<Message>, last: nat)
    requires last <= |messages| && (forall l :: last <= l < |messages| ==> !messages[l].User?)
    requires last > 0 ==> messages[last - 1].User?
    ensures InMemo(messages) <==> last > 0 && messages[last - 1].memo
  {
    if last < |messages| {
      MemoIsAskedFor(messages[..|messages| - 1], last);
    }
  }

  predicate IsAnswer(message: Message) {
    message.Assistant?
  }

  /** The answers are the assistant messages in order, each with whether it was made in a memo. */
  lemma {:induction false} AnswersAreMessages(messages: seq<Message>, l: nat)
    requires l < |messages| && messages[l].Assistant?
    ensures |Answers(messages)| == Count(messages, IsAnswer)
    ensures var j := Count(messages[..l], IsAnswer);
            j < |Answers(messages)| && Answers(messages)[j] == Answer(messages[l], InMemo(messages[..l]))
  {
    var n := |messages| - 1;
    AnswersAreCounted(messages);
    AnswersAreCounted(messages[..n]);
    if l < n {
      AnswersAreMessages(messages[..n], l);
      assert messages[..n][..l] == messages[..l];
    }
  }

  lemma {:induction false} AnswersAreCounted(messages: seq<Message>)
    ensures |Answers(messages)| == Count(messages, IsAnswer)
  {
    if messages != [] {
      AnswersAreCounted(messages[..|messages| - 1]);
    }
  }

  /** The prompt is the first user message that asks for no memo; the events are those of all such messages, in order. */
  lemma {:induction false} PromptIsFirst(messages: seq<Message>, first: nat)
    requires first <= |messages| && (forall l :: 0 <= l < first ==> !(messages[l].User? && !messages[l].memo))
    requires first < |messages| ==> messages[first].User? && !messages[first].memo
    ensures FirstPrompt(messages) == if first < |messages| then messages[first].text else ""
    ensures Prompt(messages).Some? <==> first < |messages|
  {
    if messages != [] {
      var n := |messages| - 1;
      PromptIsFirst(messages[..n], if first < n then first else n);
    }
  }

  lemma {:induction false} EventsFollow(a: seq<Message>, b: seq<Message>, message: Message)
    ensures EventsOf(a + b) == EventsOf(a) + EventsOf(b)
    ensures EventsOf([message]) == if message.User? && !message.memo then message.events else []
  {
    EventsPush([], message);
    assert [] + [message] == [message];
    hide *;
    if b == [] {
      NothingMore(a);
      NothingMore(EventsOf(a));
    } else {
      var n := |b| - 1;
      EventsFollow(a, b[..n], message);
      EventsPush(b[..n], b[n]);
      EventsPush(a + b[..n], b[n]);
      LastOfConcat(a, b);
      Regrouped(EventsOf(a), EventsOf(b[..n]), if b[n].User? && !b[n].memo then b[n].events else []);
    }
  }

  lemma EventsPush(messages: seq<Message>, message: Message)
    ensures EventsOf(messages + [message]) == EventsOf(messages) + if message.User? && !message.memo then message.events else []
    ensures EventsOf([]) == []
  {
    assert (messages + [message])[..|messages|] == messages;
  }

  predicate IsResultOf(message: Message, id: string) {
    message.ToolResult? && message.id == id
  }

  /** The result kept of a tool call is that of the last message with its id; without one there is none. */
  lemma {:induction false} LastResultWins(messages: seq<Message>, id: string, last: nat)
    requires last <= |messages| && (forall l :: last <= l < |messages| ==> !IsResultOf(messages[l], id))
    requires last > 0 ==> IsResultOf(messages[last - 1], id)
    ensures id in Results(messages) <==> last > 0
    ensures last > 0 ==> Results(messages)[id] == Outcome(messages[last - 1].text, messages[last - 1].isError)
  {
    if last < |messages| {
      LastResultWins(messages[..|messages| - 1], id, last);
    }
  }

  predicate IsToolCall(part: Part) {
    part.ToolCall?
  }

  /** The result a tool call's record shows: the one kept of its id, or an empty one. */
  predicate Records(tool: ToolRecord, part: Part, number: nat, results: map<string, Outcome>)
    requires part.ToolCall?
  {
    && tool.call == number && tool.name == part.name && tool.args == part.args
    && (part.id in results ==> tool.result == results[part.id].text && tool.isError == results[part.id].isError)
    && (part.id !in results ==> tool.result == "" && !tool.isError)
  }

  /** Every tool call of a message has one record, in its order among the message's tool calls; and there are no others. */
  lemma {:induction false} EveryToolCallOnce(parts: seq<Part>, number: nat, results: map<string, Outcome>)
    ensures var tools := ToolsIn(parts, number, results);
            && |tools| == Count(parts, IsToolCall)
            && forall i :: 0 <= i < |parts| && parts[i].ToolCall? ==>
                 var j := Count(parts[..i], IsToolCall);
                 j < |tools| && Records(tools[j], parts[i], number, results)
  {
    if parts != [] {
      var n := |parts| - 1;
      EveryToolCallOnce(parts[..n], number, results);
      forall i | 0 <= i < n ensures parts[..n][..i] == parts[..i] {
      }
    }
  }
}
