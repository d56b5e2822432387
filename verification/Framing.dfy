/** Lines cut from a socket's chunks, and the asks and answers matched over them (`isolation.ts`). */
module Framing {
  import opened Common

  /** The lines a text holds, each ended by a newline, and what follows the last of them. */
  function Lines(s: string): seq<string> {
    if s == "" then []
    else
      var before, last := s[..|s| - 1], s[|s| - 1];
      if last == '\n' then Lines(before) + [Rest(before)] else Lines(before)
  }

  function Rest(s: string): string {
    if s == "" then ""
    else
      var before, last := s[..|s| - 1], s[|s| - 1];
      if last == '\n' then "" else Rest(before) + [last]
  }

  function Unlines(lines: seq<string>): string {
    if lines == [] then "" else Unlines(lines[..|lines| - 1]) + lines[|lines| - 1] + "\n"
  }

  /** Nothing is lost or made up: the lines with their newlines, and the rest, are the text. */
  lemma {:induction false} LinesReassemble(s: string)
    ensures Unlines(Lines(s)) + Rest(s) == s
    ensures '\n' !in Rest(s) && forall line <- Lines(s) :: '\n' !in line
  {
    if s != "" {
      var before := s[..|s| - 1];
      LinesReassemble(before);
      assert s == before + [s[|s| - 1]];
      if s[|s| - 1] == '\n' {
        assert (Lines(before) + [Rest(before)])[..|Lines(before)|] == Lines(before);
      }
    }
  }

  lemma {:induction false} PlainHasNoLines(s: string)
    requires '\n' !in s
    ensures Lines(s) == [] && Rest(s) == s
  {
    if s != "" {
      PlainHasNoLines(s[..|s| - 1]);
      assert s == s[..|s| - 1] + [s[|s| - 1]];
    }
  }

  lemma LinesPush(s: string, c: char)
    ensures Lines(s + [c]) == if c == '\n' then Lines(s) + [Rest(s)] else Lines(s)
    ensures Rest(s + [c]) == if c == '\n' then "" else Rest(s) + [c]
  {
    assert (s + [c])[..|s|] == s;
  }

  lemma LinesPushBoth(p: string, q: string, lines: seq<string>, c: char)
    requires Lines(p) == lines + Lines(q) && Rest(p) == Rest(q)
    ensures Lines(p + [c]) == lines + Lines(q + [c]) && Rest(p + [c]) == Rest(q + [c])
  {
    LinesPush(p, c);
    LinesPush(q, c);
    hide Lines, Rest;
  }

  /** Text may come in any pieces: what is left of one is put before the next. */
  lemma {:induction false} LinesOfPieces(a: string, b: string)
    ensures Lines(a + b) == Lines(a) + Lines(Rest(a) + b) && Rest(a + b) == Rest(Rest(a) + b)
  {
    if b == "" {
      LinesReassemble(a);
      PlainHasNoLines(Rest(a));
      hide Lines, Rest;
      assert a + b == a && Rest(a) + b == Rest(a);
    } else {
      var n := |b| - 1;
      LinesOfPieces(a, b[..n]);
      hide Lines, Rest;
      LinesPushBoth(a + b[..n], Rest(a) + b[..n], Lines(a), b[n]);
      assert b == b[..n] + [b[n]];
      Regrouped(a, b[..n], [b[n]]);
      Regrouped(Rest(a), b[..n], [b[n]]);
    }
  }

  lemma Regrouped(a: string, b: string, c: string)
    ensures a + b + c == a + (b + c)
  {
  }

  lemma {:induction false} FirstLine(line: string, s: string)
    requires '\n' !in line
    ensures Lines(line + "\n" + s) == [line] + Lines(s) && Rest(line + "\n" + s) == Rest(s)
  {
    PlainHasNoLines(line);
    var head := line + "\n";
    assert head[..|line|] == line;
    LinesOfPieces(head, s);
    assert Rest(head) + s == s;
  }

  /** The place of the first newline; -1 without one. */
  method IndexOfNewline(s: string) returns (index: int)
    ensures index == -1 ==> '\n' !in s
    ensures index != -1 ==> 0 <= index < |s| && s[index] == '\n' && '\n' !in s[..index]
  {
    index := 0;
    while index < |s|
      invariant 0 <= index <= |s| && '\n' !in s[..index]
    {
      if s[index] == '\n' {
        return;
      }
      index := index + 1;
    }
    assert s[..|s|] == s;
    index := -1;
  }

  /** What both ends do with a chunk: cut a line as long as there is a newline, and keep the rest. */
  method Cut(buffer: string, chunk: string) returns (lines: seq<string>, rest: string)
    ensures lines == Lines(buffer + chunk) && rest == Rest(buffer + chunk)
  {
    lines, rest := [], buffer + chunk;
    var index := IndexOfNewline(rest);
    while index >= 0
      invariant index == -1 ==> '\n' !in rest
      invariant index != -1 ==> 0 <= index < |rest| && rest[index] == '\n' && '\n' !in rest[..index]
      invariant lines + Lines(rest) == Lines(buffer + chunk) && Rest(rest) == Rest(buffer + chunk)
      decreases |rest|
    {
      var line, left := rest[..index], rest[index + 1..];
      assert rest == line + "\n" + left;
      FirstLine(line, left);
      lines := lines + [line];
      rest := left;
      index := IndexOfNewline(rest);
    }
    PlainHasNoLines(rest);
  }

  /** The runner service's side of a connection: every line is handled, in the order it came. */
  class Service {
    var buffer: string
    var handled: seq<string>
    ghost var received: string

    ghost predicate Valid()
      reads this
    {
      handled == Lines(received) && buffer == Rest(received)
    }

    constructor ()
      ensures Valid() && received == ""
    {
      buffer, handled, received := "", [], "";
    }

    method Data(chunk: string)
      requires Valid()
      modifies this
      ensures Valid() && received == old(received) + chunk
    {
      LinesOfPieces(received, chunk);
      var lines: seq<string>;
      lines, buffer := Cut(buffer, chunk);
      handled := handled + lines;
      received := received + chunk;
    }
  }

  // The asks and the answers.

  /** An ask that was resolved: with a line, or with none when the connection closed. */
  datatype Resolved = Resolved(ask: nat, line: Option<string>)

  /** The answers that came early, the asks that wait, how many asks were made, and those resolved, in order. */
  datatype Queues = Queues(answers: seq<string>, waiting: seq<nat>, asks: nat, resolved: seq<Resolved>)

  datatype Event = Line(line: string) | Ask | Close

  /** A line goes to the ask that has waited longest, or is kept. */
  function Arrived(q: Queues, line: string): Queues {
    if q.waiting != [] then q.(waiting := q.waiting[1..], resolved := q.resolved + [Resolved(q.waiting[0], Some(line))])
    else q.(answers := q.answers + [line])
  }

  function AllArrived(q: Queues, lines: seq<string>): Queues {
    if lines == [] then q else Arrived(AllArrived(q, lines[..|lines| - 1]), lines[|lines| - 1])
  }

  lemma {:induction false} AllArrivedConcat(q: Queues, a: seq<string>, b: seq<string>)
    ensures AllArrived(q, a + b) == AllArrived(AllArrived(q, a), b)
  {
    if b == [] {
      assert a + b == a;
    } else {
      assert (a + b)[..|a + b| - 1] == a + b[..|b| - 1];
      AllArrivedConcat(q, a, b[..|b| - 1]);
    }
  }

  /** Two chunks leave the client as they would in one piece. */
  lemma {:induction false} ChunksDoNotMatter(q: Queues, buffer: string, a: string, b: string)
    ensures AllArrived(AllArrived(q, Lines(buffer + a)), Lines(Rest(buffer + a) + b)) == AllArrived(q, Lines(buffer + (a + b)))
    ensures Rest(Rest(buffer + a) + b) == Rest(buffer + (a + b))
  {
    LinesOfPieces(buffer + a, b);
    assert buffer + a + b == buffer + (a + b);
    AllArrivedConcat(q, Lines(buffer + a), Lines(Rest(buffer + a) + b));
  }

  /** An ask takes the first early answer away, and hands it to the first that waits unless it is empty. */
  function Asked(q: Queues): Queues {
    var waiting, asks := q.waiting + [q.asks], q.asks + 1;
    if q.answers == [] then q.(waiting := waiting, asks := asks)
    else if q.answers[0] == "" then q.(answers := q.answers[1..], waiting := waiting, asks := asks)
    else Queues(q.answers[1..], waiting[1..], asks, q.resolved + [Resolved(waiting[0], Some(q.answers[0]))])
  }

  function GivenUp(waiting: seq<nat>): seq<Resolved> {
    if waiting == [] then [] else GivenUp(waiting[..|waiting| - 1]) + [Resolved(waiting[|waiting| - 1], None)]
  }

  function Closed(q: Queues): Queues {
    q.(waiting := [], resolved := q.resolved + GivenUp(q.waiting))
  }

  // Runs.

  function Next(q: Queues, e: Event): Queues {
    match e
    case Line(line) => Arrived(q, line)
    case Ask => Asked(q)
    case Close => Closed(q)
  }

  function Run(events: seq<Event>): Queues {
    if events == [] then Queues([], [], 0, []) else Next(Run(events[..|events| - 1]), events[|events| - 1])
  }

  function LinesIn(events: seq<Event>): seq<string> {
    if events == [] then []
    else LinesIn(events[..|events| - 1]) + if events[|events| - 1].Line? then [events[|events| - 1].line] else []
  }

  function LineEvents(lines: seq<string>): seq<Event> {
    if lines == [] then [] else LineEvents(lines[..|lines| - 1]) + [Line(lines[|lines| - 1])]
  }

  lemma RunPush(events: seq<Event>, e: Event)
    ensures Run(events + [e]) == Next(Run(events), e)
    ensures LinesIn(events + [e]) == LinesIn(events) + if e.Line? then [e.line] else []
  {
    assert (events + [e])[..|events|] == events;
  }

  /** Lines that arrive are events one by one. */
  lemma {:induction false} RunLines(events: seq<Event>, lines: seq<string>)
    ensures Run(events + LineEvents(lines)) == AllArrived(Run(events), lines)
    ensures LinesIn(events + LineEvents(lines)) == LinesIn(events) + lines
  {
    if lines == [] {
      assert events + [] == events && LinesIn(events) + [] == LinesIn(events);
    } else {
      var n := |lines| - 1;
      RunLines(events, lines[..n]);
      hide Run, LinesIn, Arrived;
      RunPush(events + LineEvents(lines[..n]), Line(lines[n]));
      assert events + LineEvents(lines) == events + LineEvents(lines[..n]) + [Line(lines[n])];
      assert lines == lines[..n] + [lines[n]];
    }
  }

  /** The client's side of a connection. What it did is a run, of the lines of all it received. */
  class Client {
    var buffer: string
    var answers: seq<string>
    var waiting: seq<nat>
    var asks: nat
    var resolved: seq<Resolved>
    ghost var received: string
    ghost var events: seq<Event>

    ghost function View(): Queues
      reads this
    {
      Queues(answers, waiting, asks, resolved)
    }

    ghost predicate Valid()
      reads this
    {
      View() == Run(events) && LinesIn(events) == Lines(received) && buffer == Rest(received)
    }

    constructor ()
      ensures Valid() && View() == Queues([], [], 0, []) && received == "" && events == []
    {
      buffer, answers, waiting, asks, resolved := "", [], [], 0, [];
      received, events := "", [];
    }

    method Data(chunk: string)
      requires Valid()
      modifies this
      ensures Valid() && received == old(received) + chunk && events == old(events) + LineEvents(Lines(old(buffer) + chunk))
      ensures View() == AllArrived(old(View()), Lines(old(buffer) + chunk)) && buffer == Rest(old(buffer) + chunk)
    {
      var lines: seq<string>;
      lines, buffer := Cut(buffer, chunk);
      Arrive(lines);
      LinesOfPieces(received, chunk);
      RunLines(events, lines);
      received, events := received + chunk, events + LineEvents(lines);
    }

    method Arrive(lines: seq<string>)
      modifies `answers, `waiting, `resolved
      ensures View() == AllArrived(old(View()), lines)
    {
      for i := 0 to |lines|
        invariant View() == AllArrived(old(View()), lines[..i])
      {
        assert lines[..i + 1][..i] == lines[..i];
        if |waiting| > 0 {
          resolved := resolved + [Resolved(waiting[0], Some(lines[i]))];
          waiting := waiting[1..];
        } else {
          answers := answers + [lines[i]];
        }
      }
      assert lines[..|lines|] == lines;
    }

    method Ask() returns (ask: nat)
      requires Valid()
      modifies this
      ensures Valid() && received == old(received) && events == old(events) + [Event.Ask]
      ensures View() == Asked(old(View())) && ask == old(asks)
    {
      RunPush(events, Event.Ask);
      events := events + [Event.Ask];
      ask, asks := asks, asks + 1;
      waiting := waiting + [ask];
      if |answers| > 0 {
        var early := answers[0];
        answers := answers[1..];
        if early != "" {
          resolved := resolved + [Resolved(waiting[0], Some(early))];
          waiting := waiting[1..];
        }
      }
    }

    method Close()
      requires Valid()
      modifies this
      ensures Valid() && received == old(received) && events == old(events) + [Event.Close]
      ensures View() == Closed(old(View()))
    {
      RunPush(events, Event.Close);
      events := events + [Event.Close];
      GiveUp();
    }

    method GiveUp()
      modifies `waiting, `resolved
      ensures View() == Closed(old(View()))
    {
      var all := waiting;
      waiting := [];
      for i := 0 to |all|
        invariant View() == old(View()).(waiting := [], resolved := old(resolved) + GivenUp(all[..i]))
      {
        assert all[..i + 1][..i] == all[..i];
        resolved := resolved + [Resolved(all[i], None)];
      }
      assert all[..|all|] == all;
    }
  }

  /** Asks are resolved in the order they were made, each once; the others wait, in order. */
  ghost predicate Conserved(q: Queues) {
    && q.asks == |q.resolved| + |q.waiting|
    && (forall i :: 0 <= i < |q.resolved| ==> q.resolved[i].ask == i)
    && (forall i :: 0 <= i < |q.waiting| ==> q.waiting[i] == |q.resolved| + i)
  }

  lemma {:induction false} GivenUpAt(waiting: seq<nat>)
    ensures |GivenUp(waiting)| == |waiting|
    ensures forall i :: 0 <= i < |waiting| ==> GivenUp(waiting)[i] == Resolved(waiting[i], None)
  {
    if waiting != [] {
      GivenUpAt(waiting[..|waiting| - 1]);
    }
  }

  /** Whatever comes, each ask is resolved at most once, and in turn; a close resolves all that are left. */
  lemma {:induction false} AsksAreResolvedInTurn(events: seq<Event>)
    ensures Conserved(Run(events))
    ensures events != [] && events[|events| - 1].Close? ==> Run(events).waiting == [] && |Run(events).resolved| == Run(events).asks
  {
    if events != [] {
      var before := Run(events[..|events| - 1]);
      AsksAreResolvedInTurn(events[..|events| - 1]);
      GivenUpAt(before.waiting);
    }
  }

  /** The i-th line goes to the i-th ask; the lines past the asks are kept, the asks past the lines wait. */
  ghost predicate Matched(q: Queues, lines: seq<string>) {
    && Conserved(q)
    && |q.resolved| == (if q.asks < |lines| then q.asks else |lines|)
    && (forall i :: 0 <= i < |q.resolved| ==> q.resolved[i].line == Some(lines[i]))
    && q.answers == (if q.asks < |lines| then lines[q.asks..] else [])
  }

  /** An ask that finds an empty line first among the early answers throws it away. */
  predicate ThrowsAway(q: Queues, e: Event) {
    e.Ask? && q.answers != [] && q.answers[0] == ""
  }

  predicate ThrewAway(events: seq<Event>) {
    events != [] && (ThrewAway(events[..|events| - 1]) || ThrowsAway(Run(events[..|events| - 1]), events[|events| - 1]))
  }

  /** Lines kept or handed on, and those thrown away, are all the lines; so one thrown away is missed for good. */
  lemma {:induction false} LinesAreCounted(events: seq<Event>)
    requires forall e <- events :: !e.Close?
    ensures var q := Run(events);
            && |q.resolved| + |q.answers| <= |LinesIn(events)|
            && (ThrewAway(events) ==> |q.resolved| + |q.answers| < |LinesIn(events)|)
  {
    if events != [] {
      LinesAreCounted(events[..|events| - 1]);
    }
  }

  lemma StaysMatched(q: Queues, lines: seq<string>, e: Event)
    requires Matched(q, lines) && !e.Close? && !ThrowsAway(q, e)
    ensures Matched(Next(q, e), if e.Line? then lines + [e.line] else lines)
  {
  }

  lemma {:induction false} MatchedUntilThrown(events: seq<Event>)
    requires (forall e <- events :: !e.Close?) && !ThrewAway(events)
    ensures Matched(Run(events), LinesIn(events))
  {
    if events != [] {
      var n := |events| - 1;
      MatchedUntilThrown(events[..n]);
      StaysMatched(Run(events[..n]), LinesIn(events[..n]), events[n]);
      assert LinesIn(events[..n]) + [] == LinesIn(events[..n]);
    }
  }

  /**
   While the connection is open, lines and asks are matched first to first just when no ask ever found an empty line
   first among the early answers.
   */
  lemma {:induction false} MatchedIffNothingThrown(events: seq<Event>)
    requires forall e <- events :: !e.Close?
    ensures Matched(Run(events), LinesIn(events)) <==> !ThrewAway(events)
  {
    if ThrewAway(events) {
      LinesAreCounted(events);
    } else {
      MatchedUntilThrown(events);
    }
  }

  /** What waits for an ask came as a line. */
  lemma {:induction false} AnswersCameAsLines(events: seq<Event>)
    ensures forall a <- Run(events).answers :: a in LinesIn(events)
  {
    if events != [] {
      AnswersCameAsLines(events[..|events| - 1]);
    }
  }

  lemma {:induction false} NothingEmptyNothingThrown(events: seq<Event>)
    requires "" !in LinesIn(events)
    ensures !ThrewAway(events)
  {
    if events != [] {
      NothingEmptyNothingThrown(events[..|events| - 1]);
      AnswersCameAsLines(events[..|events| - 1]);
    }
  }

  /** As long as no line it received is empty, an open client has matched its lines and its asks, first to first. */
  lemma {:induction false} ClientMatchesNonEmptyLines(client: Client)
    requires client.Valid() && "" !in Lines(client.received) && forall e <- client.events :: !e.Close?
    ensures Matched(client.View(), Lines(client.received))
  {
    NothingEmptyNothingThrown(client.events);
    MatchedUntilThrown(client.events);
  }

  /** Matched queues are never both in use. */
  lemma {:induction false} MatchedQueuesAreApart(q: Queues, lines: seq<string>)
    requires Matched(q, lines)
    ensures q.answers == [] || q.waiting == []
  {
  }

  /** They can be, once an empty line was thrown away; and then a later line overtakes an earlier one. */
  lemma {:induction false} EmptyLineBreaksTheOrder()
    ensures var q := Run([Line(""), Line("first"), Ask]);
            q.answers == ["first"] && q.waiting == [0] && Arrived(q, "second").resolved == [Resolved(0, Some("second"))]
  {
    var events := [Line(""), Line("first"), Ask];
    assert events[..2] == [Line(""), Line("first")] && events[..2][..1] == [Line("")] && events[..2][..1][..0] == [];
    assert Run(events[..2][..1]) == Queues([""], [], 0, []);
    assert Run(events[..2]) == Queues(["", "first"], [], 0, []);
  }
}
