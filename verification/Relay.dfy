/** The relay: what it makes of a connection's header, in whatever chunks it comes (`isolation.ts`). */
module Relay {
  import opened Common
  import opened Decimal

  // Bytes are characters, as latin1 reads them.

  const MAX_HEADER := 16384

  predicate EndsAt(s: string, i: int) {
    0 <= i && i + 4 <= |s| && s[i] == '\r' && s[i + 1] == '\n' && s[i + 2] == '\r' && s[i + 3] == '\n'
  }

  /** Where the header's end first stands; -1 when it does not. */
  function End(s: string): (end: int)
    ensures end == -1 ==> forall i :: !EndsAt(s, i)
    ensures end != -1 ==> EndsAt(s, end) && forall i :: i < end ==> !EndsAt(s, i)
  {
    EndFrom(s, 0)
  }

  function EndFrom(s: string, from: nat): (end: int)
    requires from <= |s| && forall i :: i < from ==> !EndsAt(s, i)
    ensures end == -1 ==> forall i :: !EndsAt(s, i)
    ensures end != -1 ==> EndsAt(s, end) && forall i :: i < end ==> !EndsAt(s, i)
    decreases |s| - from
  {
    if EndsAt(s, from) then from else if from == |s| then -1 else EndFrom(s, from + 1)
  }

  predicate Space(c: char) {
    c == ' ' || '\t' <= c <= '\r' || c as int == 0xA0
  }

  predicate Hex(c: char) {
    Digit(c) || 'a' <= c <= 'f' || 'A' <= c <= 'F'
  }

  /** A name or an address without a colon, or an IPv6 address in brackets. */
  predicate HostOk(host: string) {
    || (host != "" && forall c <- host :: !Space(c) && c != ':')
    || (|host| > 2 && host[0] == '[' && host[|host| - 1] == ']' && forall c <- host[1..|host| - 1] :: Hex(c) || c == ':')
  }

  predicate StartsWith(s: string, prefix: string) {
    |prefix| <= |s| && s[..|prefix|] == prefix
  }

  /** The place of the first `c`, or the length. */
  function FirstOf(s: string, c: char): (i: nat)
    ensures i <= |s| && c !in s[..i] && (i < |s| ==> s[i] == c)
  {
    if s == "" || s[0] == c then 0 else
      var i := 1 + FirstOf(s[1..], c);
      assert s[..i] == [s[0]] + s[1..][..i - 1];
      i
  }

  /** The place of the last `c`; -1 without one. */
  function LastOf(s: string, c: char): (i: int)
    ensures i == -1 ==> c !in s
    ensures i != -1 ==> 0 <= i < |s| && s[i] == c && c !in s[i + 1..]
  {
    if s == "" then -1
    else if s[|s| - 1] == c then |s| - 1
    else
      var i := LastOf(s[..|s| - 1], c);
      assert s == s[..|s| - 1] + [s[|s| - 1]];
      assert i >= 0 ==> s[i + 1..] == s[..|s| - 1][i + 1..] + [s[|s| - 1]];
      i
  }

  datatype Target = Target(host: string, port: string)

  /** How the request line begins. */
  function Method(): string {
    "CONNECT "
  }

  /** How the request line ends: its version is 1.0 or 1.1. */
  function VersionEnd(version: char): string {
    " HTTP/1." + [version] + "\r\n"
  }

  /** The target of a CONNECT request (section 9.3.6 of RFC 9110). */
  function Requested(text: string): Option<Target> {
    if StartsWith(text, Method()) then RequestedAfter(text[|Method()|..]) else None
  }

  function RequestedAfter(rest: string): Option<Target> {
    var space := FirstOf(rest, ' ');
    if StartsWith(rest[space..], VersionEnd('0')) || StartsWith(rest[space..], VersionEnd('1')) then TargetOf(rest[..space]) else None
  }

  function TargetOf(token: string): Option<Target> {
    var colon := LastOf(token, ':');
    if colon != -1 && HostOk(token[..colon]) && IsNumeral(token[colon + 1..]) then Some(Target(token[..colon], token[colon + 1..]))
    else None
  }

  /** The text is a request line for the target, and something after it. */
  predicate Requests(text: string, t: Target, version: char, after: string) {
    && HostOk(t.host) && IsNumeral(t.port) && (version == '0' || version == '1')
    && text == Method() + t.host + ":" + t.port + VersionEnd(version) + after
  }

  lemma HostHasNoSpace(host: string)
    requires HostOk(host)
    ensures ' ' !in host
  {
    forall i | 0 <= i < |host| ensures host[i] != ' ' {
      if forall c <- host :: !Space(c) && c != ':' {
        assert host[i] in host && !Space(host[i]);
      } else if 0 < i < |host| - 1 {
        var inner := host[1..|host| - 1];
        assert inner[i - 1] == host[i] && inner[i - 1] in inner;
        assert Hex(host[i]) || host[i] == ':';
      } else {
        assert host[i] == '[' || host[i] == ']';
      }
    }
  }

  lemma {:induction false} FirstIs(s: string, c: char, rest: string)
    requires c !in s
    ensures FirstOf(s + [c] + rest, c) == |s|
  {
    if s != "" {
      assert (s + [c] + rest)[1..] == s[1..] + [c] + rest;
      FirstIs(s[1..], c, rest);
    }
  }

  lemma {:induction false} LastIs(s: string, c: char, rest: string)
    requires c !in rest
    ensures LastOf(s + [c] + rest, c) == |s|
  {
    if rest != "" {
      var n := |rest| - 1;
      assert (s + [c] + rest)[..|s| + |rest|] == s + [c] + rest[..n];
      LastIs(s, c, rest[..n]);
    }
  }

  lemma PortHasNoColon(port: string)
    requires IsNumeral(port)
    ensures ':' !in port && ' ' !in port
  {
  }

  lemma TargetIsRead(t: Target)
    requires HostOk(t.host) && IsNumeral(t.port)
    ensures TargetOf(t.host + ":" + t.port) == Some(t)
  {
    PortHasNoColon(t.port);
    LastIs(t.host, ':', t.port);
    hide HostOk, IsNumeral, LastOf;
    Parted(t.host + ":", t.port);
    assert (t.host + ":" + t.port)[..|t.host|] == t.host;
  }

  lemma TokenIsRead(token: string, version: char, after: string)
    requires ' ' !in token && (version == '0' || version == '1')
    ensures RequestedAfter(token + (VersionEnd(version) + after)) == TargetOf(token)
  {
    var tail := VersionEnd(version) + after;
    assert tail == " " + tail[1..];
    assert token + tail == token + " " + tail[1..];
    FirstIs(token, ' ', tail[1..]);
    hide TargetOf, FirstOf, VersionEnd;
    Parted(token, tail);
    Parted(VersionEnd(version), after);
  }

  /** A request as it is printed is read back, bracketed or not. */
  lemma {:induction false} PrintedIsRead(text: string, t: Target, version: char, after: string)
    requires Requests(text, t, version, after)
    ensures Requested(text) == Some(t)
  {
    var token := t.host + ":" + t.port;
    HostHasNoSpace(t.host);
    PortHasNoColon(t.port);
    Unglued(t, version, after);
    TargetIsRead(t);
    TokenIsRead(token, version, after);
    hide HostOk, IsNumeral, VersionEnd, Method, TargetOf, RequestedAfter;
    Parted(Method(), token + (VersionEnd(version) + after));
  }

  lemma Parted(a: string, b: string)
    ensures (a + b)[..|a|] == a && (a + b)[|a|..] == b
  {
  }

  lemma Glued(text: string, t: Target, version: char, after: string)
    requires text == Method() + ((t.host + ":" + t.port) + (VersionEnd(version) + after))
    ensures text == Method() + t.host + ":" + t.port + VersionEnd(version) + after
  {
    hide VersionEnd, Method;
  }

  lemma Unglued(t: Target, version: char, after: string)
    ensures Method() + t.host + ":" + t.port + VersionEnd(version) + after ==
            Method() + ((t.host + ":" + t.port) + (VersionEnd(version) + after))
  {
    hide VersionEnd, Method;
  }

  lemma StartIs(s: string, prefix: string)
    requires StartsWith(s, prefix)
    ensures s == prefix + s[|prefix|..]
  {
  }

  /** And what is read was printed so: the header asks for a target just when it starts with the request line for it. */
  lemma {:induction false} ReadIsPrinted(text: string)
    requires Requested(text).Some?
    ensures exists version, after :: Requests(text, Requested(text).value, version, after)
  {
    hide HostOk, IsNumeral, FirstOf, LastOf, VersionEnd, Method;
    var rest := text[|Method()|..];
    var space := FirstOf(rest, ' ');
    var token, tail := rest[..space], rest[space..];
    var colon := LastOf(token, ':');
    var t := Requested(text).value;
    var version := if StartsWith(tail, VersionEnd('0')) then '0' else '1';
    var after := tail[|VersionEnd(version)|..];
    assert token == t.host + ":" + t.port;
    StartIs(text, Method());
    StartIs(tail, VersionEnd(version));
    assert rest == token + tail;
    Glued(text, t, version, after);
    assert Requests(text, t, version, after);
  }

  /** toLowerCase within latin1. */
  function LowerOf(c: char): char {
    if 'A' <= c <= 'Z' || (0xC0 <= c as int <= 0xDE && c as int != 0xD7) then (c as int + 32) as char else c
  }

  function Lower(s: string): string {
    if s == "" then "" else Lower(s[..|s| - 1]) + [LowerOf(s[|s| - 1])]
  }

  /** The host without its brackets. */
  function Stripped(host: string): string {
    var left := if host != "" && host[0] == '[' then host[1..] else host;
    if left != "" && left[|left| - 1] == ']' then left[..|left| - 1] else left
  }

  function NameOf(t: Target): string {
    Lower(Stripped(t.host) + ":" + t.port)
  }

  datatype Verdict = Refused(entry: string) | Passed(target: string)

  predicate LineEndAt(s: string, i: nat) {
    i + 2 <= |s| && s[i] == '\r' && s[i + 1] == '\n'
  }

  function FirstLine(s: string): string {
    if s == "" || LineEndAt(s, 0) then "" else [s[0]] + FirstLine(s[1..])
  }

  /** The verdict on a header that ends at `end`. */
  function Decide(header: string, end: nat, allow: set<string>): Verdict
    requires end + 4 == |header|
  {
    var asked := Requested(header);
    if asked.Some? && NameOf(asked.value) in allow then Passed(NameOf(asked.value))
    else if asked.Some? then Refused(NameOf(asked.value))
    else Refused(FirstLine(header[..if end < 200 then end else 200]))
  }

  /** A connection: its header is being read, it was given up, or it is decided, with what came past the header. */
  datatype Connection = Reading(head: string) | Gone | Decided(verdict: Verdict, rest: string)

  function Received(c: Connection, chunk: string, allow: set<string>): Connection {
    if !c.Reading? then c
    else
      var head := c.head + chunk;
      var end := End(head);
      if end >= 0 then Decided(Decide(head[..end + 4], end, allow), head[end + 4..])
      else if |head| > MAX_HEADER then Gone
      else Reading(head)
  }

  /** Of what came nothing is lost: the header that was decided on, and what is passed on after it. */
  lemma {:induction false} HeaderAndRest(head: string, chunk: string, allow: set<string>)
    ensures var now := Received(Reading(head), chunk, allow);
            && (now.Decided? ==>
                  exists header, end :: end + 4 == |header| && EndsAt(header, end) && (forall i :: i < end ==> !EndsAt(header, i))
                    && head + chunk == header + now.rest && now.verdict == Decide(header, end, allow))
            && (now.Reading? ==> now.head == head + chunk)
  {
    hide Decide;
    var all := head + chunk;
    var end := End(all);
    if end >= 0 {
      var header, rest := all[..end + 4], all[end + 4..];
      assert all == header + rest;
      HeaderEnds(header, rest, end);
      assert Received(Reading(head), chunk, allow) == Decided(Decide(header, end, allow), rest);
    }
  }

  lemma HeaderEnds(header: string, rest: string, end: nat)
    requires |header| == end + 4 && EndsAt(header + rest, end) && forall i :: i < end ==> !EndsAt(header + rest, i)
    ensures EndsAt(header, end) && forall i :: i < end ==> !EndsAt(header, i)
  {
    forall i | EndsAt(header, i) ensures EndsAt(header + rest, i) {
    }
  }

  predicate IsDecided(c: Connection) {
    c.Decided?
  }

  /** The relay over all its connections. */
  class Relay {
    const allow: set<string>
    var connections: seq<Connection>
    var refused: seq<string>
    var passed: seq<string>

    /** Each decided connection left one entry, and what passed is allowed. */
    ghost predicate Valid()
      reads this
    {
      && |refused| + |passed| == Count(connections, IsDecided)
      && (forall target <- passed :: target in allow)
      && (forall c <- connections :: c.Decided? && c.verdict.Passed? ==> c.verdict.target in passed)
      && (forall c <- connections :: c.Decided? && c.verdict.Refused? ==> c.verdict.entry in refused)
    }

    constructor (allow: seq<string>)
      ensures Valid() && connections == [] && refused == [] && passed == []
      ensures this.allow == set entry | entry in allow :: Lower(entry)
    {
      this.allow := set entry | entry in allow :: Lower(entry);
      connections, refused, passed := [], [], [];
    }

    method Connect() returns (i: nat)
      requires Valid()
      modifies `connections
      ensures Valid() && i == |old(connections)| && connections == old(connections) + [Reading("")]
    {
      i := |connections|;
      CountPush(connections, Reading(""), IsDecided);
      connections := connections + [Reading("")];
    }

    method Data(i: nat, chunk: string)
      requires Valid() && i < |connections|
      modifies `connections, `refused, `passed
      ensures Valid()
      ensures connections == old(connections)[i := Received(old(connections)[i], chunk, allow)]
      ensures var was, now := old(connections)[i], connections[i];
              && refused == old(refused) + (if was.Reading? && now.Decided? && now.verdict.Refused? then [now.verdict.entry] else [])
              && passed == old(passed) + (if was.Reading? && now.Decided? && now.verdict.Passed? then [now.verdict.target] else [])
    {
      hide Decide, Requested, NameOf, Count, FirstLine;
      if !connections[i].Reading? {
        return;
      }
      var head := connections[i].head + chunk;
      var end := End(head);
      ghost var now := Received(connections[i], chunk, allow);
      CountUpdate(connections, i, now, IsDecided);
      if end < 0 {
        connections := connections[i := if |head| > MAX_HEADER then Gone else Reading(head)];
        return;
      }
      var verdict := Decide(head[..end + 4], end, allow);
      match verdict {
        case Refused(entry) => refused := refused + [entry];
        case Passed(target) =>
          PassedTarget(head[..end + 4], end, allow);
          passed := passed + [target];
      }
      connections := connections[i := Decided(verdict, head[end + 4..])];
    }
  }

  /** A bracket taken off the front, one off the back; a host may have one without the other. */
  predicate Unbracketed(host: string, bare: string) {
    var front := if host != "" && host[0] == '[' then "[" else "";
    var back := if |host| > |front| && host[|host| - 1] == ']' then "]" else "";
    host == front + bare + back
  }

  /** The same text in lower case: of the letters of latin1 each capital becomes the small one, and all else stays. */
  predicate LowersTo(s: string, t: string) {
    && |t| == |s|
    && forall i :: 0 <= i < |s| ==>
         if 'A' <= s[i] <= 'Z' then t[i] as int - 'a' as int == s[i] as int - 'A' as int
         else if 'À' <= s[i] <= 'Þ' && s[i] != '×' then t[i] as int - 'à' as int == s[i] as int - 'À' as int
         else t[i] == s[i]
  }

  /** The name of a host and a port: the host without its brackets, a colon, the port, in lower case. */
  ghost predicate Names(name: string, t: Target) {
    exists bare :: Unbracketed(t.host, bare) && LowersTo(bare + ":" + t.port, name)
  }

  lemma StrippedIsBare(host: string, bare: string)
    ensures Unbracketed(host, bare) <==> bare == Stripped(host)
  {
    var front := if host != "" && host[0] == '[' then "[" else "";
    var back := if |host| > |front| && host[|host| - 1] == ']' then "]" else "";
    StrippedIs(host, front, back);
    hide Stripped;
    Between(host, front, bare, back);
  }

  lemma StrippedIs(host: string, front: string, back: string)
    requires front == if host != "" && host[0] == '[' then "[" else ""
    requires back == if |host| > |front| && host[|host| - 1] == ']' then "]" else ""
    ensures |front| + |back| <= |host| && Stripped(host) == host[|front|..|host| - |back|]
    ensures front == host[..|front|] && back == host[|host| - |back|..]
  {
  }

  lemma Between(host: string, front: string, bare: string, back: string)
    requires |front| + |back| <= |host| && front == host[..|front|] && back == host[|host| - |back|..]
    ensures host == front + bare + back <==> bare == host[|front|..|host| - |back|]
  {
    var f, b := |front|, |host| - |back|;
    assert host == host[..f] + host[f..b] + host[b..];
    if host == front + bare + back {
      assert |host| == |front| + |bare| + |back|;
      assert host[|front|..|host| - |back|] == bare;
    }
  }

  lemma LowersToIs(s: string, t: string)
    ensures LowersTo(s, t) <==> t == Lower(s)
  {
    LowerAt(s);
  }

  lemma NamesIs(name: string, t: Target)
    ensures Names(name, t) <==> name == NameOf(t)
  {
    hide Unbracketed, LowersTo, Stripped, Lower;
    StrippedIsBare(t.host, Stripped(t.host));
    LowersToIs(Stripped(t.host) + ":" + t.port, name);
    forall bare | Unbracketed(t.host, bare) ensures bare == Stripped(t.host) {
      StrippedIsBare(t.host, bare);
    }
  }

  /** A plain host's name is itself with its port, in lower case, and a host of small letters' is just that. */
  lemma {:induction false} PlainHostIsNamed(t: Target)
    requires t.host != "" && t.host[0] != '[' && t.host[|t.host| - 1] != ']'
    ensures LowersTo(t.host + ":" + t.port, NameOf(t))
    ensures (forall c <- t.host + ":" + t.port :: c < 'À' && !('A' <= c <= 'Z')) ==> NameOf(t) == t.host + ":" + t.port
  {
    StrippedIsBare(t.host, t.host);
    LowersToIs(t.host + ":" + t.port, NameOf(t));
    if forall c <- t.host + ":" + t.port :: c < 'À' && !('A' <= c <= 'Z') {
      assert forall i :: 0 <= i < |t.host + ":" + t.port| ==> (t.host + ":" + t.port)[i] in t.host + ":" + t.port;
      assert LowersTo(t.host + ":" + t.port, t.host + ":" + t.port);
      LowersToIs(t.host + ":" + t.port, t.host + ":" + t.port);
    }
  }

  /**
   A header passes as a name just when it starts with a request line for a target of that name, and the name is allowed; no
   target has two names.
   */
  lemma {:induction false} PassedIsAllowed(header: string, end: nat, allow: set<string>, name: string)
    requires end + 4 == |header|
    ensures Decide(header, end, allow) == Passed(name) <==>
            name in allow && exists t, version, after :: Requests(header, t, version, after) && Names(name, t)
    ensures forall t, other :: Names(name, t) && Names(other, t) ==> name == other
  {
    hide Requested, NameOf, Requests, Names;
    if Requested(header).Some? {
      ReadIsPrinted(header);
    }
    forall t, version, after | Requests(header, t, version, after) ensures Requested(header) == Some(t) {
      PrintedIsRead(header, t, version, after);
    }
    forall t, other | true ensures Names(other, t) <==> other == NameOf(t) {
      NamesIs(other, t);
    }
  }

  lemma PassedTarget(header: string, end: nat, allow: set<string>)
    requires end + 4 == |header| && Decide(header, end, allow).Passed?
    ensures Decide(header, end, allow).target in allow
  {
  }

  lemma {:induction false} FirstLineIs(s: string)
    ensures FirstLine(s) <= s && forall i :: !LineEndAt(FirstLine(s), i)
    ensures FirstLine(s) == s || LineEndAt(s, |FirstLine(s)|)
  {
    if s != "" && !LineEndAt(s, 0) {
      FirstLineIs(s[1..]);
      var rest := FirstLine(s[1..]);
      assert FirstLine(s) == [s[0]] + rest;
      forall i: nat ensures !LineEndAt([s[0]] + rest, i) {
        assert i > 0 ==> (LineEndAt([s[0]] + rest, i) <==> LineEndAt(rest, i - 1));
        assert LineEndAt([s[0]] + rest, 0) ==> LineEndAt(s, 0);
      }
    }
  }

  /** A target turned back is told as such; of anything else the first line is told, within the header and 200 bytes. */
  lemma {:induction false} RefusedTells(header: string, end: nat, allow: set<string>)
    requires end + 4 == |header| && Decide(header, end, allow).Refused?
    ensures var entry, told := Decide(header, end, allow).entry, header[..if end < 200 then end else 200];
            if Requested(header).Some? then Names(entry, Requested(header).value) && entry !in allow
            else entry <= told && (entry == told || LineEndAt(told, |entry|)) && forall i :: !LineEndAt(entry, i)
  {
    hide Requested, NameOf, LineEndAt, FirstLine, Names;
    FirstLineIs(header[..if end < 200 then end else 200]);
    if Requested(header).Some? {
      NamesIs(NameOf(Requested(header).value), Requested(header).value);
    }
  }

  // Chunks.

  function ReceivedAll(chunks: seq<string>, allow: set<string>): Connection {
    if chunks == [] then Reading("")
    else Received(ReceivedAll(chunks[..|chunks| - 1], allow), chunks[|chunks| - 1], allow)
  }

  function Concat(chunks: seq<string>): string {
    if chunks == [] then "" else Concat(chunks[..|chunks| - 1]) + chunks[|chunks| - 1]
  }

  /** A prefix has its end where the whole has it, once it holds all of it. */
  lemma EndOfPrefix(s: string, more: string)
    ensures End(s) == if End(s + more) != -1 && End(s + more) + 4 <= |s| then End(s + more) else -1
  {
    var whole := s + more;
    assert forall i :: EndsAt(s, i) <==> EndsAt(whole, i) && i + 4 <= |s|;
  }

  /** The end of the header comes soon enough: what stands before it is complete is never over the limit. */
  predicate EndsInTime(stream: string) {
    End(stream) != -1 ==> End(stream) + 3 <= MAX_HEADER
  }

  /** What becomes of a connection is decided by its stream alone. */
  ghost predicate DecidedBy(c: Connection, stream: string, allow: set<string>) {
    var end := End(stream);
    if end != -1 then c.Decided? && c.verdict == Decide(stream[..end + 4], end, allow)
    else if |stream| > MAX_HEADER then c == Gone
    else c == Reading(stream)
  }

  lemma {:induction false} ChunksDoNotMatter(chunks: seq<string>, allow: set<string>)
    requires EndsInTime(Concat(chunks))
    ensures DecidedBy(ReceivedAll(chunks, allow), Concat(chunks), allow)
  {
    hide Decide;
    if chunks != [] {
      var n := |chunks| - 1;
      var before := Concat(chunks[..n]);
      EndOfPrefix(before, chunks[n]);
      ChunksDoNotMatter(chunks[..n], allow);
      var end := End(Concat(chunks));
      if end != -1 && end + 4 <= |before| {
        assert Concat(chunks)[..end + 4] == before[..end + 4];
      }
    }
  }

  lemma {:induction false} LateEndInTwo(stream: string, allow: set<string>)
    requires !EndsInTime(stream)
    ensures var at := End(stream) + 3; ReceivedAll([stream[..at], stream[at..]], allow) == Gone
  {
    hide Decide;
    var at := End(stream) + 3;
    var chunks := [stream[..at], stream[at..]];
    assert stream[..at] + stream[at..] == stream;
    EndOfPrefix(stream[..at], stream[at..]);
    assert chunks[..1] == [stream[..at]] && chunks[..1][..0] == [];
    assert "" + stream[..at] == stream[..at];
    assert ReceivedAll(chunks[..1], allow) == Received(Reading(""), stream[..at], allow);
  }

  /**
   The chunks a stream comes in make no difference just when the end of its header, if it has one, comes in time: the
   header less its last byte must fit the limit.
   */
  lemma {:induction false} ChunksDoNotMatterIff(stream: string, allow: set<string>)
    ensures EndsInTime(stream) <==>
            forall chunks :: Concat(chunks) == stream ==> DecidedBy(ReceivedAll(chunks, allow), stream, allow)
  {
    hide Decide;
    if EndsInTime(stream) {
      forall chunks | Concat(chunks) == stream ensures DecidedBy(ReceivedAll(chunks, allow), stream, allow) {
        ChunksDoNotMatter(chunks, allow);
      }
    } else {
      var at := End(stream) + 3;
      var chunks := [stream[..at], stream[at..]];
      LateEndInTwo(stream, allow);
      assert chunks[..1] == [stream[..at]] && chunks[..1][..0] == [];
      assert Concat(chunks[..1]) == "" + stream[..at];
      assert Concat(chunks) == stream[..at] + stream[at..] == stream;
    }
  }

  // Targets.

  /** splitTarget: the host up to the last colon, the port after it. */
  function SplitTarget(target: string): (string, nat)
    requires LastOf(target, ':') != -1 && AllDigits(target[LastOf(target, ':') + 1..])
  {
    var index := LastOf(target, ':');
    (target[..index], Parse(target[index + 1..]))
  }

  lemma SplitJoined(host: string, port: string)
    requires IsNumeral(port)
    ensures var target := host + ":" + port;
            && LastOf(target, ':') != -1 && AllDigits(target[LastOf(target, ':') + 1..])
            && SplitTarget(target) == (host, Parse(port))
  {
    PortHasNoColon(port);
    LastIs(host, ':', port);
    hide LastOf, Parse;
    Parted(host + ":", port);
    assert (host + ":" + port)[..|host|] == host;
  }

  /** Splitting undoes joining any host, an IPv6 address with its colons too, with a port. */
  lemma {:induction false} SplitUndoesJoin(host: string, port: nat)
    ensures var target := host + ":" + Print(port);
            && LastOf(target, ':') != -1 && AllDigits(target[LastOf(target, ':') + 1..])
            && SplitTarget(target) == (host, port)
  {
    ParsePrint(port);
    SplitJoined(host, Print(port));
  }

  lemma {:induction false} LowerAt(s: string)
    ensures |Lower(s)| == |s| && forall i :: 0 <= i < |s| ==> Lower(s)[i] == LowerOf(s[i])
  {
    if s != "" {
      LowerAt(s[..|s| - 1]);
    }
  }

  lemma LowerJoined(host: string, port: string)
    requires IsNumeral(port)
    ensures Lower(host + ":" + port) == Lower(host) + ":" + port
  {
    LowerAt(host);
    LowerAt(host + ":" + port);
    forall k | 0 <= k < |port| ensures LowerOf(port[k]) == port[k] {
      assert port[k] in port;
    }
  }

  /** Every target that is named can be split, into the host without brackets and the port's number. */
  lemma {:induction false} NamedTargetSplits(t: Target)
    requires IsNumeral(t.port)
    ensures var name := NameOf(t);
            && LastOf(name, ':') != -1 && AllDigits(name[LastOf(name, ':') + 1..])
            && var (host, port) := SplitTarget(name);
               && port == Parse(t.port) && exists bare :: Unbracketed(t.host, bare) && LowersTo(bare, host)
  {
    StrippedIsBare(t.host, Stripped(t.host));
    LowersToIs(Stripped(t.host), Lower(Stripped(t.host)));
    LowerJoined(Stripped(t.host), t.port);
    hide Lower, Stripped, Parse, LastOf, SplitTarget;
    SplitJoined(Lower(Stripped(t.host)), t.port);
  }

  /** A request for an IPv6 address in brackets is for the address, and goes to it. */
  lemma {:induction false} BracketsAreTakenOff(address: string, port: string)
    requires address != "" && IsNumeral(port) && forall c <- address :: Hex(c) || c == ':'
    ensures HostOk("[" + address + "]") && LowersTo(address + ":" + port, NameOf(Target("[" + address + "]", port)))
  {
    var host := "[" + address + "]";
    LowersToIs(address + ":" + port, Lower(address + ":" + port));
    assert host[1..|host| - 1] == address;
    assert host[1..] == address + "]";
    assert (address + "]")[..|address|] == address;
  }
}
