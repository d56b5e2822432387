/**
 UTF-8 as section 4 of RFC 3629 defines it, the few operations of Go's `unicode/utf8` and
 `strings` the runner rests on, and the runner's two cuts: `wholeHead` and `wholeTail`.
 */
module Utf8 {

  newtype byte = x: int | 0 <= x < 256

  /** utf8.RuneStart: the byte is not a continuation byte. */
  predicate RuneStart(b: byte) {
    !(0x80 <= b < 0xC0)
  }

  /** The length of the character a lead byte announces; 0 for a byte that leads none. */
  function Width(lead: byte): (w: nat)
    ensures w <= 4
    ensures w > 0 ==> RuneStart(lead)
  {
    if lead < 0x80 then 1
    else if 0xC2 <= lead <= 0xDF then 2
    else if 0xE0 <= lead <= 0xEF then 3
    else if 0xF0 <= lead <= 0xF4 then 4
    else 0
  }

  /** The second byte a lead byte allows: no overlong form, no surrogate, nothing past U+10FFFF. */
  predicate SecondByteOk(lead: byte, b: byte)
    ensures SecondByteOk(lead, b) ==> !RuneStart(b)
  {
    if lead == 0xE0 then 0xA0 <= b <= 0xBF
    else if lead == 0xED then 0x80 <= b <= 0x9F
    else if lead == 0xF0 then 0x90 <= b <= 0xBF
    else if lead == 0xF4 then 0x80 <= b <= 0x8F
    else 0x80 <= b <= 0xBF
  }

  /** `s` begins with a whole character. */
  predicate StartsWithChar(s: seq<byte>) {
    && |s| > 0
    && 0 < Width(s[0]) <= |s|
    && (Width(s[0]) > 1 ==> SecondByteOk(s[0], s[1]))
    && (Width(s[0]) > 2 ==> !RuneStart(s[2]))
    && (Width(s[0]) > 3 ==> !RuneStart(s[3]))
  }

  /** A sequence of whole characters. */
  predicate Valid(s: seq<byte>)
    ensures Valid(s) && s != [] ==> 0 < Width(s[0]) <= |s|
  {
    s == [] || (StartsWithChar(s) && Valid(s[Width(s[0])..]))
  }

  /** utf8.FullRune: what `p` begins with is a whole character, or can never become one. */
  predicate FullRune(p: seq<byte>) {
    && |p| > 0
    && ( || |p| >= Width(p[0])
         || (|p| > 1 && !SecondByteOk(p[0], p[1]))
         || (|p| > 2 && RuneStart(p[2])))
  }

  const REPLACEMENT: seq<byte> := [0xEF, 0xBF, 0xBD]

  /** strings.ToValidUTF8 with U+FFFD: each run of invalid bytes becomes one replacement character. */
  function ToValid(s: seq<byte>, inRun: bool := false): seq<byte> {
    if s == [] then []
    else if StartsWithChar(s) then s[..Width(s[0])] + ToValid(s[Width(s[0])..], false)
    else (if inRun then [] else REPLACEMENT) + ToValid(s[1..], true)
  }

  /** One whole character and no more. */
  predicate IsChar(c: seq<byte>) {
    StartsWithChar(c) && |c| == Width(c[0])
  }

  lemma FirstChar(s: seq<byte>) returns (c: seq<byte>, rest: seq<byte>)
    requires Valid(s) && s != []
    ensures s == c + rest && IsChar(c) && Valid(rest) && c == s[..Width(s[0])] && rest == s[Width(s[0])..]
  {
    c, rest := s[..Width(s[0])], s[Width(s[0])..];
  }

  /** A character before valid text is valid text, whose first character it is. */
  lemma ValidPrepend(c: seq<byte>, rest: seq<byte>)
    requires IsChar(c) && Valid(rest)
    ensures Valid(c + rest)
  {
    assert (c + rest)[|c|..] == rest;
    assert StartsWithChar(c + rest);
  }

  lemma ValidAfterChar(c: seq<byte>, rest: seq<byte>)
    requires IsChar(c) && Valid(c + rest)
    ensures Valid(rest)
  {
    assert (c + rest)[0] == c[0] && (c + rest)[|c|..] == rest;
  }

  /** What follows valid text within valid text is valid. */
  lemma {:induction false} ValidRest(a: seq<byte>, b: seq<byte>)
    requires Valid(a) && Valid(a + b)
    ensures Valid(b)
  {
    if a == [] {
      assert a + b == b;
    } else {
      var c, rest := FirstChar(a);
      hide Valid, IsChar;
      Associates(c, rest, b);
      ValidAfterChar(c, rest + b);
      ValidRest(rest, b);
    }
  }

  lemma Associates(a: seq<byte>, b: seq<byte>, c: seq<byte>)
    ensures a + b + c == a + (b + c)
  {
  }

  lemma {:induction false} ValidConcat(a: seq<byte>, b: seq<byte>)
    requires Valid(a) && Valid(b)
    ensures Valid(a + b)
  {
    if a == [] {
      assert a + b == b;
    } else {
      var c, rest := FirstChar(a);
      hide Valid, IsChar;
      ValidConcat(rest, b);
      ValidPrepend(c, rest + b);
      Associates(c, rest, b);
    }
  }

  /** What the runner hands out is always valid UTF-8, whatever the command wrote. */
  lemma {:induction false} ToValidIsValid(s: seq<byte>, inRun: bool)
    ensures Valid(ToValid(s, inRun))
  {
    if s == [] {
    } else if StartsWithChar(s) {
      var w := Width(s[0]);
      ToValidIsValid(s[w..], false);
      var c := s[..w];
      assert c[w..] == [];
      assert StartsWithChar(c);
      ValidConcat(c, ToValid(s[w..], false));
    } else {
      ToValidIsValid(s[1..], true);
      assert REPLACEMENT[3..] == [];
      assert Valid(REPLACEMENT);
      if !inRun {
        ValidConcat(REPLACEMENT, ToValid(s[1..], true));
      } else {
        assert [] + ToValid(s[1..], true) == ToValid(s[1..], true);
      }
    }
  }

  /** Text that is valid already is handed out as it is; the converse holds because the result is always valid. */
  lemma {:induction false} ToValidKeepsValid(s: seq<byte>)
    ensures ToValid(s) == s <==> Valid(s)
  {
    ToValidIsValid(s, false);
    if Valid(s) && s != [] {
      var w := Width(s[0]);
      ToValidKeepsValid(s[w..]);
      assert s == s[..w] + s[w..];
    }
  }

  // What any bytes are handed out as.

  /** Bytes that are text, or a run of bytes at none of which a whole character starts. */
  datatype Piece = Text(bytes: seq<byte>) | Broken(bytes: seq<byte>)

  /** No whole character starts at any of the first `n` bytes. */
  ghost predicate NoneStarts(s: seq<byte>, n: nat) {
    n <= |s| && forall k :: 0 <= k < n ==> !StartsWithChar(s[k..])
  }

  lemma NoneStartsAfter(s: seq<byte>, n: nat)
    requires NoneStarts(s, n) && n > 0
    ensures !StartsWithChar(s) && NoneStarts(s[1..], n - 1) && s[1..][n - 1..] == s[n..]
  {
    assert s[0..] == s;
    forall k | 0 <= k < n - 1 ensures !StartsWithChar(s[1..][k..]) {
      assert s[1..][k..] == s[k + 1..];
    }
  }

  lemma NoneStartsBefore(s: seq<byte>, n: nat)
    requires s != [] && !StartsWithChar(s) && NoneStarts(s[1..], n)
    ensures NoneStarts(s, n + 1) && s[1..][n..] == s[n + 1..]
  {
    assert s[0..] == s;
    forall k | 0 < k < n + 1 ensures !StartsWithChar(s[k..]) {
      assert s[1..][k - 1..] == s[k..];
    }
  }

  /** The bytes are the pieces in order: text and broken runs, none empty, each as long as it can be. */
  ghost predicate MadeOf(s: seq<byte>, pieces: seq<Piece>) {
    if pieces == [] then s == []
    else
      var bytes := pieces[0].bytes;
      && bytes != [] && bytes <= s
      && (if pieces[0].Text? then Valid(bytes) && !StartsWithChar(s[|bytes|..])
          else NoneStarts(s, |bytes|) && (bytes == s || StartsWithChar(s[|bytes|..])))
      && MadeOf(s[|bytes|..], pieces[1..])
  }

  /** The pieces in order, text as it is and each broken run as U+FFFD. */
  function Mended(pieces: seq<Piece>): seq<byte> {
    if pieces == [] then []
    else (if pieces[0].Text? then pieces[0].bytes else [0xEF, 0xBF, 0xBD]) + Mended(pieces[1..])
  }

  /** `text` is handed out for the bytes: their text as it is, each run of others as one U+FFFD. */
  ghost predicate HandedOutFor(text: seq<byte>, s: seq<byte>) {
    exists pieces :: MadeOf(s, pieces) && text == Mended(pieces)
  }

  lemma CharsAreKept(c: seq<byte>, rest: seq<byte>, inRun: bool)
    requires IsChar(c)
    ensures ToValid(c + rest, inRun) == c + ToValid(rest, false)
  {
    assert (c + rest)[..|c|] == c && (c + rest)[|c|..] == rest;
    assert StartsWithChar(c + rest);
  }

  lemma {:induction false} TextIsKept(a: seq<byte>, rest: seq<byte>, inRun: bool)
    requires Valid(a) && a != []
    ensures ToValid(a + rest, inRun) == a + ToValid(rest, false)
  {
    var c, more := FirstChar(a);
    hide Valid, IsChar, ToValid;
    CharsAreKept(c, more + rest, inRun);
    Associates(c, more, rest);
    Associates(c, more, ToValid(rest, false));
    if more != [] {
      TextIsKept(more, rest, false);
    } else {
      assert [] + rest == rest && c + [] == c;
    }
  }

  lemma {:induction false} RunShowsNothing(s: seq<byte>, n: nat)
    requires NoneStarts(s, n)
    ensures ToValid(s, true) == ToValid(s[n..], true)
  {
    if n == 0 {
      assert s[0..] == s;
    } else {
      NoneStartsAfter(s, n);
      RunShowsNothing(s[1..], n - 1);
      assert ToValid(s, true) == [] + ToValid(s[1..], true);
    }
  }

  lemma RunIsMended(s: seq<byte>, n: nat)
    requires 0 < n <= |s| && NoneStarts(s, n) && (n == |s| || StartsWithChar(s[n..]))
    ensures ToValid(s, false) == REPLACEMENT + ToValid(s[n..], false)
  {
    hide *;
    NoneStartsAfter(s, n);
    RunBegins(s);
    RunShowsNothing(s[1..], n - 1);
    if n == |s| {
      NothingAfter(s);
    }
    RunEnds(s[n..]);
  }

  lemma NothingAfter(s: seq<byte>)
    ensures s[|s|..] == []
  {
  }

  lemma RunBegins(s: seq<byte>)
    requires s != [] && !StartsWithChar(s)
    ensures ToValid(s, false) == REPLACEMENT + ToValid(s[1..], true)
  {
    hide StartsWithChar;
  }

  lemma RunEnds(s: seq<byte>)
    requires s == [] || StartsWithChar(s)
    ensures ToValid(s, true) == ToValid(s, false)
  {
  }

  lemma {:induction false} ToValidMends(s: seq<byte>, pieces: seq<Piece>)
    requires MadeOf(s, pieces)
    ensures ToValid(s) == Mended(pieces)
    decreases |pieces|
  {
    if pieces != [] {
      var bytes := pieces[0].bytes;
      var rest := s[|bytes|..];
      assert s == bytes + rest;
      ToValidMends(rest, pieces[1..]);
      hide ToValid, Valid, StartsWithChar;
      if pieces[0].Text? {
        TextIsKept(bytes, rest, false);
      } else {
        RunIsMended(s, |bytes|);
      }
    }
  }

  /** The longest text a sequence starts with. */
  function TextLength(s: seq<byte>): (n: nat)
    ensures n <= |s| && !StartsWithChar(s[n..])
  {
    if StartsWithChar(s) then
      var n := Width(s[0]) + TextLength(s[Width(s[0])..]);
      assert s[n..] == s[Width(s[0])..][n - Width(s[0])..];
      n
    else
      assert s[0..] == s;
      0
  }

  lemma {:induction false} TextLengthIsText(s: seq<byte>)
    ensures Valid(s[..TextLength(s)]) && (StartsWithChar(s) ==> TextLength(s) > 0)
  {
    if StartsWithChar(s) {
      var w := Width(s[0]);
      var c, rest, n := s[..w], s[w..], TextLength(s[w..]);
      assert IsChar(c) && TextLength(s) == w + n;
      TextLengthIsText(rest);
      hide *;
      TakenAfter(s, w, n);
      ValidPrepend(c, rest[..n]);
    }
  }

  lemma TakenAfter(s: seq<byte>, w: nat, n: nat)
    requires w + n <= |s|
    ensures s[..w + n] == s[..w] + s[w..][..n]
  {
  }

  /** The longest run a sequence starts with in which no character starts. */
  ghost function BrokenLength(s: seq<byte>): (n: nat)
    ensures NoneStarts(s, n) && (n == |s| || StartsWithChar(s[n..]))
  {
    if s == [] || StartsWithChar(s) then
      assert s[0..] == s;
      0
    else
      NoneStartsBefore(s, BrokenLength(s[1..]));
      1 + BrokenLength(s[1..])
  }

  lemma {:induction false} HasPieces(s: seq<byte>) returns (pieces: seq<Piece>)
    ensures MadeOf(s, pieces)
    decreases |s|
  {
    if s == [] {
      return [];
    }
    var n := if StartsWithChar(s) then TextLength(s) else BrokenLength(s);
    TextLengthIsText(s);
    assert n > 0;
    var piece := if StartsWithChar(s) then Text(s[..n]) else Broken(s[..n]);
    var rest := HasPieces(s[n..]);
    pieces := [piece] + rest;
    assert pieces[1..] == rest;
    hide Valid, StartsWithChar;
    assert |piece.bytes| == n && (n == |s| ==> s[..n] == s);
  }

  /** What any bytes are handed out as: the one text made of their pieces, every character among them as it is. */
  lemma {:induction false} ToValidMendsPieces(text: seq<byte>, s: seq<byte>)
    ensures HandedOutFor(text, s) <==> text == ToValid(s)
  {
    var pieces := HasPieces(s);
    ToValidMends(s, pieces);
    hide MadeOf, Mended, ToValid;
    if HandedOutFor(text, s) {
      var other :| MadeOf(s, other) && text == Mended(other);
      ToValidMends(s, other);
    }
  }

  /** A place where `s` may be cut without cutting a character. */
  ghost predicate Boundary(s: seq<byte>, i: int) {
    0 <= i <= |s| && Valid(s[..i]) && Valid(s[i..])
  }

  lemma PrependSlices(c: seq<byte>, rest: seq<byte>, i: nat)
    requires i <= |rest|
    ensures (c + rest)[..|c| + i] == c + rest[..i] && (c + rest)[|c| + i..] == rest[i..]
  {
  }

  lemma BoundaryPrepend(c: seq<byte>, rest: seq<byte>, i: nat)
    requires IsChar(c) && Boundary(rest, i)
    ensures Boundary(c + rest, |c| + i)
  {
    hide Valid, IsChar;
    PrependSlices(c, rest, i);
    ValidPrepend(c, rest[..i]);
  }

  lemma StartsAtBoundary(s: seq<byte>, i: nat)
    requires Boundary(s, i) && i < |s|
    ensures RuneStart(s[i])
  {
    assert s[i..][0] == s[i];
    assert StartsWithChar(s[i..]);
  }

  lemma WholeIsBoundary(s: seq<byte>)
    requires Valid(s)
    ensures Boundary(s, 0) && Boundary(s, |s|)
  {
    assert s[..0] == [] && s[0..] == s && s[..|s|] == s && s[|s|..] == [];
  }

  /** In valid text the boundaries are the rune starts and the end. */
  lemma {:induction false} BoundaryIsRuneStart(s: seq<byte>, i: nat)
    requires Valid(s) && i <= |s|
    ensures Boundary(s, i) <==> i == |s| || RuneStart(s[i])
  {
    WholeIsBoundary(s);
    if 0 < i < |s| {
      if RuneStart(s[i]) {
        var c, rest := FirstChar(s);
        NoStartInside(c);
        hide Boundary, Valid, IsChar;
        BoundaryIsRuneStart(rest, i - |c|);
        BoundaryPrepend(c, rest, i - |c|);
      } else {
        hide Valid;
        if Boundary(s, i) {
          StartsAtBoundary(s, i);
        }
      }
    }
  }

  lemma NoStartInside(c: seq<byte>)
    requires IsChar(c)
    ensures forall j :: 0 < j < |c| ==> !RuneStart(c[j])
  {
  }

  /** `s` holds a whole character at `at`. */
  ghost predicate CharHere(s: seq<byte>, at: nat) {
    && at < |s|
    && StartsWithChar(s[at..])
    && Boundary(s, at)
    && Boundary(s, at + Width(s[at]))
  }

  lemma InsideIsNoStart(s: seq<byte>, at: nat, j: nat)
    requires at < |s| && StartsWithChar(s[at..]) && at < j < at + Width(s[at])
    ensures !RuneStart(s[j])
  {
    assert s[j] == s[at..][j - at];
  }

  lemma FirstCharIsHere(c: seq<byte>, rest: seq<byte>)
    requires IsChar(c) && Valid(rest)
    ensures CharHere(c + rest, 0) && Width((c + rest)[0]) == |c|
  {
    var s := c + rest;
    ValidPrepend(c, rest);
    ValidPrepend(c, []);
    WholeIsBoundary(s);
    assert c + [] == c && s[..|c|] == c && s[|c|..] == rest && s[0..] == s;
    hide Valid;
  }

  lemma CharAfterFirst(c: seq<byte>, rest: seq<byte>, p: nat)
    requires IsChar(c) && CharHere(rest, p)
    ensures CharHere(c + rest, |c| + p) && (c + rest)[|c| + p] == rest[p]
  {
    hide Boundary, Valid, IsChar, StartsWithChar, Width;
    PrependSlices(c, rest, p);
    BoundaryPrepend(c, rest, p);
    BoundaryPrepend(c, rest, p + Width(rest[p]));
  }

  /** The character that covers position `k` of valid text. */
  lemma {:induction false} CharAt(s: seq<byte>, k: nat) returns (at: nat)
    requires Valid(s) && k < |s|
    ensures CharHere(s, at) && at <= k < at + Width(s[at])
    decreases |s|
  {
    hide *;
    var c, rest := Headed(s);
    if k < |c| {
      at := 0;
      FirstCharIsHere(c, rest);
    } else {
      var p := CharAt(rest, k - |c|);
      at := |c| + p;
      CharAfterFirst(c, rest, p);
    }
  }

  lemma Headed(s: seq<byte>) returns (c: seq<byte>, rest: seq<byte>)
    requires Valid(s) && s != []
    ensures s == c + rest && IsChar(c) && Valid(rest) && |c| > 0
  {
    c, rest := FirstChar(s);
  }

  /** The last rune start of `b`, -1 without one. */
  function LastStart(b: seq<byte>): (at: int)
    ensures -1 <= at < |b|
    ensures at >= 0 ==> RuneStart(b[at])
    ensures forall j :: at < j < |b| ==> !RuneStart(b[j])
  {
    if b == [] then -1
    else if RuneStart(b[|b| - 1]) then |b| - 1
    else
      var at := LastStart(b[..|b| - 1]);
      assert forall j :: at < j < |b| - 1 ==> b[..|b| - 1][j] == b[j];
      at
  }

  /** The first rune start of `b`, its length without one. */
  function FirstStart(b: seq<byte>): (at: nat)
    ensures at <= |b|
    ensures at < |b| ==> RuneStart(b[at])
    ensures forall j :: 0 <= j < at ==> !RuneStart(b[j])
  {
    if b == [] || RuneStart(b[0]) then 0
    else
      var at := FirstStart(b[1..]);
      assert forall j :: 1 <= j < 1 + at ==> b[j] == b[1..][j - 1];
      1 + at
  }

  /** Where a head is cut: before its last character when that has begun within the last four bytes and is unfinished. */
  function HeadCut(b: seq<byte>): (cut: nat)
    ensures |b| - 3 <= cut <= |b|
  {
    var at := LastStart(b);
    if at < 0 || |b| - at > 4 || FullRune(b[at..]) then |b| else at
  }

  /** Where a tail is cut: at its first rune start, if that is among the first four bytes. */
  function TailCut(b: seq<byte>): (cut: nat)
    ensures cut <= |b| && cut <= 3
  {
    var at := FirstStart(b);
    if at < 4 && at < |b| then at else 0
  }

  const UTF_MAX := 4

  method WholeHead(b: seq<byte>) returns (r: seq<byte>)
    ensures r == b[..HeadCut(b)]
  {
    var back := 1;
    while back <= UTF_MAX && back <= |b|
      invariant 1 <= back <= UTF_MAX + 1 && back <= |b| + 1
      invariant forall j :: |b| - back < j < |b| ==> !RuneStart(b[j])
    {
      var at := |b| - back;
      if RuneStart(b[at]) {
        assert LastStart(b) == at;
        if !FullRune(b[at..]) {
          return b[..at];
        }
        break;
      }
      back := back + 1;
    }
    return b;
  }

  method WholeTail(b: seq<byte>) returns (r: seq<byte>)
    ensures r == b[TailCut(b)..]
  {
    var skip := 0;
    while skip < UTF_MAX && skip < |b|
      invariant 0 <= skip <= UTF_MAX && skip <= |b|
      invariant forall j :: 0 <= j < skip ==> !RuneStart(b[j])
    {
      if RuneStart(b[skip]) {
        assert FirstStart(b) == skip;
        return b[skip..];
      }
      skip := skip + 1;
    }
    assert FirstStart(b) >= skip;
    return b;
  }

  /** The head kept of valid text ends at the last boundary that fits, which is at most three bytes back. */
  lemma {:induction false} HeadCutIsLastBoundary(s: seq<byte>, k: nat)
    requires Valid(s) && k <= |s|
    ensures var j := HeadCut(s[..k]);
            k - 3 <= j <= k && Boundary(s, j) && forall i :: j < i <= k ==> !Boundary(s, i)
  {
    if k == 0 {
      BoundaryIsRuneStart(s, 0);
    } else {
      var at := CharAt(s, k - 1);
      HeadCutOfChar(s, at, k);
      forall i | at < i < at + Width(s[at]) ensures !Boundary(s, i) {
        InsideIsNoStart(s, at, i);
        BoundaryIsRuneStart(s, i);
      }
    }
  }

  /** A head that ends with its last character keeps it; one that ends inside it gives it up. */
  lemma HeadCutOfChar(s: seq<byte>, at: nat, k: nat)
    requires at < k <= |s| && StartsWithChar(s[at..]) && k <= at + Width(s[at])
    ensures HeadCut(s[..k]) == if k == at + Width(s[at]) then k else at
  {
    var b := s[..k];
    forall j | at < j < k ensures !RuneStart(b[j]) {
      InsideIsNoStart(s, at, j);
    }
    assert s[at..][0] == b[at];
    assert LastStart(b) == at;
    assert b[at..] == s[at..][..k - at];
    PartIsFullWhenWhole(s[at..], k - at);
  }

  lemma PartIsFullWhenWhole(c: seq<byte>, n: nat)
    requires StartsWithChar(c) && 0 < n <= Width(c[0])
    ensures FullRune(c[..n]) <==> n == Width(c[0])
  {
  }

  /** A beginning of a character, but not all of it. */
  ghost predicate Unfinished(p: seq<byte>) {
    p != [] && exists c :: IsChar(c) && p < c
  }

  /** The bytes that make a whole character of one begun. */
  function Finish(p: seq<byte>): (c: seq<byte>)
    requires p != [] && |p| < Width(p[0])
    ensures p < c && |c| == Width(p[0])
  {
    var second: byte := if p[0] == 0xE0 then 0xA0 else if p[0] == 0xF0 then 0x90 else 0x80;
    var filled := if |p| == 1 then p + [second] else p;
    if |filled| == Width(p[0]) then filled
    else if |filled| + 1 == Width(p[0]) then filled + [0x80]
    else filled + [0x80, 0x80]
  }

  /** What is no full rune is just what more bytes can make a character of. */
  lemma {:induction false} FullRuneIff(p: seq<byte>)
    requires p != []
    ensures FullRune(p) <==> !Unfinished(p)
  {
    if Unfinished(p) {
      var c :| IsChar(c) && p < c;
      assert c[..|p|] == p;
      PartIsFullWhenWhole(c, |p|);
    } else if !FullRune(p) {
      assert IsChar(Finish(p));
    }
  }

  lemma UnfinishedHasStart(p: seq<byte>)
    requires Unfinished(p)
    ensures |p| < 4 && RuneStart(p[0]) && forall k :: 0 < k < |p| ==> !RuneStart(p[k])
  {
    var c :| IsChar(c) && p < c;
    NoStartInside(c);
  }

  /** Of any bytes the head gives up just the unfinished character they end with, if there is one. */
  lemma {:induction false} HeadCutGivesUpUnfinished(b: seq<byte>, i: nat)
    requires i <= |b|
    ensures HeadCut(b) == |b| || Unfinished(b[HeadCut(b)..])
    ensures i < |b| && Unfinished(b[i..]) ==> HeadCut(b) == i
  {
    var at := LastStart(b);
    if at >= 0 {
      FullRuneIff(b[at..]);
    }
    if i < |b| && Unfinished(b[i..]) {
      UnfinishedHasStart(b[i..]);
      assert forall k :: 0 < k < |b| - i ==> b[i..][k] == b[i + k];
      assert at == i;
    }
  }

  /** Of any bytes the tail gives up the continuation bytes before the first rune start, when that is among the first four. */
  lemma {:induction false} TailCutSkipsContinuations(b: seq<byte>)
    ensures var cut := TailCut(b);
            && cut <= 3 && (forall k :: 0 <= k < cut ==> !RuneStart(b[k]))
            && (if exists k :: 0 <= k < 4 && k < |b| && RuneStart(b[k]) then cut < |b| && RuneStart(b[cut]) else cut == 0)
  {
    if k :| 0 <= k < 4 && k < |b| && RuneStart(b[k]) {
      assert FirstStart(b) <= k;
    }
  }

  /** Among any four bytes of valid text one starts a character. */
  lemma StartWithinFour(s: seq<byte>, k: nat) returns (start: nat)
    requires Valid(s) && k + 4 <= |s|
    ensures k <= start <= k + 3 && RuneStart(s[start])
    ensures forall i :: k <= i < start ==> !RuneStart(s[i])
  {
    var at := CharAt(s, k);
    var end := at + Width(s[at]);
    start := if at == k then k else end;
    BoundaryIsRuneStart(s, start);
    forall i | at < i < end ensures !RuneStart(s[i]) {
      InsideIsNoStart(s, at, i);
    }
  }

  lemma TailCutAt(b: seq<byte>, cut: nat)
    requires cut <= 3 && cut < |b| && RuneStart(b[cut])
    requires forall i :: 0 <= i < cut ==> !RuneStart(b[i])
    ensures TailCut(b) == cut
  {
    assert FirstStart(b) == cut;
  }

  /** The tail kept of valid text begins at the first boundary, at most three bytes on, when four bytes are there to look at. */
  lemma {:induction false} TailCutIsFirstBoundary(s: seq<byte>, k: nat)
    requires Valid(s) && k + 4 <= |s|
    ensures var j := k + TailCut(s[k..]);
            k <= j <= k + 3 && Boundary(s, j) && forall i :: k <= i < j ==> !Boundary(s, i)
  {
    var start := StartWithinFour(s, k);
    TailCutAt(s[k..], start - k);
    BoundaryIsRuneStart(s, start);
    forall i | k <= i < start ensures !Boundary(s, i) {
      BoundaryIsRuneStart(s, i);
    }
  }
}
