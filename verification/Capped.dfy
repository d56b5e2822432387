/**
 The bounded output buffer of the runner, `capped`: it keeps the head and the tail of an unbounded
 stream and counts what lies between. `SnapshotOf` says what it must show in terms of the whole stream;
 the class keeps only a bounded part of that stream, trimmed lazily, and is proved to show the same.
 */
module Capped {
  import opened Utf8

  /** What a buffer is made to keep: `max` bytes, or its head alone. The runner refuses a negative `max`. */
  datatype Shape = Shape(max: nat, headOnly: bool) {
    function HeadRoom(): nat {
      if headOnly then max else max / 2
    }
    function TailRoom(): nat {
      if headOnly then 0 else max - max / 2
    }
  }

  datatype Output = Output(text: seq<byte>, tail: seq<byte>, omitted: nat)

  /** A buffer seen from outside: all that was written before it was frozen, and whether it was. */
  datatype Held = Held(written: seq<byte>, frozen: bool) {
    function Write(p: seq<byte>): Held {
      if frozen then this else this.(written := written + p)
    }
    function Freeze(): Held {
      this.(frozen := true)
    }
  }

  function Min(a: nat, b: nat): nat {
    if a < b then a else b
  }

  /** The first bytes kept, before any character is made whole. */
  function RawHead(s: seq<byte>, shape: Shape): seq<byte> {
    s[..Min(|s|, shape.HeadRoom())]
  }

  /** The last bytes kept, of those past the head. */
  function RawTail(s: seq<byte>, shape: Shape): seq<byte> {
    s[|s| - Min(shape.TailRoom(), |s| - |RawHead(s, shape)|)..]
  }

  function RawOmitted(s: seq<byte>, shape: Shape): nat {
    |s| - |RawHead(s, shape)| - |RawTail(s, shape)|
  }

  /** Where the omitted middle begins and ends, once both cuts are moved to whole characters. */
  function MiddleStart(s: seq<byte>, shape: Shape): nat {
    HeadCut(RawHead(s, shape))
  }

  function MiddleEnd(s: seq<byte>, shape: Shape): (end: nat)
    ensures MiddleStart(s, shape) + RawOmitted(s, shape) <= end <= |s|
  {
    |s| - |RawTail(s, shape)| + TailCut(RawTail(s, shape))
  }

  /** What a buffer that was written `h.written` shows. */
  function SnapshotOf(h: Held, shape: Shape): Output {
    var s := h.written;
    if h.frozen then Output([], [], |s|)
    else if RawOmitted(s, shape) == 0 then Output(ToValid(s), [], 0)
    else if shape.headOnly then Output(ToValid(RawHead(s, shape)), [], RawOmitted(s, shape))
    else
      var start, end := MiddleStart(s, shape), MiddleEnd(s, shape);
      Output(ToValid(s[..start]), ToValid(s[end..]), end - start)
  }

  function Concat(chunks: seq<seq<byte>>): seq<byte> {
    if chunks == [] then [] else Concat(chunks[..|chunks| - 1]) + chunks[|chunks| - 1]
  }

  predicate IsSuffix(t: seq<byte>, s: seq<byte>) {
    |t| <= |s| && t == s[|s| - |t|..]
  }

  /** The head and the lagging tail a buffer holds of the stream `s`, between its trims. */
  predicate Keeps(head: seq<byte>, tail: seq<byte>, s: seq<byte>, shape: Shape) {
    && head == RawHead(s, shape)
    && IsSuffix(tail, s)
    && Min(shape.TailRoom(), |s| - |head|) <= |tail| <= |s| - |head|
  }

  lemma HeadGrows(s: seq<byte>, p: seq<byte>, shape: Shape)
    ensures RawHead(s + p, shape) == RawHead(s, shape) + p[..Taken(RawHead(s, shape), p, shape)]
  {
  }

  lemma SuffixGrows(t: seq<byte>, s: seq<byte>, r: seq<byte>, p: seq<byte>)
    requires IsSuffix(t, s) && IsSuffix(r, p) && (t == [] || r == p)
    ensures IsSuffix(t + r, s + p)
  {
  }

  lemma SuffixOfSuffix(t: seq<byte>, s: seq<byte>, n: nat)
    requires IsSuffix(t, s) && n <= |t|
    ensures IsSuffix(t[|t| - n..], s) && t[|t| - n..] == s[|s| - n..]
  {
  }

  /** How much of a write the head takes. */
  function Taken(head: seq<byte>, p: seq<byte>, shape: Shape): (n: nat)
    ensures n <= |p|
  {
    if |head| < shape.HeadRoom() then Min(shape.HeadRoom() - |head|, |p|) else 0
  }

  function LastOf(s: seq<byte>, n: nat): seq<byte> {
    if |s| > n then s[|s| - n..] else s
  }

  lemma HeadKeeps(head: seq<byte>, tail: seq<byte>, s: seq<byte>, p: seq<byte>, shape: Shape)
    requires Keeps(head, tail, s, shape)
    ensures var taken := Taken(head, p, shape);
            head + p[..taken] == RawHead(s + p, shape) && (taken == 0 || tail == [])
  {
    HeadGrows(s, p, shape);
  }

  /** The tail after a write of `rest` past the head: trimmed to its room once it holds more than twice that. */
  function TailAfter(tail: seq<byte>, rest: seq<byte>, room: nat): seq<byte> {
    if room == 0 || rest == [] then tail
    else if |tail + rest| > 2 * room then LastOf(tail + rest, room)
    else tail + rest
  }

  lemma WriteKeeps(head: seq<byte>, tail: seq<byte>, s: seq<byte>, p: seq<byte>, shape: Shape)
    requires Keeps(head, tail, s, shape) && |tail| <= 2 * shape.TailRoom()
    ensures var taken, room := Taken(head, p, shape), shape.TailRoom();
            var after := TailAfter(tail, p[taken..], room);
            Keeps(head + p[..taken], after, s + p, shape) && |after| <= 2 * room
  {
    hide RawHead, IsSuffix, Taken, Shape.HeadRoom, Shape.TailRoom;
    var taken, room := Taken(head, p, shape), shape.TailRoom();
    var rest := p[taken..];
    HeadKeeps(head, tail, s, p, shape);
    RawHeadLength(s, shape);
    RestIsSuffix(p, taken);
    SuffixGrows(tail, s, rest, p);
    if room == 0 {
      assert tail == [];
      NoTailIsSuffix(s + p);
    } else if rest == [] {
      assert tail + rest == tail;
    } else if |tail + rest| > 2 * room {
      SuffixOfSuffix(tail + rest, s + p, room);
    }
  }

  lemma RestIsSuffix(p: seq<byte>, taken: nat)
    requires taken <= |p|
    ensures IsSuffix(p[taken..], p)
  {
  }

  lemma NoTailIsSuffix(s: seq<byte>)
    ensures IsSuffix([], s)
  {
  }

  lemma RawHeadLength(s: seq<byte>, shape: Shape)
    ensures |RawHead(s, shape)| == Min(|s|, shape.HeadRoom())
  {
  }

  /** What a snapshot makes of the two pieces kept. */
  function Shown(head: seq<byte>, tail: seq<byte>, total: nat, shape: Shape): Output
    requires |head| + |tail| <= total
  {
    var omitted := total - |head| - |tail|;
    if omitted == 0 then Output(ToValid(head + tail), [], 0)
    else if shape.headOnly then Output(ToValid(head), [], omitted)
    else Output(ToValid(head[..HeadCut(head)]), ToValid(tail[TailCut(tail)..]), omitted + |head| - HeadCut(head) + TailCut(tail))
  }

  lemma ShownIsSnapshot(head: seq<byte>, tail: seq<byte>, s: seq<byte>, shape: Shape)
    requires Keeps(head, tail, s, shape)
    ensures |head| + |LastOf(tail, shape.TailRoom())| <= |s|
    ensures Shown(head, LastOf(tail, shape.TailRoom()), |s|, shape) == SnapshotOf(Held(s, false), shape)
  {
    hide ToValid, HeadCut, TailCut;
    SuffixOfSuffix(tail, s, |LastOf(tail, shape.TailRoom())|);
    PiecesAreCuts(s, shape);
  }

  lemma PieceOfPrefix(s: seq<byte>, n: nat, cut: nat)
    requires cut <= n <= |s|
    ensures s[..n][..cut] == s[..cut]
  {
  }

  lemma PieceOfSuffix(s: seq<byte>, n: nat, cut: nat)
    requires n + cut <= |s|
    ensures s[n..][cut..] == s[n + cut..]
  {
  }

  lemma PiecesAreCuts(s: seq<byte>, shape: Shape)
    ensures RawHead(s, shape)[..HeadCut(RawHead(s, shape))] == s[..MiddleStart(s, shape)]
    ensures RawTail(s, shape)[TailCut(RawTail(s, shape))..] == s[MiddleEnd(s, shape)..]
    ensures RawOmitted(s, shape) == 0 ==> RawHead(s, shape) + RawTail(s, shape) == s
  {
    var h, t := |RawHead(s, shape)|, |s| - |RawTail(s, shape)|;
    PieceOfPrefix(s, h, HeadCut(RawHead(s, shape)));
    PieceOfSuffix(s, t, TailCut(RawTail(s, shape)));
    assert s[..h] + s[h..] == s;
    hide HeadCut, TailCut, Shape.HeadRoom, Shape.TailRoom;
  }

  lemma FrozenShowsNothing(s: seq<byte>, shape: Shape)
    ensures Shown([], [], |s|, shape) == Output([], [], |s|) == SnapshotOf(Held(s, true), shape)
  {
    assert HeadCut([]) == 0 && TailCut([]) == 0 && ToValid([]) == [];
  }

  class Capped {
    const shape: Shape
    var head: seq<byte>
    var tail: seq<byte>
    var total: nat
    var frozen: bool
    ghost var written: seq<byte>

    /** Between writes the tail holds no more than twice its room. */
    ghost predicate Valid()
      reads this
    {
      && total == |written|
      && (frozen ==> head == [] && tail == [])
      && (!frozen ==> Keeps(head, tail, written, shape) && |tail| <= 2 * shape.TailRoom())
    }

    ghost function View(): Held
      reads this
    {
      Held(written, frozen)
    }

    constructor (shape: Shape)
      ensures Valid() && this.shape == shape && View() == Held([], false)
    {
      this.shape := shape;
      head, tail, total, frozen := [], [], 0, false;
      written := [];
    }

    method Write(p: seq<byte>) returns (n: nat)
      requires Valid()
      modifies this
      ensures Valid() && View() == old(View()).Write(p) && n == |p|
    {
      if frozen {
        return |p|;
      }
      hide Keeps, SnapshotOf, Taken, TailAfter;
      WriteKeeps(head, tail, written, p, shape);
      total := total + |p|;
      written := written + p;
      var taken := FillHead(p);
      FillTail(p[taken..]);
      n := |p|;
    }

    /** The head takes what it has room for. */
    method FillHead(p: seq<byte>) returns (taken: nat)
      modifies `head
      ensures taken == Taken(old(head), p, shape) && head == old(head) + p[..taken]
    {
      taken := 0;
      var room := shape.HeadRoom() - |head|;
      if room > 0 {
        taken := Min(room, |p|);
      }
      head := head + p[..taken];
    }

    /** The tail takes the rest, and is trimmed lazily. */
    method FillTail(rest: seq<byte>)
      modifies `tail
      ensures tail == TailAfter(old(tail), rest, shape.TailRoom())
    {
      var tailRoom := shape.TailRoom();
      if tailRoom > 0 && |rest| > 0 {
        tail := tail + rest;
        if |tail| > 2 * tailRoom {
          tail := tail[|tail| - tailRoom..];
        }
      }
    }

    method Snapshot() returns (out: Output)
      requires Valid()
      ensures out == SnapshotOf(View(), shape)
    {
      hide ToValid, HeadCut, TailCut, SnapshotOf, Keeps;
      var shown := tail;
      var room := shape.TailRoom();
      if |shown| > room {
        shown := shown[|shown| - room..];
      }
      if frozen {
        FrozenShowsNothing(written, shape);
      } else {
        ShownIsSnapshot(head, tail, written, shape);
      }
      assert Shown(head, shown, total, shape) == SnapshotOf(View(), shape);
      var omitted := total - |head| - |shown|;
      if omitted == 0 {
        return Output(ToValid(head + shown), [], 0);
      }
      if shape.headOnly {
        return Output(ToValid(head), [], omitted);
      }
      var keptHead := WholeHead(head);
      var keptTail := WholeTail(shown);
      omitted := omitted + (|head| - |keptHead|) + (|shown| - |keptTail|);
      return Output(ToValid(keptHead), ToValid(keptTail), omitted);
    }

    method Freeze()
      requires Valid()
      modifies this
      ensures Valid() && View() == old(View()).Freeze()
    {
      frozen := true;
      head := [];
      tail := [];
    }

    method Take() returns (out: Output)
      requires Valid()
      modifies this
      ensures Valid() && View() == old(View()).Freeze()
      ensures out == SnapshotOf(old(View()), shape)
    {
      out := Snapshot();
      Freeze();
    }

    /** Reads until the writers are gone, whatever the sizes of the reads. */
    method Drain(pieces: seq<seq<byte>>)
      requires Valid()
      modifies this
      ensures Valid() && View() == old(View()).Write(Concat(pieces))
    {
      assert View() == old(View()).Write([]) by {
        assert written + [] == written;
      }
      for i := 0 to |pieces|
        invariant Valid() && View() == old(View()).Write(Concat(pieces[..i]))
      {
        assert pieces[..i + 1][..i] == pieces[..i];
        if |pieces[i]| > 0 {
          var _ := Write(pieces[i]);
        } else {
          assert Concat(pieces[..i + 1]) == Concat(pieces[..i]);
        }
      }
      assert pieces[..|pieces|] == pieces;
    }
  }

  /** A buffer fed in any chunks shows what the whole stream shows: its chunking leaves no trace. */
  method KeepStream(shape: Shape, pieces: seq<seq<byte>>) returns (out: Output)
    ensures out == SnapshotOf(Held(Concat(pieces), false), shape)
  {
    var buffer := new Capped(shape);
    buffer.Drain(pieces);
    assert [] + Concat(pieces) == Concat(pieces);
    out := buffer.Snapshot();
  }

  /** Whatever was written, both pieces shown are valid UTF-8. */
  lemma {:induction false} SnapshotIsValid(h: Held, shape: Shape)
    ensures Utf8.Valid(SnapshotOf(h, shape).text) && Utf8.Valid(SnapshotOf(h, shape).tail)
  {
    var s := h.written;
    ToValidIsValid(s, false);
    ToValidIsValid(RawHead(s, shape), false);
    ToValidIsValid(s[..MiddleStart(s, shape)], false);
    ToValidIsValid(s[MiddleEnd(s, shape)..], false);
    assert Utf8.Valid([]);
    hide Utf8.Valid, ToValid, HeadCut, TailCut;
  }

  /**
   The pieces kept and the pieces omitted are the stream, for any bytes and either kind of buffer: all of it in the text when
   it fits, else its two ends; what a head keeps but an unfinished character, and a tail but the bytes before the first rune
   start of its first four, is handed out, every character of it as it is.
   */
  lemma {:induction false} SnapshotConserves(s: seq<byte>, shape: Shape)
    ensures exists i: nat, j: nat :: ShowsEnds(s, shape, SnapshotOf(Held(s, false), shape), i, j)
  {
    var out := SnapshotOf(Held(s, false), shape);
    hide HeadCut, TailCut, ToValid;
    assert RawOmitted(s, shape) == 0 <==> |s| <= shape.max;
    if |s| <= shape.max {
      EndsAreHandedOut(s, |s|, |s|);
      assert ShowsEnds(s, shape, out, |s|, |s|);
    } else if shape.headOnly {
      EndsAreHandedOut(s, shape.max, |s|);
      assert ShowsEnds(s, shape, out, shape.max, |s|);
    } else {
      EndsAreCut(s, shape);
      EndsAreHandedOut(s, MiddleStart(s, shape), MiddleEnd(s, shape));
      hide HeadEnds, TailBegins, HandedOutFor;
      assert ShowsEnds(s, shape, out, MiddleStart(s, shape), MiddleEnd(s, shape));
    }
  }

  /** The output shows the stream up to `i` and from `j`, and counts what lies between; `i` and `j` are as far as there is room. */
  ghost predicate ShowsEnds(s: seq<byte>, shape: Shape, out: Output, i: nat, j: nat) {
    && i <= j <= |s| && out.omitted == j - i
    && HandedOutFor(out.text, s[..i]) && HandedOutFor(out.tail, s[j..])
    && var max := shape.max;
       if |s| <= max then i == |s|
       else if shape.headOnly then i == max && j == |s|
       else HeadEnds(s, max / 2, i) && TailBegins(s, |s| - (max - max / 2), j)
  }

  lemma EndsAreHandedOut(s: seq<byte>, i: nat, j: nat)
    requires i <= j <= |s|
    ensures HandedOutFor(ToValid(s[..i]), s[..i]) && HandedOutFor(ToValid(s[j..]), s[j..])
    ensures s[..|s|] == s && s[|s|..] == [] && ToValid([]) == []
  {
    ToValidMendsPieces(ToValid(s[..i]), s[..i]);
    ToValidMendsPieces(ToValid(s[j..]), s[j..]);
    hide HandedOutFor;
  }

  /** A head of `h` bytes ends at `i`: at its last byte, but for the unfinished character it ends with. */
  ghost predicate HeadEnds(s: seq<byte>, h: nat, i: nat) {
    && i <= h <= |s| && h <= i + 3
    && (i < h ==> Unfinished(s[i..h]))
    && forall b :: 0 <= b < h && Unfinished(s[b..h]) ==> i == b
  }

  /** A tail from `k` begins at `j`: at the first rune start of its first four bytes, if there is one. */
  ghost predicate TailBegins(s: seq<byte>, k: nat, j: nat) {
    && k <= j <= |s| && j <= k + 3
    && (forall b :: k <= b < j ==> !RuneStart(s[b]))
    && (if exists b :: k <= b < k + 4 && b < |s| && RuneStart(s[b]) then j < |s| && RuneStart(s[j]) else j == k)
  }

  lemma EndsAreCut(s: seq<byte>, shape: Shape)
    requires |s| > shape.max && !shape.headOnly
    ensures HeadEnds(s, shape.max / 2, MiddleStart(s, shape))
    ensures TailBegins(s, |s| - (shape.max - shape.max / 2), MiddleEnd(s, shape))
  {
    var h, k := shape.max / 2, |s| - (shape.max - shape.max / 2);
    assert RawHead(s, shape) == s[..h] && RawTail(s, shape) == s[k..];
    HeadCutEnds(s, h);
    TailCutBegins(s, k);
    hide HeadCut, TailCut, HeadEnds, TailBegins;
  }

  lemma HeadCutEnds(s: seq<byte>, h: nat)
    requires h <= |s|
    ensures HeadEnds(s, h, HeadCut(s[..h]))
  {
    var b, i := s[..h], HeadCut(s[..h]);
    HeadCutGivesUpUnfinished(b, 0);
    hide HeadCut, Unfinished;
    assert b[i..] == s[i..h];
    forall k: nat | k < h && Unfinished(s[k..h]) ensures i == k {
      assert b[k..] == s[k..h];
      HeadCutGivesUpUnfinished(b, k);
    }
  }

  lemma TailCutBegins(s: seq<byte>, k: nat)
    requires k <= |s|
    ensures TailBegins(s, k, k + TailCut(s[k..]))
  {
    var t := s[k..];
    TailCutSkipsContinuations(t);
    hide TailCut;
    assert forall b :: k <= b < |s| ==> s[b] == t[b - k];
    if b :| k <= b < k + 4 && b < |s| && RuneStart(s[b]) {
      assert RuneStart(t[b - k]);
    }
  }

  /** `out` shows the two ends of `s` and counts the rest, with no character cut. */
  ghost predicate Faithful(s: seq<byte>, out: Output) {
    && |out.text| + out.omitted + |out.tail| == |s|
    && out.text == s[..|out.text|]
    && out.tail == s[|s| - |out.tail|..]
    && Valid(out.text)
    && Valid(out.tail)
    && Valid(s[|out.text|..|s| - |out.tail|])
  }

  lemma HeadCutOfRunning(s: seq<byte>, more: seq<byte>, h: nat)
    requires Valid(s + more) && h <= |s|
    ensures var i := HeadCut(s[..h]);
            && h - 3 <= i <= h && Boundary(s + more, i) && ToValid(s[..i]) == s[..i]
            && forall b :: i < b <= h ==> !Boundary(s + more, b)
  {
    assert (s + more)[..h] == s[..h];
    HeadCutIsLastBoundary(s + more, h);
    var i := HeadCut(s[..h]);
    assert (s + more)[..i] == s[..i];
    ToValidKeepsValid(s[..i]);
  }

  lemma TailCutOfRunning(s: seq<byte>, more: seq<byte>, k: nat)
    requires Valid(s + more) && k + 4 <= |s|
    ensures var j := k + TailCut(s[k..]);
            && Boundary(s + more, j)
            && forall b :: k <= b < j ==> !Boundary(s + more, b)
  {
    var whole := s + more;
    var start := StartWithinFour(whole, k);
    forall b | 0 <= b < start - k ensures !RuneStart(s[k..][b]) {
      assert s[k..][b] == whole[k + b];
    }
    assert s[k..][start - k] == whole[start];
    TailCutAt(s[k..], start - k);
    BoundaryIsRuneStart(whole, start);
    forall b | k <= b < start ensures !Boundary(whole, b) {
      BoundaryIsRuneStart(whole, b);
    }
  }

  /**
   A command still running may have stopped in the middle of a character. Whatever comes after it, the two
   cuts fall on characters of the whole stream, neither loses more than three bytes of its room, and neither
   gives up a character it had room for.
   */
  lemma {:induction false} RunningStreamCuts(s: seq<byte>, more: seq<byte>, max: nat)
    requires Valid(s + more) && max >= 7
    requires RawOmitted(s, Shape(max, false)) > 0
    ensures var shape := Shape(max, false);
            var i, j := MiddleStart(s, shape), MiddleEnd(s, shape);
            && Boundary(s + more, i) && Boundary(s + more, j)
            && shape.HeadRoom() - 3 <= i <= shape.HeadRoom()
            && shape.TailRoom() - 3 <= |s| - j <= shape.TailRoom()
            && (forall b :: i < b <= shape.HeadRoom() ==> !Boundary(s + more, b))
            && (forall b :: |s| - shape.TailRoom() <= b < j ==> !Boundary(s + more, b))
            && SnapshotOf(Held(s, false), shape) == Output(s[..i], ToValid(s[j..]), j - i)
  {
    hide HeadCut, TailCut, ToValid, Boundary, Valid;
    var shape := Shape(max, false);
    HeadCutOfRunning(s, more, shape.HeadRoom());
    TailCutOfRunning(s, more, |s| - shape.TailRoom());
  }

  /** Valid text with an omission is shown as its own two ends, cut between characters and counted to the byte. */
  lemma {:induction false} ValidStreamSplits(s: seq<byte>, max: nat)
    requires Valid(s) && max >= 7
    ensures Faithful(s, SnapshotOf(Held(s, false), Shape(max, false)))
  {
    hide Valid, HeadCut, TailCut, ToValid;
    var shape := Shape(max, false);
    if RawOmitted(s, shape) == 0 {
      WholeIsFaithful(s);
    } else {
      assert s + [] == s;
      RunningStreamCuts(s, [], max);
      CutsAreFaithful(s, MiddleStart(s, shape), MiddleEnd(s, shape));
    }
  }

  lemma WholeIsFaithful(s: seq<byte>)
    requires Valid(s)
    ensures Faithful(s, Output(ToValid(s), [], 0))
  {
    ToValidKeepsValid(s);
  }

  lemma CutsAreFaithful(s: seq<byte>, i: nat, j: nat)
    requires Valid(s) && i <= j && Boundary(s, i) && Boundary(s, j)
    ensures Faithful(s, Output(s[..i], ToValid(s[j..]), j - i))
  {
    ToValidKeepsValid(s[j..]);
    MiddleIsValid(s, i, j);
  }

  lemma MiddleIsValid(s: seq<byte>, i: nat, j: nat)
    requires Valid(s) && i <= j && Boundary(s, i) && Boundary(s, j)
    ensures Valid(s[i..j])
  {
    hide Valid;
    var rest := s[i..];
    assert rest[..j - i] == s[i..j] && (j < |s| ==> rest[j - i] == s[j]);
    BoundaryIsRuneStart(s, j);
    hide RuneStart;
    BoundaryIsRuneStart(rest, j - i);
  }

  /** One character of four bytes, U+1F600. */
  const EMOJI: seq<byte> := [0xF0, 0x9F, 0x98, 0x80]

  /** With a tail room of one to three bytes, a tail may be continuation bytes only, which wholeTail leaves as they are. */
  lemma {:induction false} NarrowTailShowsReplacement(max: nat)
    requires 1 <= max <= 6
    ensures Valid(EMOJI + EMOJI)
    ensures !Faithful(EMOJI + EMOJI, SnapshotOf(Held(EMOJI + EMOJI, false), Shape(max, false)))
  {
    var s, shape := EMOJI + EMOJI, Shape(max, false);
    EmojisAreValid();
    var t := RawTail(s, shape);
    assert t == s[8 - shape.TailRoom()..];
    EmojiEnd(t);
    hide Valid, HeadCut, TailCut, ToValid, Width, SecondByteOk;
    NarrowTailIsKept(t);
    assert s[MiddleEnd(s, shape)..] == t;
    var out := SnapshotOf(Held(s, false), shape);
    assert out.tail == REPLACEMENT && |out.tail| == 3;
    assert s[5..][2] != REPLACEMENT[2];
  }

  /** The last bytes of the second are continuation bytes. */
  lemma EmojiEnd(t: seq<byte>)
    requires 1 <= |t| <= 3 && t == (EMOJI + EMOJI)[8 - |t|..]
    ensures forall k :: 0 <= k < |t| ==> !RuneStart(t[k])
    ensures (EMOJI + EMOJI)[5..][2] == 0x80
  {
    forall k | 0 <= k < |t| ensures !RuneStart(t[k]) {
      assert t[k] == EMOJI[4 - |t| + k];
    }
  }

  lemma EmojisAreValid()
    ensures Valid(EMOJI + EMOJI)
  {
    assert EMOJI[4..] == [] && StartsWithChar(EMOJI);
    ValidConcat(EMOJI, EMOJI);
  }

  lemma NarrowTailIsKept(t: seq<byte>)
    requires 1 <= |t| && forall k :: 0 <= k < |t| ==> !RuneStart(t[k])
    ensures TailCut(t) == 0 && ToValid(t) == REPLACEMENT
  {
    assert FirstStart(t) == |t|;
    ContinuationsShowOneReplacement(t);
  }

  lemma ContinuationsShowOneReplacement(t: seq<byte>)
    requires 1 <= |t| && forall k :: 0 <= k < |t| ==> !RuneStart(t[k])
    ensures ToValid(t) == REPLACEMENT
  {
    ContinuationsInRunShowNothing(t[1..]);
    assert ToValid(t) == REPLACEMENT + ToValid(t[1..], true);
    assert REPLACEMENT + [] == REPLACEMENT;
  }

  lemma {:induction false} ContinuationsInRunShowNothing(t: seq<byte>)
    requires forall k :: 0 <= k < |t| ==> !RuneStart(t[k])
    ensures ToValid(t, true) == []
  {
    if t != [] {
      ContinuationsInRunShowNothing(t[1..]);
    }
  }

  /** The exact condition: every valid stream is shown faithfully just when the limit is 0 or at least 7. */
  lemma {:induction false} FaithfulIffRoomForACharacter(max: nat)
    ensures (forall s | Valid(s) :: Faithful(s, SnapshotOf(Held(s, false), Shape(max, false)))) <==> max == 0 || max >= 7
  {
    hide Faithful, SnapshotOf, Valid;
    if 1 <= max <= 6 {
      NarrowTailShowsReplacement(max);
    } else {
      forall s | Valid(s) ensures Faithful(s, SnapshotOf(Held(s, false), Shape(max, false))) {
        if max == 0 {
          NoRoomShowsNothing(s);
        } else {
          ValidStreamSplits(s, max);
        }
      }
    }
  }

  lemma NoRoomShowsNothing(s: seq<byte>)
    requires Valid(s)
    ensures Faithful(s, SnapshotOf(Held(s, false), Shape(0, false)))
  {
    hide Valid, ToValid, HeadCut, TailCut, SnapshotOf, Shown, Keeps, Faithful, IsSuffix;
    NothingKept(s);
    ShownIsSnapshot([], [], s, Shape(0, false));
    FrozenShowsNothing(s, Shape(0, false));
    NothingShownIsFaithful(s);
  }

  lemma NothingKept(s: seq<byte>)
    ensures Keeps([], [], s, Shape(0, false))
  {
    hide IsSuffix;
    RawHeadLength(s, Shape(0, false));
    NoTailIsSuffix(s);
  }

  lemma NothingShownIsFaithful(s: seq<byte>)
    requires Valid(s)
    ensures Faithful(s, Output([], [], |s|))
  {
    assert Valid([]);
    assert s[..0] == [] && s[|s|..] == [] && s[0..|s|] == s;
    hide Valid;
  }

  /** A head-only buffer makes no character whole: it is faithful just when its limit falls between characters. */
  lemma {:induction false} HeadOnlyFaithfulIffBoundary(s: seq<byte>, max: nat)
    requires Valid(s) && |s| > max
    ensures Faithful(s, SnapshotOf(Held(s, false), Shape(max, true))) <==> Boundary(s, max)
  {
    var out := SnapshotOf(Held(s, false), Shape(max, true));
    assert out == Output(ToValid(s[..max]), [], |s| - max);
    ToValidKeepsValid(s[..max]);
    if Valid(s[..max]) {
      ValidPrefixIsBoundary(s, max);
      EndsAreFaithful(s, max);
    }
  }

  /** One byte of a character's four: shown as a replacement character. */
  lemma {:induction false} HeadOnlyCutsACharacter()
    ensures Valid(EMOJI) && !Faithful(EMOJI, SnapshotOf(Held(EMOJI, false), Shape(1, true)))
  {
    assert EMOJI[4..] == [] && StartsWithChar(EMOJI);
    HeadOnlyFaithfulIffBoundary(EMOJI, 1);
    hide Faithful, SnapshotOf;
    assert EMOJI[1..][0] == EMOJI[1];
    assert !Valid(EMOJI[1..]);
  }

  lemma EndsAreFaithful(s: seq<byte>, max: nat)
    requires max <= |s| && Boundary(s, max)
    ensures Faithful(s, Output(s[..max], [], |s| - max))
  {
    assert s[max..|s|] == s[max..];
  }

  lemma ValidPrefixIsBoundary(s: seq<byte>, i: nat)
    requires Valid(s) && i <= |s| && Valid(s[..i])
    ensures Boundary(s, i)
  {
    hide Valid;
    assert s == s[..i] + s[i..];
    ValidRest(s[..i], s[i..]);
  }

  /**
   What is shown of a stream and later of a longer one: the raw head only grows, the count omitted never falls,
   and once something is omitted the text before the gap no longer changes. True of any bytes.
   */
  lemma {:induction false} LaterSnapshot(a: seq<byte>, b: seq<byte>, shape: Shape)
    requires a <= b
    ensures RawHead(a, shape) <= RawHead(b, shape)
    ensures RawOmitted(a, shape) <= RawOmitted(b, shape)
    ensures var x, y := SnapshotOf(Held(a, false), shape), SnapshotOf(Held(b, false), shape);
            x.omitted <= y.omitted && (x.omitted > 0 ==> x.text == y.text)
  {
    hide HeadCut, TailCut, ToValid;
    if RawOmitted(a, shape) > 0 {
      LaterMiddle(a, b, shape);
    }
  }

  lemma LaterMiddle(a: seq<byte>, b: seq<byte>, shape: Shape)
    requires a <= b && RawOmitted(a, shape) > 0
    ensures RawHead(a, shape) == RawHead(b, shape)
    ensures MiddleStart(a, shape) == MiddleStart(b, shape)
    ensures a[..MiddleStart(a, shape)] == b[..MiddleStart(b, shape)]
    ensures !shape.headOnly ==> MiddleEnd(a, shape) <= MiddleEnd(b, shape)
  {
    hide HeadCut, TailCut;
    assert RawHead(a, shape) == RawHead(b, shape);
    if !shape.headOnly {
      LaterCutIsNoEarlier(a, b, |a| - shape.TailRoom(), |b| - shape.TailRoom());
    }
  }

  /** The tail's cut moves only forward as the stream grows. */
  lemma LaterCutIsNoEarlier(a: seq<byte>, b: seq<byte>, ka: nat, kb: nat)
    requires a <= b && ka <= kb && ka <= |a| && kb <= |b| && |a| - ka == |b| - kb
    ensures ka + TailCut(a[ka..]) <= kb + TailCut(b[kb..])
  {
    var cut := TailCut(a[ka..]);
    if ka + cut > kb {
      var at := ka + cut - kb;
      assert b[kb..][at] == a[ka..][cut];
      assert FirstStart(b[kb..]) <= at;
      forall j | 0 <= j < at ensures !RuneStart(b[kb..][j]) {
        assert b[kb..][j] == a[ka..][kb - ka + j];
      }
    }
  }
}
