/** Where a run keeps its files: the work directory, the scene, the condition and the run (`runCondition` in `run.ts`). */
module Directories {
  import opened Common
  import opened Decimal
  import opened Scene

  function Replace(s: string, from: char, to: char): string {
    if s == "" then "" else [if s[0] == from then to else s[0]] + Replace(s[1..], from, to)
  }

  /** The pieces of a string between a separator's places. */
  function Split(s: string, separator: char): (pieces: seq<string>)
    ensures |pieces| > 0
  {
    if s == "" then [""]
    else
      var n := |s| - 1;
      var before := Split(s[..n], separator);
      if s[n] == separator then before + [""] else before[..|before| - 1] + [before[|before| - 1] + [s[n]]]
  }

  /** The variant as one segment of a path. */
  function Segment(names: seq<string>): string {
    Replace(Variant(names), '/', '+')
  }

  /** The segments of an absolute path: empty ones and `.` fall away, `..` takes the one before it. */
  function Normalized(path: seq<string>): seq<string> {
    if path == [] then []
    else
      var before, last := Normalized(path[..|path| - 1]), path[|path| - 1];
      if last == "" || last == "." then before
      else if last == ".." then (if before == [] then [] else before[..|before| - 1])
      else before + [last]
  }

  function RunDirectory(work: seq<string>, scene: string, names: seq<string>, run: nat): seq<string> {
    Normalized(work + [scene, Segment(names), "run-" + Print(run)])
  }

  predicate Special(segment: string) {
    segment == "" || segment == "." || segment == ".."
  }

  predicate Plain(name: string) {
    '/' !in name && '+' !in name
  }

  // Joining and splitting.

  lemma {:induction false} PiecesLackSeparator(s: string, separator: char)
    ensures forall p <- Split(s, separator) :: separator !in p && forall c <- p :: c in s
  {
    if s != "" {
      var n := |s| - 1;
      PiecesLackSeparator(s[..n], separator);
      var before := Split(s[..n], separator);
      forall p <- Split(s, separator) ensures separator !in p && forall c <- p :: c in s {
        if p !in before && s[n] != separator {
          assert p == before[|before| - 1] + [s[n]];
        }
      }
    }
  }

  lemma {:induction false} SplitPlain(s: string, separator: char)
    requires separator !in s
    ensures Split(s, separator) == [s]
  {
    if s != "" {
      SplitPlain(s[..|s| - 1], separator);
      assert s == s[..|s| - 1] + [s[|s| - 1]];
    }
  }

  /** The pieces once one more character is read. */
  function Read(pieces: seq<string>, c: char, separator: char): seq<string>
    requires pieces != []
  {
    var n := |pieces| - 1;
    if c == separator then pieces + [""] else pieces[..n] + [pieces[n] + [c]]
  }

  lemma SplitPush(s: string, c: char, separator: char)
    ensures Split(s + [c], separator) == Read(Split(s, separator), c, separator)
  {
    assert (s + [c])[..|s|] == s;
  }

  lemma ReadAfter(a: seq<string>, b: seq<string>, c: char, separator: char)
    requires b != []
    ensures Read(a + b, c, separator) == a + Read(b, c, separator)
  {
    var n := |b| - 1;
    assert (a + b)[..|a| + n] == a + b[..n] && (a + b)[|a| + n] == b[n];
    Regrouped(a, b, [""]);
    Regrouped(a, b[..n], [b[n] + [c]]);
  }

  /** A separator parts the pieces before it from those after it. */
  lemma {:induction false} SplitParts(s: string, separator: char, t: string)
    ensures Split(s + [separator] + t, separator) == Split(s, separator) + Split(t, separator)
  {
    if t == "" {
      SplitPush(s, separator, separator);
      assert s + [separator] + t == s + [separator];
    } else {
      var n := |t| - 1;
      SplitParts(s, separator, t[..n]);
      hide Split, Read;
      SplitPush(s + [separator] + t[..n], t[n], separator);
      SplitPush(t[..n], t[n], separator);
      assert t == t[..n] + [t[n]];
      Regrouped(s + [separator], t[..n], [t[n]]);
      ReadAfter(Split(s, separator), Split(t[..n], separator), t[n], separator);
    }
  }

  /** The pieces with a separator between them. */
  function Glue(pieces: seq<string>, separator: char): string {
    if pieces == [] then ""
    else if |pieces| == 1 then pieces[0]
    else Glue(pieces[..|pieces| - 1], separator) + [separator] + pieces[|pieces| - 1]
  }

  /** Gluing undoes splitting, so different strings have different pieces. */
  lemma {:induction false} GlueUndoesSplit(s: string, separator: char)
    ensures Glue(Split(s, separator), separator) == s
  {
    if s != "" {
      var n := |s| - 1;
      var before := Split(s[..n], separator);
      GlueUndoesSplit(s[..n], separator);
      hide Split, Read, Glue;
      SplitPush(s[..n], s[n], separator);
      assert s == s[..n] + [s[n]];
      GlueRead(before, s[n], separator);
    }
  }

  lemma GlueRead(pieces: seq<string>, c: char, separator: char)
    requires pieces != []
    ensures Glue(Read(pieces, c, separator), separator) == Glue(pieces, separator) + [c]
  {
    var n := |pieces| - 1;
    if c == separator {
      assert (pieces + [""])[..|pieces|] == pieces;
    } else {
      assert (pieces[..n] + [pieces[n] + [c]])[..n] == pieces[..n];
    }
  }

  lemma Regrouped<T>(a: seq<T>, b: seq<T>, c: seq<T>)
    ensures a + b + c == a + (b + c)
  {
  }

  lemma ReplaceFirst(c: char, s: string, from: char, to: char)
    ensures Replace([c] + s, from, to) == [if c == from then to else c] + Replace(s, from, to)
  {
    assert ([c] + s)[1..] == s;
  }

  lemma {:induction false} ReplaceConcat(a: string, b: string, from: char, to: char)
    ensures Replace(a + b, from, to) == Replace(a, from, to) + Replace(b, from, to)
  {
    if a == "" {
      assert a + b == b && Replace(a, from, to) == "";
    } else {
      hide Replace;
      ReplaceConcat(a[1..], b, from, to);
      ReplaceFirst(a[0], a[1..], from, to);
      ReplaceFirst(a[0], a[1..] + b, from, to);
      assert a == [a[0]] + a[1..];
      Regrouped([a[0]], a[1..], b);
      Regrouped([if a[0] == from then to else a[0]], Replace(a[1..], from, to), Replace(b, from, to));
    }
  }

  lemma {:induction false} ReplaceIs(s: string, from: char, to: char)
    ensures |Replace(s, from, to)| == |s|
    ensures forall i :: 0 <= i < |s| ==> Replace(s, from, to)[i] == if s[i] == from then to else s[i]
  {
    if s != "" {
      ReplaceIs(s[1..], from, to);
    }
  }

  lemma ReplaceNothing(s: string, from: char, to: char)
    requires from !in s
    ensures Replace(s, from, to) == s
  {
    ReplaceIs(s, from, to);
  }

  lemma SlashReplaced()
    ensures Replace("/", '/', '+') == ['+']
  {
  }

  lemma ReplacedJoin(names: seq<string>)
    requires |names| > 1
    ensures var n := |names| - 1;
            Replace(Join(names), '/', '+') == Replace(Join(names[..n]), '/', '+') + ['+'] + Replace(names[n], '/', '+')
  {
    var n := |names| - 1;
    var before, last := Join(names[..n]), names[n];
    assert Join(names) == before + "/" + last;
    SlashReplaced();
    hide Join, Replace;
    ReplaceConcat(before + "/", last, '/', '+');
    ReplaceConcat(before, "/", '/', '+');
  }

  function PiecesOf(name: string): seq<string> {
    Split(Replace(name, '/', '+'), '+')
  }

  /** What the names are made of, once neither a `/` nor a `+` is told from the place between two names. */
  function Pieces(names: seq<string>): seq<string> {
    if names == [] then [] else Pieces(names[..|names| - 1]) + PiecesOf(names[|names| - 1])
  }

  lemma {:induction false} SegmentPieces(names: seq<string>)
    requires names != []
    ensures Split(Segment(names), '+') == Pieces(names)
  {
    var n := |names| - 1;
    if n == 0 {
      assert Pieces(names[..0]) == [];
    } else {
      SegmentPieces(names[..n]);
      ReplacedJoin(names);
      hide Replace, Join, Split;
      SplitParts(Replace(Join(names[..n]), '/', '+'), '+', Replace(names[n], '/', '+'));
    }
  }

  lemma PlainPiece(name: string)
    requires Plain(name)
    ensures PiecesOf(name) == [name]
  {
    ReplaceNothing(name, '/', '+');
    SplitPlain(name, '+');
  }

  lemma {:induction false} PlainPieces(names: seq<string>)
    requires forall name <- names :: Plain(name)
    ensures Pieces(names) == names
  {
    if names != [] {
      hide PiecesOf, Plain;
      var n := |names| - 1;
      assert forall name <- names[..n] :: name in names;
      PlainPieces(names[..n]);
      PlainPiece(names[n]);
      assert names == names[..n] + [names[n]];
    }
  }

  /** Segments are the same just when the pieces are. */
  lemma {:induction false} SegmentsMeetIff(names: seq<string>, names': seq<string>)
    requires |names| == |names'|
    ensures Segment(names) == Segment(names') <==> Pieces(names) == Pieces(names')
  {
    if names != [] {
      SegmentPieces(names);
      SegmentPieces(names');
      GlueUndoesSplit(Segment(names), '+');
      GlueUndoesSplit(Segment(names'), '+');
    }
  }

  /** The names can be read back from the segment just when none of them holds a `/` or a `+`. */
  lemma {:induction false} NamesAreReadBackIff(names: seq<string>)
    requires names != []
    ensures Split(Segment(names), '+') == names <==> forall name <- names :: Plain(name)
  {
    if forall name <- names :: Plain(name) {
      SegmentPieces(names);
      PlainPieces(names);
    } else {
      var segment := Segment(names);
      PiecesLackSeparator(segment, '+');
      ReplaceIs(Join(names), '/', '+');
    }
  }

  /** Two choices of one scene that share a segment: names with a `+` are not told apart. */
  lemma {:induction false} NamesWithPlusCollide()
    ensures Segment(["a+b", "c"]) == Segment(["a", "b+c"])
  {
    assert Join(["a+b", "c"]) == "a+b/c" && Join(["a", "b+c"]) == "a/b+c" by {
      assert ["a+b", "c"][..1] == ["a+b"] && ["a", "b+c"][..1] == ["a"];
    }
    ReplaceIs("a+b/c", '/', '+');
    ReplaceIs("a/b+c", '/', '+');
    assert Replace("a+b/c", '/', '+') == "a+b+c" == Replace("a/b+c", '/', '+');
  }

  /** So are a lone empty name and a lone `.`, whose segments fall away. */
  lemma {:induction false} SpecialNamesCollide(work: seq<string>, scene: string, run: nat)
    ensures RunDirectory(work, scene, [""], run) == RunDirectory(work, scene, ["."], run)
  {
    var last := "run-" + Print(run);
    assert Segment([""]) == "" && Segment(["."]) == "." by {
      ReplaceIs(".", '/', '+');
    }
    forall segment | segment == "" || segment == "."
      ensures Normalized(work + [scene, segment]) == Normalized(work + [scene])
    {
      assert (work + [scene, segment])[..|work| + 1] == work + [scene];
    }
    assert (work + [scene, "", last])[..|work| + 2] == work + [scene, ""];
    assert (work + [scene, ".", last])[..|work| + 2] == work + [scene, "."];
  }

  // Different runs, different directories.

  lemma NormalizedPush(path: seq<string>, segment: string)
    requires !Special(segment)
    ensures Normalized(path + [segment]) == Normalized(path) + [segment]
  {
    assert (path + [segment])[..|path|] == path;
  }

  predicate AllPlain(path: seq<string>) {
    forall segment <- path :: !Special(segment)
  }

  lemma AllPlainBefore(path: seq<string>)
    requires path != []
    ensures AllPlain(path) <==> AllPlain(path[..|path| - 1]) && !Special(path[|path| - 1])
  {
    assert path == path[..|path| - 1] + [path[|path| - 1]];
  }

  /** Nothing special is left of a path, and a path with nothing special is left as it is. */
  lemma {:induction false} NormalizedIsPlain(path: seq<string>)
    ensures AllPlain(Normalized(path))
    ensures AllPlain(path) ==> Normalized(path) == path
  {
    if path != [] {
      var before, last := Normalized(path[..|path| - 1]), path[|path| - 1];
      NormalizedIsPlain(path[..|path| - 1]);
      AllPlainBefore(path);
      if before != [] {
        AllPlainBefore(before);
      }
      assert (before + [last])[..|before|] == before;
      AllPlainBefore(before + [last]);
      hide AllPlain;
    }
  }

  lemma RunSegment(run: nat)
    ensures !Special("run-" + Print(run))
  {
    assert ("run-" + Print(run))[0] == 'r';
  }

  lemma JoinHasSlash(names: seq<string>)
    requires |names| > 1
    ensures '/' in Join(names)
  {
    var before := Join(names[..|names| - 1]);
    assert Join(names)[|before|] == '/';
  }

  /** A segment without a `+` is a lone name as it is written. */
  lemma PlainSegment(names: seq<string>, segment: string)
    requires '+' !in segment && segment != "base"
    ensures Segment(names) == segment <==> names == [segment] && '/' !in segment
  {
    var variant := Variant(names);
    ReplaceIs(variant, '/', '+');
    if Segment(names) == segment {
      forall i | 0 <= i < |variant| ensures variant[i] != '/' {
        assert segment[i] in segment;
      }
      ReplaceNothing(variant, '/', '+');
      if |names| > 1 {
        JoinHasSlash(names);
      }
    }
    if names == [segment] && '/' !in segment {
      ReplaceNothing(segment, '/', '+');
    }
  }

  /** A lone `..` leads out of the scene; a lone empty name or `.` leads nowhere. */
  predicate LeadsOut(names: seq<string>) {
    names == [".."]
  }

  predicate LeadsNowhere(names: seq<string>) {
    names == [""] || names == ["."]
  }

  /** What stands between the work directory and the run. */
  function Place(scene: string, names: seq<string>): seq<string> {
    if LeadsOut(names) then [] else if LeadsNowhere(names) then [scene] else [scene, Segment(names)]
  }

  lemma {:induction false} SpecialSegments(names: seq<string>)
    ensures Segment(names) == ".." <==> LeadsOut(names)
    ensures Segment(names) == "" || Segment(names) == "." <==> LeadsNowhere(names)
  {
    PlainSegment(names, "..");
    PlainSegment(names, ".");
    PlainSegment(names, "");
  }

  lemma NormalizedSegment(path: seq<string>, scene: string, names: seq<string>)
    requires !Special(scene)
    ensures Normalized(path + [scene, Segment(names)]) == Normalized(path) + Place(scene, names)
  {
    var segment := Segment(names);
    SpecialSegments(names);
    NormalizedPush(path, scene);
    hide Segment;
    var inner := path + [scene];
    assert path + [scene, segment] == inner + [segment];
    assert (inner + [segment])[..|inner|] == inner;
    assert Normalized(inner)[..|Normalized(path)|] == Normalized(path);
  }

  lemma DirectoryIs(work: seq<string>, scene: string, names: seq<string>, run: nat)
    requires !Special(scene)
    ensures RunDirectory(work, scene, names, run) == Normalized(work) + Place(scene, names) + ["run-" + Print(run)]
  {
    var last, path := "run-" + Print(run), work + [scene, Segment(names)];
    NormalizedSegment(work, scene, names);
    RunSegment(run);
    NormalizedPush(path, last);
    assert work + [scene, Segment(names), last] == path + [last];
  }

  /** An ordinary choice's run is where it is written: under the work directory, the scene, the segment and the number. */
  lemma {:induction false} OrdinaryDirectory(work: seq<string>, scene: string, names: seq<string>, run: nat)
    requires AllPlain(work) && !Special(scene) && !Special(Segment(names))
    ensures RunDirectory(work, scene, names, run) == work + [scene, Segment(names), "run-" + Print(run)]
  {
    var path := work + [scene, Segment(names), "run-" + Print(run)];
    RunSegment(run);
    hide Segment, Print, Special;
    assert forall segment <- path :: segment in work || segment in [scene, Segment(names), "run-" + Print(run)];
    NormalizedIsPlain(path);
  }

  lemma RunsDiffer(run: nat, run': nat)
    ensures "run-" + Print(run) == "run-" + Print(run') <==> run == run'
  {
    ParsePrint(run);
    ParsePrint(run');
    assert ("run-" + Print(run))[4..] == Print(run) && ("run-" + Print(run'))[4..] == Print(run');
  }

  lemma PlacesMeet(w: seq<string>, p: seq<string>, last: string, q: seq<string>, last': string)
    ensures w + p + [last] == w + q + [last'] <==> p == q && last == last'
  {
    var a, b := w + p + [last], w + q + [last'];
    if a == b {
      assert |p| == |q| && a[|a| - 1] == last && b[|b| - 1] == last';
      assert a[|w|..|a| - 1] == p && b[|w|..|b| - 1] == q;
    }
  }

  /** Two choices, of one scene or of two, that are put in one place. */
  predicate SharePlace(scene: string, names: seq<string>, scene': string, names': seq<string>) {
    if LeadsOut(names) || LeadsOut(names') then LeadsOut(names) && LeadsOut(names')
    else
      && scene == scene'
      && if LeadsNowhere(names) || LeadsNowhere(names') then LeadsNowhere(names) && LeadsNowhere(names')
         else Pieces(names) == Pieces(names')
  }

  lemma SharePlaceIff(scene: string, names: seq<string>, scene': string, names': seq<string>)
    requires scene == scene' ==> |names| == |names'|
    ensures Place(scene, names) == Place(scene', names') <==> SharePlace(scene, names, scene', names')
  {
    if scene == scene' {
      SegmentsMeetIff(names, names');
    }
    hide Segment, Pieces;
    if !LeadsOut(names) && !LeadsOut(names') {
      assert Place(scene, names)[0] == scene && Place(scene', names')[0] == scene';
      if !LeadsNowhere(names) && !LeadsNowhere(names') {
        assert Place(scene, names)[1] == Segment(names) && Place(scene', names')[1] == Segment(names');
      }
    }
  }

  /**
   Two runs share a directory just when they have the same number and their choices share a place: both lead out of their
   scenes; or both lead nowhere, or are made of the same pieces, in one scene. A scene's choices all have as many names as it
   has axes; a scene's name is the last segment of a directory's path.
   */
  lemma {:induction false} DirectoriesMeetIff(work: seq<string>, scene: string, names: seq<string>, run: nat,
                                              scene': string, names': seq<string>, run': nat)
    requires !Special(scene) && !Special(scene')
    requires scene == scene' ==> |names| == |names'|
    ensures RunDirectory(work, scene, names, run) == RunDirectory(work, scene', names', run') <==>
            run == run' && SharePlace(scene, names, scene', names')
  {
    DirectoryIs(work, scene, names, run);
    DirectoryIs(work, scene', names', run');
    RunsDiffer(run, run');
    SharePlaceIff(scene, names, scene', names');
    hide RunDirectory, Normalized, Place, Print, SharePlace;
    PlacesMeet(Normalized(work), Place(scene, names), "run-" + Print(run), Place(scene', names'), "run-" + Print(run'));
  }

  /** So runs of different scenes, choices or numbers never do when the names are plain and none leads out or nowhere. */
  lemma {:induction false} DirectoriesDiffer(work: seq<string>, scene: string, names: seq<string>, run: nat,
                                             scene': string, names': seq<string>, run': nat)
    requires !Special(scene) && !Special(Segment(names)) && !Special(scene') && !Special(Segment(names'))
    requires (forall name <- names :: Plain(name)) && (forall name <- names' :: Plain(name))
    requires scene == scene' ==> |names| == |names'|
    requires RunDirectory(work, scene, names, run) == RunDirectory(work, scene', names', run')
    ensures scene == scene' && names == names' && run == run'
  {
    DirectoriesMeetIff(work, scene, names, run, scene', names', run');
    SpecialSegments(names);
    SpecialSegments(names');
    hide RunDirectory, Segment, Pieces;
    PlainPieces(names);
    PlainPieces(names');
  }

  // One run's directory within another's: it is removed with all below it before that run begins.

  lemma PlacesNest(w: seq<string>, p: seq<string>, last: string, q: seq<string>, last': string)
    ensures w + p + [last] < w + q + [last'] <==> |p| < |q| && q[..|p|] == p && q[|p|] == last
  {
    var a, b := w + p + [last], w + q + [last'];
    assert a[|w|..] == p + [last] && b[|w|..] == q + [last'];
    if a < b {
      assert b[|w|..][..|p| + 1] == a[|w|..];
      assert q == (q + [last'])[..|q|];
      assert (q + [last'])[..|p|] == p && (q + [last'])[|p|] == last;
    }
    if |p| < |q| && q[..|p|] == p && q[|p|] == last {
      assert q == p + [last] + q[|p| + 1..];
      assert b == a + (q[|p| + 1..] + [last']);
    }
  }

  /** The segment of a run's number is that of one choice alone: the lone name written the same. */
  lemma RunSegmentIs(names: seq<string>, run: nat)
    ensures Segment(names) == "run-" + Print(run) <==> names == ["run-" + Print(run)]
  {
    var last := "run-" + Print(run);
    PrintIsNumeral(run);
    forall c <- last ensures c != '+' && c != '/' {
      assert c in "run-" || c in Print(run);
    }
    assert last[0] == 'r' && "base"[0] == 'b';
    PlainSegment(names, last);
  }

  /** A choice leads to the directory that holds another run: what the other's path goes on with is this run's number. */
  predicate LeadsAround(scene: string, names: seq<string>, run: nat, scene': string, names': seq<string>) {
    || (LeadsOut(names) && !LeadsOut(names') && scene' == "run-" + Print(run))
    || (LeadsNowhere(names) && scene == scene' && names' == ["run-" + Print(run)])
  }

  lemma PlacesNestIff(scene: string, names: seq<string>, run: nat, scene': string, names': seq<string>)
    ensures var p, q := Place(scene, names), Place(scene', names');
            |p| < |q| && q[..|p|] == p && q[|p|] == "run-" + Print(run) <==> LeadsAround(scene, names, run, scene', names')
  {
    RunSegmentIs(names', run);
    assert ("run-" + Print(run))[0] == 'r';
    hide Segment, Print;
    var p, q := Place(scene, names), Place(scene', names');
    if |p| == 1 && |q| == 2 {
      assert q[..1] == [scene'];
    }
  }

  /**
   One run's directory holds another's just when its choice leads out and the other's scene has the name of its number's
   segment, or its choice leads nowhere and that segment is the other's only name, in the same scene.
   */
  lemma {:induction false} DirectoriesNestIff(work: seq<string>, scene: string, names: seq<string>, run: nat,
                                              scene': string, names': seq<string>, run': nat)
    requires !Special(scene) && !Special(scene')
    ensures RunDirectory(work, scene, names, run) < RunDirectory(work, scene', names', run') <==>
            LeadsAround(scene, names, run, scene', names')
  {
    DirectoryIs(work, scene, names, run);
    DirectoryIs(work, scene', names', run');
    PlacesNestIff(scene, names, run, scene', names');
    hide RunDirectory, Normalized, Place, Print, LeadsAround;
    PlacesNest(Normalized(work), Place(scene, names), "run-" + Print(run), Place(scene', names'), "run-" + Print(run'));
  }

  /** A lone empty name's run holds every run of the choice that is named as its segment is. */
  lemma {:induction false} EmptyNameHoldsAnother(work: seq<string>, scene: string, run: nat, run': nat)
    requires !Special(scene)
    ensures RunDirectory(work, scene, [""], run) < RunDirectory(work, scene, ["run-" + Print(run)], run')
  {
    DirectoriesNestIff(work, scene, [""], run, scene, ["run-" + Print(run)], run');
  }

  /** So the directory of a choice that leads neither out nor nowhere never holds another run's. */
  lemma {:induction false} OrdinaryNeverNest(work: seq<string>, scene: string, names: seq<string>, run: nat,
                                             scene': string, names': seq<string>, run': nat)
    requires !Special(scene) && !Special(scene') && !Special(Segment(names))
    ensures !(RunDirectory(work, scene, names, run) < RunDirectory(work, scene', names', run'))
  {
    DirectoriesNestIff(work, scene, names, run, scene', names', run');
    SpecialSegments(names);
  }
}
