/** The decision of the weekly release (`weekly-release.ts`): version tags, their order, and when one is made. */
module Release {
  import opened Common
  import opened Decimal

  datatype Version = Version(major: nat, minor: nat, patch: nat)

  /** A version as it is printed. */
  function TagOf(v: Version): string {
    "v" + Print(v.major) + "." + Print(v.minor) + "." + Print(v.patch)
  }

  /** The length of the digits a string starts with. */
  function DigitsIn(s: string): (n: nat)
    ensures n <= |s| && AllDigits(s[..n]) && (n < |s| ==> !Digit(s[n]))
  {
    if s == "" || !Digit(s[0]) then 0
    else
      var n := 1 + DigitsIn(s[1..]);
      assert s[..n] == [s[0]] + s[1..][..n - 1];
      n
  }

  datatype Read = Read(value: nat, rest: string)

  /** A numeral, and what follows it; none where there is no digit. */
  function Numeral(s: string): Option<Read> {
    var n := DigitsIn(s);
    if n == 0 then None else Some(Read(Parse(s[..n]), s[n..]))
  }

  /** A numeral and a dot, and what follows them. */
  function Dotted(s: string): Option<Read> {
    var read := Numeral(s);
    if read.Some? && read.value.rest != "" && read.value.rest[0] == '.' then Some(Read(read.value.value, read.value.rest[1..]))
    else None
  }

  function Numbers(s: string): Option<Version> {
    var major := Dotted(s);
    if major.None? then None
    else
      var minor := Dotted(major.value.rest);
      if minor.None? then None
      else
        var patch := Numeral(minor.value.rest);
        if patch.None? || patch.value.rest != "" then None
        else Some(Version(major.value.value, minor.value.value, patch.value.value))
  }

  /** versionOf: a tag of the form vX.Y.Z, and nothing else. */
  function VersionOf(tag: string): Option<Version> {
    if tag != "" && tag[0] == 'v' then Numbers(tag[1..]) else None
  }

  lemma {:induction false} DigitsOf(digits: string, rest: string)
    requires AllDigits(digits) && (rest == "" || !Digit(rest[0]))
    ensures DigitsIn(digits + rest) == |digits|
  {
    if digits != "" {
      assert (digits + rest)[1..] == digits[1..] + rest;
      DigitsOf(digits[1..], rest);
    } else {
      assert digits + rest == rest;
    }
  }

  lemma NumeralIsRead(n: nat, rest: string)
    requires rest == "" || !Digit(rest[0])
    ensures Numeral(Print(n) + rest) == Some(Read(n, rest))
  {
    ParsePrint(n);
    DigitsOf(Print(n), rest);
    hide Print, Parse, DigitsIn;
    var s := Print(n) + rest;
    assert s[..|Print(n)|] == Print(n) && s[|Print(n)|..] == rest;
  }

  lemma DottedIsRead(n: nat, rest: string)
    ensures Dotted(Print(n) + ("." + rest)) == Some(Read(n, rest))
  {
    NumeralIsRead(n, "." + rest);
    assert ("." + rest)[1..] == rest;
  }

  lemma NumbersAreRead(v: Version)
    ensures Numbers(Print(v.major) + ("." + (Print(v.minor) + ("." + Print(v.patch))))) == Some(v)
  {
    DottedIsRead(v.major, Print(v.minor) + ("." + Print(v.patch)));
    DottedIsRead(v.minor, Print(v.patch));
    NumeralIsRead(v.patch, "");
    hide Print, Numeral, Dotted;
    assert Print(v.patch) + "" == Print(v.patch);
  }

  /** Reading a printed version gives it back. */
  lemma {:induction false} VersionOfTag(v: Version)
    ensures VersionOf(TagOf(v)) == Some(v)
  {
    NumbersAreRead(v);
    Regrouped(Print(v.major), Print(v.minor), Print(v.patch));
    hide Print, Numbers;
    Headed(Print(v.major) + ("." + (Print(v.minor) + ("." + Print(v.patch)))));
  }

  lemma Headed(s: string)
    ensures ("v" + s)[0] == 'v' && ("v" + s)[1..] == s
  {
  }

  lemma Regrouped(a: string, b: string, c: string)
    ensures "v" + a + "." + b + "." + c == "v" + (a + ("." + (b + ("." + c))))
  {
  }

  lemma NumeralForm(s: string) returns (a: string)
    requires Numeral(s).Some?
    ensures IsNumeral(a) && s == a + Numeral(s).value.rest && Numeral(s).value.value == Parse(a)
  {
    a := s[..DigitsIn(s)];
    hide DigitsIn, Parse;
    assert s == a + s[DigitsIn(s)..];
  }

  lemma DottedForm(s: string) returns (a: string)
    requires Dotted(s).Some?
    ensures IsNumeral(a) && s == a + ("." + Dotted(s).value.rest) && Dotted(s).value.value == Parse(a)
  {
    a := NumeralForm(s);
    var rest := Numeral(s).value.rest;
    hide Numeral, Parse;
    assert rest == "." + rest[1..];
  }

  ghost predicate HasForm(tag: string, v: Version, a: string, b: string, c: string) {
    && IsNumeral(a) && IsNumeral(b) && IsNumeral(c) && tag == "v" + a + "." + b + "." + c
    && v == Version(Parse(a), Parse(b), Parse(c))
  }

  /** What is read has the form: a `v` and three numerals with dots between. */
  lemma {:induction false} VersionOfForm(tag: string)
    requires VersionOf(tag).Some?
    ensures exists a, b, c :: HasForm(tag, VersionOf(tag).value, a, b, c)
  {
    var s := tag[1..];
    var t := Dotted(s).value.rest;
    var u := Dotted(t).value.rest;
    var a := DottedForm(s);
    var b := DottedForm(t);
    var c := NumeralForm(u);
    hide Dotted, Numeral, Parse, IsNumeral;
    Formed(tag, a, b, c, s, t, u);
    assert HasForm(tag, VersionOf(tag).value, a, b, c);
  }

  lemma DigitsAreRead(a: string, rest: string)
    requires IsNumeral(a) && (rest == "" || !Digit(rest[0]))
    ensures Numeral(a + rest) == Some(Read(Parse(a), rest))
  {
    DigitsOf(a, rest);
    hide Parse, DigitsIn;
    assert (a + rest)[..|a|] == a && (a + rest)[|a|..] == rest;
  }

  lemma DottedAreRead(a: string, rest: string)
    requires IsNumeral(a)
    ensures Dotted(a + ("." + rest)) == Some(Read(Parse(a), rest))
  {
    DigitsAreRead(a, "." + rest);
    assert ("." + rest)[1..] == rest;
    hide Parse, Numeral, IsNumeral;
  }

  /** And whatever has the form is read, leading zeros or not. */
  lemma {:induction false} FormIsRead(tag: string, v: Version, a: string, b: string, c: string)
    requires HasForm(tag, v, a, b, c)
    ensures VersionOf(tag) == Some(v)
  {
    DottedAreRead(a, b + ("." + c));
    DottedAreRead(b, c);
    DigitsAreRead(c, "");
    Regrouped(a, b, c);
    hide Parse, Numeral, Dotted, IsNumeral;
    Headed(a + ("." + (b + ("." + c))));
    assert c + "" == c;
  }

  lemma Formed(tag: string, a: string, b: string, c: string, s: string, t: string, u: string)
    requires tag != "" && tag[0] == 'v' && tag[1..] == s && s == a + ("." + t) && t == b + ("." + u) && u == c + ""
    ensures tag == "v" + a + "." + b + "." + c
  {
    assert tag == "v" + s && u == c;
    Regrouped(a, b, c);
  }

  // The order.

  /** compare: the first number that differs decides. */
  function Compare(a: Version, b: Version): int {
    if a.major != b.major then a.major - b.major
    else if a.minor != b.minor then a.minor - b.minor
    else a.patch - b.patch
  }

  lemma {:induction false} CompareIsOrder(a: Version, b: Version, c: Version)
    ensures Compare(a, b) > 0 <==>
              || a.major > b.major
              || (a.major == b.major && (a.minor > b.minor || (a.minor == b.minor && a.patch > b.patch)))
    ensures Compare(a, b) == 0 <==> a == b
    ensures Compare(a, b) > 0 <==> Compare(b, a) < 0
    ensures Compare(a, b) >= 0 && Compare(b, c) >= 0 ==> Compare(a, c) >= 0
    ensures Compare(a, b) > 0 && Compare(b, c) >= 0 ==> Compare(a, c) > 0
  {
  }

  /** `at` is the first of the tags with the highest version. */
  ghost predicate FirstHighest(tags: seq<string>, at: nat) {
    && at < |tags| && VersionOf(tags[at]).Some?
    && (forall i :: 0 <= i < |tags| && VersionOf(tags[i]).Some? ==>
          Compare(VersionOf(tags[at]).value, VersionOf(tags[i]).value) >= if i < at then 1 else 0)
  }

  /** The highest version tag, if there is one. */
  method LatestVersionTag(tags: seq<string>) returns (latest: Option<string>, ghost at: nat)
    ensures latest.None? <==> forall tag <- tags :: VersionOf(tag).None?
    ensures latest.Some? ==> FirstHighest(tags, at) && latest.value == tags[at]
  {
    hide VersionOf;
    var best: Option<Version> := None;
    latest, at := None, 0;
    for i := 0 to |tags|
      invariant latest.Some? <==> best.Some?
      invariant latest.None? ==> forall tag <- tags[..i] :: VersionOf(tag).None?
      invariant latest.Some? ==> FirstHighest(tags[..i], at) && latest.value == tags[at] && VersionOf(tags[at]) == best
    {
      var version := VersionOf(tags[i]);
      assert tags[..i + 1] == tags[..i] + [tags[i]];
      if version.Some? && (best.None? || Compare(version.value, best.value) > 0) {
        if best.Some? {
          HigherIsFirst(tags[..i], at, tags[i]);
        }
        latest, best, at := Some(tags[i]), version, i;
      } else if best.Some? {
        LowerIsNot(tags[..i], at, tags[i]);
      }
    }
    assert tags[..|tags|] == tags;
  }

  lemma HigherIsFirst(tags: seq<string>, at: nat, tag: string)
    requires FirstHighest(tags, at) && VersionOf(tag).Some? && Compare(VersionOf(tag).value, VersionOf(tags[at]).value) > 0
    ensures FirstHighest(tags + [tag], |tags|)
  {
    hide VersionOf;
  }

  lemma LowerIsNot(tags: seq<string>, at: nat, tag: string)
    requires FirstHighest(tags, at)
    requires VersionOf(tag).Some? ==> Compare(VersionOf(tag).value, VersionOf(tags[at]).value) <= 0
    ensures FirstHighest(tags + [tag], at)
  {
    hide VersionOf;
    if VersionOf(tag).Some? {
      CompareIsOrder(VersionOf(tags[at]).value, VersionOf(tag).value, VersionOf(tag).value);
    }
  }

  /** nextPatchVersion; none for what is no version tag. */
  function NextPatchVersion(tag: string): Option<string> {
    var version := VersionOf(tag);
    if version.None? then None
    else Some(TagOf(version.value.(patch := version.value.patch + 1)))
  }

  lemma NextIsAbove(tags: seq<string>, at: nat, next: Version, i: nat)
    requires FirstHighest(tags, at) && i < |tags| && VersionOf(tags[i]).Some?
    requires next == VersionOf(tags[at]).value.(patch := VersionOf(tags[at]).value.patch + 1)
    ensures Compare(next, VersionOf(tags[i]).value) > 0
  {
    hide VersionOf;
    CompareIsOrder(next, VersionOf(tags[at]).value, VersionOf(tags[i]).value);
  }

  /** What is released is a version above every version there was, so it is none of the tags. */
  lemma {:induction false} NextIsAboveAll(tags: seq<string>, at: nat)
    requires FirstHighest(tags, at)
    ensures var next := NextPatchVersion(tags[at]);
            && next.Some? && next.value !in tags && VersionOf(next.value).Some?
            && (var v, w := VersionOf(tags[at]).value, VersionOf(next.value).value;
                w.major == v.major && w.minor == v.minor && w.patch == v.patch + 1 && next.value == TagOf(w))
            && forall i :: 0 <= i < |tags| && VersionOf(tags[i]).Some? ==>
                 Compare(VersionOf(next.value).value, VersionOf(tags[i]).value) > 0
  {
    var highest := VersionOf(tags[at]).value;
    var next := highest.(patch := highest.patch + 1);
    VersionOfTag(next);
    forall i | 0 <= i < |tags| && VersionOf(tags[i]).Some? ensures Compare(next, VersionOf(tags[i]).value) > 0 {
      NextIsAbove(tags, at, next, i);
    }
    hide VersionOf, TagOf, FirstHighest;
    forall i | 0 <= i < |tags| ensures tags[i] != TagOf(next) {
      CompareIsOrder(next, next, next);
    }
  }

  // The decision.

  const BOTS := ["renovate[bot]", "fraction-vuln-responder[bot]"]
  const RELEASE_FILES := ["Dockerfile", ".dockerignore", "package.json", "package-lock.json", "tsconfig.json", "scripts/build-web.ts"]
  const RELEASE_DIRECTORIES := ["src/", "docker/", "runner/", "manual/", "assets/"]

  datatype Commit = Commit(hash: string, author: string, subject: string)

  datatype Held = NoTag | ByPeople(authors: seq<string>) | NothingChanged

  /** A release of a version, or why there is none. Asked for after a tag that is no version, it is an error. */
  datatype Decision = Released(version: string) | NotReleased(why: Held) | NotAVersion

  predicate IsBot(author: string) {
    author in BOTS
  }

  predicate IsReleaseFile(path: string) {
    path in RELEASE_FILES || exists d <- RELEASE_DIRECTORIES :: d <= path
  }

  function HeldBy(commits: seq<Commit>): seq<Commit> {
    if commits == [] then []
    else
      var last := commits[|commits| - 1];
      HeldBy(commits[..|commits| - 1]) + if IsBot(last.author) then [] else [last]
  }

  /** The authors, each once, in the order they first come. */
  function Authors(commits: seq<Commit>): seq<string> {
    if commits == [] then []
    else
      var before, last := Authors(commits[..|commits| - 1]), commits[|commits| - 1].author;
      if last in before then before else before + [last]
  }

  function Changed(files: seq<string>): seq<string> {
    if files == [] then []
    else
      var last := files[|files| - 1];
      Changed(files[..|files| - 1]) + if IsReleaseFile(last) then [last] else []
  }

  function DecideRelease(tag: Option<string>, commits: seq<Commit>, files: seq<string>): Decision {
    if tag.None? || tag.value == "" then NotReleased(NoTag)
    else
      var others := Authors(HeldBy(commits));
      if others != [] then NotReleased(ByPeople(others))
      else if Changed(files) == [] then NotReleased(NothingChanged)
      else
        var version := NextPatchVersion(tag.value);
        if version.None? then NotAVersion else Released(version.value)
  }

  lemma {:induction false} AuthorsAreHeld(commits: seq<Commit>)
    ensures forall author :: author in Authors(HeldBy(commits)) <==> author !in BOTS && exists c <- commits :: c.author == author
  {
    if commits != [] {
      var n := |commits| - 1;
      AuthorsAreHeld(commits[..n]);
      assert commits == commits[..n] + [commits[n]];
      var before := HeldBy(commits[..n]);
      if !IsBot(commits[n].author) {
        assert HeldBy(commits)[..|before|] == before;
      } else {
        assert HeldBy(commits) == before;
      }
    }
  }

  lemma {:induction false} ChangedAre(files: seq<string>)
    ensures Changed(files) == [] <==> forall file <- files :: !IsReleaseFile(file)
  {
    if files != [] {
      ChangedAre(files[..|files| - 1]);
      assert files == files[..|files| - 1] + [files[|files| - 1]];
    }
  }

  ghost predicate OnlyBots(commits: seq<Commit>) {
    forall c <- commits :: c.author in BOTS
  }

  ghost predicate BeginsWith(file: string, d: string) {
    exists rest :: file == d + rest
  }

  ghost predicate ReachesTheImages(files: seq<string>) {
    exists file <- files :: file in RELEASE_FILES || exists d <- RELEASE_DIRECTORIES :: BeginsWith(file, d)
  }

  lemma BeginsIff(d: string, file: string)
    ensures d <= file <==> BeginsWith(file, d)
  {
    if d <= file {
      assert file == d + file[|d|..];
    }
  }

  lemma ReleaseFileIs(file: string)
    ensures IsReleaseFile(file) <==> file in RELEASE_FILES || exists d <- RELEASE_DIRECTORIES :: BeginsWith(file, d)
  {
    forall d ensures d <= file <==> BeginsWith(file, d) {
      BeginsIff(d, file);
    }
  }

  ghost predicate HasVersion(tags: seq<string>) {
    exists tag <- tags :: VersionOf(tag).Some?
  }

  /** The place of the first commit by the author. */
  function FirstBy(commits: seq<Commit>, author: string): (i: nat)
    ensures i <= |commits| && (i < |commits| ==> commits[i].author == author) && forall k :: 0 <= k < i ==> commits[k].author != author
  {
    if commits == [] || commits[0].author == author then 0 else 1 + FirstBy(commits[1..], author)
  }

  /** The authors of commits who are no bots, each once, in the order of their first commits. */
  ghost predicate NamesPeople(authors: seq<string>, commits: seq<Commit>) {
    && (forall author :: author in authors <==> author !in BOTS && exists c <- commits :: c.author == author)
    && InFirstOrder(authors, commits)
  }

  ghost predicate InFirstOrder(authors: seq<string>, commits: seq<Commit>) {
    forall i, j :: 0 <= i < j < |authors| ==> FirstBy(commits, authors[i]) < FirstBy(commits, authors[j])
  }

  lemma {:induction false} FirstByPush(commits: seq<Commit>, c: Commit, author: string)
    ensures FirstBy(commits + [c], author) ==
            if FirstBy(commits, author) < |commits| then FirstBy(commits, author)
            else if c.author == author then |commits| else |commits| + 1
  {
    if commits != [] {
      assert (commits + [c])[1..] == commits[1..] + [c];
      FirstByPush(commits[1..], c, author);
    } else {
      assert [c][1..] == [] && [] + [c] == [c];
    }
  }

  lemma {:induction false} AuthorsNamePeople(commits: seq<Commit>)
    ensures NamesPeople(Authors(HeldBy(commits)), commits)
  {
    if commits == [] {
      assert Authors(HeldBy(commits)) == [];
    } else {
      var n := |commits| - 1;
      AuthorsNamePeople(commits[..n]);
      PeopleNamedPush(commits[..n], commits[n]);
      LastPushed(commits);
      hide *;
    }
  }

  lemma LastPushed(commits: seq<Commit>)
    requires commits != []
    ensures commits == commits[..|commits| - 1] + [commits[|commits| - 1]]
  {
  }

  lemma PeopleNamedPush(commits: seq<Commit>, c: Commit)
    requires NamesPeople(Authors(HeldBy(commits)), commits)
    ensures NamesPeople(Authors(HeldBy(commits + [c])), commits + [c])
  {
    AuthorsAreHeld(commits + [c]);
    AuthorsPush(commits, c);
    hide Authors, HeldBy, FirstBy, InFirstOrder;
    FirstsStayInOrder(commits, c, Authors(HeldBy(commits)), Authors(HeldBy(commits + [c])));
  }

  lemma FirstByIs(commits: seq<Commit>, author: string)
    ensures FirstBy(commits, author) < |commits| <==> exists c <- commits :: c.author == author
  {
  }

  lemma FirstsStayInOrder(commits: seq<Commit>, c: Commit, before: seq<string>, after: seq<string>)
    requires forall author :: author in before <==> author !in BOTS && exists d <- commits :: d.author == author
    requires InFirstOrder(before, commits)
    requires after == before || (after == before + [c.author] && c.author !in before && c.author !in BOTS)
    ensures InFirstOrder(after, commits + [c])
  {
    hide FirstBy;
    forall i, j | 0 <= i < j < |after| ensures FirstBy(commits + [c], after[i]) < FirstBy(commits + [c], after[j]) {
      assert after[i] == before[i] && before[i] in before;
      FirstByIs(commits, after[i]);
      FirstByIs(commits, after[j]);
      FirstByPush(commits, c, after[i]);
      FirstByPush(commits, c, after[j]);
      if j < |before| {
        assert after[j] == before[j] && before[j] in before;
      }
    }
  }

  lemma AuthorsPush(commits: seq<Commit>, c: Commit)
    ensures var before, after := Authors(HeldBy(commits)), Authors(HeldBy(commits + [c]));
            after == before || (after == before + [c.author] && c.author !in before && c.author !in BOTS)
  {
    assert (commits + [c])[..|commits|] == commits;
    var held := HeldBy(commits);
    assert (held + [c])[..|held|] == held;
    assert held + [] == held;
  }

  lemma NoneHeldIff(commits: seq<Commit>)
    ensures Authors(HeldBy(commits)) == [] <==> OnlyBots(commits)
  {
    AuthorsAreHeld(commits);
    var authors := Authors(HeldBy(commits));
    hide Authors, HeldBy;
    if authors != [] {
      assert authors[0] in authors;
    } else {
      forall c | c in commits ensures c.author in BOTS {
        assert c.author !in authors;
      }
    }
  }

  /** Which decision is made after a tag, or without one, and just when. */
  lemma {:induction false} DecidedAfter(tag: Option<string>, commits: seq<Commit>, files: seq<string>)
    ensures var decision, tagged := DecideRelease(tag, commits, files), tag.Some? && tag.value != "";
            && (decision == NotReleased(NoTag) <==> !tagged)
            && (decision.NotReleased? && decision.why.ByPeople? <==> tagged && !OnlyBots(commits))
            && (decision.NotReleased? && decision.why.ByPeople? ==> NamesPeople(decision.why.authors, commits))
            && (decision == NotReleased(NothingChanged) <==> tagged && OnlyBots(commits) && !ReachesTheImages(files))
            && (decision.Released? <==> tagged && OnlyBots(commits) && ReachesTheImages(files) && VersionOf(tag.value).Some?)
            && (decision.NotAVersion? <==> tagged && OnlyBots(commits) && ReachesTheImages(files) && VersionOf(tag.value).None?)
            && (decision.Released? ==> Some(decision.version) == NextPatchVersion(tag.value))
  {
    if tag.Some? {
      NextIffVersion(tag.value);
    }
    hide VersionOf, NextPatchVersion;
    NoneHeldIff(commits);
    AuthorsNamePeople(commits);
    ChangedAre(files);
    forall file ensures IsReleaseFile(file) <==> file in RELEASE_FILES || exists d <- RELEASE_DIRECTORIES :: BeginsWith(file, d) {
      ReleaseFileIs(file);
    }
    hide OnlyBots, Authors, HeldBy, Changed, IsReleaseFile, NamesPeople;
  }

  lemma VersionIsSome(tag: string)
    requires VersionOf(tag).Some?
    ensures tag != ""
  {
  }

  lemma NextIffVersion(tag: string)
    ensures NextPatchVersion(tag).Some? <==> VersionOf(tag).Some?
  {
  }

  /**
   After the latest of any tags there is a release just when there is a version tag, only bots committed, and some file that
   goes into the images changed; and then it is of the version above all of them.
   */
  lemma {:induction false} ReleasedIff(tags: seq<string>, at: nat, commits: seq<Commit>, files: seq<string>)
    requires HasVersion(tags) ==> FirstHighest(tags, at)
    ensures var decision := DecideRelease(if HasVersion(tags) then Some(tags[at]) else None, commits, files);
            && (decision.Released? <==> HasVersion(tags) && OnlyBots(commits) && ReachesTheImages(files))
            && (decision == NotReleased(NoTag) <==> !HasVersion(tags))
            && (decision.Released? ==> decision.version !in tags && Some(decision.version) == NextPatchVersion(tags[at]))
            && !decision.NotAVersion?
  {
    if HasVersion(tags) {
      NextIsAboveAll(tags, at);
      DecidedAfter(Some(tags[at]), commits, files);
      VersionIsSome(tags[at]);
      hide DecideRelease, NextPatchVersion, FirstHighest, VersionOf, HasVersion, OnlyBots, ReachesTheImages;
    }
  }
}
