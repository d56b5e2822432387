/** What a report says of a program's end and shows of its output follows from what its handler took, however the run goes on. */
module RunnerTold {
  import opened Common
  import opened Utf8
  import opened Capped
  import opened Runner
  import opened RunnerInvariant
  import opened RunnerRuns
  import opened RunnerWhole

  /** What a handler may come to tell of a program: that it ended, runs on, was stopped at its timeout, or never started. */
  datatype Told = Ended | RunsOn | TimedOut | Unstarted(reason: Output)

  /** A result says that, and nothing else of the kind; of one that ended, just how it did. */
  predicate Says(r: Result, told: Told, exit: Option<Exit>) {
    match told
    case Ended =>
      && !r.stillRunning && !r.timedOut && exit.Some?
      && (exit.value.Code? ==> r.exitCode == Some(exit.value.code) && r.signal == "")
      && (exit.value.Killed? ==> r.exitCode == None && r.signal == exit.value.signal)
    case RunsOn => r.stillRunning && !r.timedOut && r.exitCode == None && r.signal == ""
    case TimedOut => r.timedOut && !r.stillRunning && r.exitCode == None && r.signal == ""
    case Unstarted(reason) =>
      r.exitCode == Some(127) && r.signal == "" && !r.stillRunning && !r.timedOut && r.out == NOTHING && r.err == reason
  }

  function ExitOf(s: Session): Option<Exit> {
    if s.program.Some? then s.program.value.exit else None
  }

  /** The result is made, and the line not written yet. */
  predicate Carries(s: Session) {
    && !s.ask.Refused?
    && (s.pc.FollowAdding? || (s.pc.Freezing() && !s.second) || s.pc.Answering() || s.pc.ToolReleasing?)
  }

  predicate ToolStopped(pc: Pc) {
    pc.ToolKilling? || pc.ToolJoining? || pc.ToolTakingOut? || pc.ToolTakingErr?
  }

  /** The result is yet to be made, and what it will say is decided. */
  predicate Decided(s: Session, told: Told) {
    match told
    case Ended =>
      && ExitOf(s).Some?
      && (s.pc.Settling? || (s.pc.Filling() && s.exitSeen) || (ToolStopped(s.pc) && !s.result.timedOut))
    case RunsOn => s.pc.Filling() && !s.exitSeen
    case TimedOut => ToolStopped(s.pc) && s.result.timedOut
    case Unstarted(_) => false
  }

  /** On the way to a line that tells it. */
  predicate OnTheWay(s: Session, told: Told) {
    if Carries(s) then Says(s.result, told, ExitOf(s)) else Decided(s, told)
  }

  predicate LineSays(line: Line, told: Told, exit: Option<Exit>) {
    line.Report? && Says(line.result, told, exit)
  }

  /** The session's k-th line tells it, or will when it is written. */
  predicate WillTell(s: Session, k: nat, told: Told) {
    if k < |s.lines| then LineSays(s.lines[k], told, ExitOf(s)) else k == |s.lines| && OnTheWay(s, told)
  }

  // What is carried stays as it is.

  predicate SameBut(r: Result, t: Result) {
    t.(running := r.running, following := r.following) == r
  }

  predicate CarriesOn(s: Session, t: Session) {
    && Carries(t) && t.lines == s.lines && SameBut(s.result, t.result)
    && t.outSeen == s.outSeen && t.errSeen == s.errSeen
    && (ExitOf(s).Some? ==> ExitOf(t) == ExitOf(s))
  }

  lemma LoadedCarries(s: Session, live: int, following: int)
    requires Carries(s)
    ensures s.pc.LoadingRunning? ==> CarriesOn(s, RunningLoaded(s, live))
    ensures s.pc.LoadingFollowing? ==> CarriesOn(s, FollowingLoaded(s, following))
  {
  }

  lemma FollowedCarries(s: Session)
    requires Carries(s)
    ensures s.pc.FollowAdding? ==> CarriesOn(s, FollowAdded(s))
    ensures s.pc.Unlocking? ==> CarriesOn(s, Unlocked(s))
  {
  }

  lemma FrozenCarries(s: Session)
    requires Carries(s) && s.program.Some?
    ensures s.pc.FreezingOut? ==> CarriesOn(s, FrozenOut(s))
    ensures s.pc.FreezingErr? ==> CarriesOn(s, FrozenErr(s))
  {
  }

  lemma ReleasedCarries(s: Session)
    requires Carries(s) && s.program.Some?
    ensures s.pc.ToolReleasing? ==> CarriesOn(s, ToolReleased(s))
  {
  }

  lemma GoCarries(s: Session, limits: Limits, live: int, following: int)
    requires limits.Valid() && Enabled(s, Go, true) && Carries(s) && !s.pc.Writing?
    ensures CarriesOn(s, After(s, Go, limits, live, following))
  {
    LoadedCarries(s, live, following);
    FollowedCarries(s);
    if s.program.Some? {
      FrozenCarries(s);
      ReleasedCarries(s);
    }
    hide CarriesOn, RunningLoaded, FollowingLoaded, FollowAdded, Unlocked, FrozenOut, FrozenErr, ToolReleased;
  }

  lemma OutsideCarries(s: Session, e: Event)
    requires s.program.Some? && EnabledOutside(s.ask, s.program.value, e) && Carries(s)
    ensures CarriesOn(s, s.(program := Some(Outside(s.program.value, e))))
  {
  }

  lemma OthersAreOutside(s: Session, e: Event, free: bool)
    requires Enabled(s, e, free) && s.pc.Determined() && !e.Go?
    ensures s.program.Some? && EnabledOutside(s.ask, s.program.value, e)
  {
    hide EnabledOutside;
  }

  lemma EventCarries(s: Session, e: Event, limits: Limits, live: int, following: int)
    requires limits.Valid() && Enabled(s, e, true) && Carries(s) && !e.Go?
    ensures CarriesOn(s, After(s, e, limits, live, following))
  {
    assert s.pc.Determined();
    OthersAreOutside(s, e, true);
    DeterminedWaits(s, e, limits, live, following);
    OutsideCarries(s, e);
    hide *;
  }

  lemma StepCarries(s: Session, e: Event, limits: Limits, live: int, following: int)
    requires limits.Valid() && Enabled(s, e, true) && Carries(s) && !(e.Go? && s.pc.Writing?)
    ensures CarriesOn(s, After(s, e, limits, live, following))
  {
    hide *;
    if e.Go? {
      GoCarries(s, limits, live, following);
    } else {
      EventCarries(s, e, limits, live, following);
    }
  }

  lemma WrittenIsCarried(s: Session)
    requires Carries(s) && s.pc.Writing?
    ensures var t := Written(s);
            && t.lines == s.lines + [Report(s.result, s.program.Some?, s.outSeen, s.errSeen)] && t.program == s.program
  {
  }

  lemma AfterWriting(s: Session, limits: Limits, live: int, following: int)
    requires limits.Valid() && Enabled(s, Go, true) && s.pc.Writing?
    ensures After(s, Go, limits, live, following) == Written(s)
  {
    hide Written;
  }

  // What is decided is made so.

  lemma SettledIsDecided(s: Session, told: Told)
    requires s.pc.Settling? && s.exitSeen && s.program.Some? && Decided(s, told)
    ensures Decided(WaitOver(s), told) && WaitOver(s).lines == s.lines && !Carries(WaitOver(s))
    ensures Decided(EndedTaken(s), told) && EndedTaken(s).lines == s.lines && !Carries(EndedTaken(s))
  {
  }

  lemma FilledOutIsDecided(s: Session, limits: Limits, told: Told)
    requires limits.Valid() && s.pc.FillingOut? && s.program.Some? && Decided(s, told)
    ensures var t := FilledOut(s, limits);
            Decided(t, told) && t.lines == s.lines && !Carries(t)
  {
    hide SnapshotOf;
  }

  lemma FilledErrSays(s: Session, limits: Limits, told: Told)
    requires limits.Valid() && s.pc.FillingErr? && s.program.Some? && !s.ask.Refused? && Decided(s, told) && NoOutcome(s.result)
    requires (s.exitSeen ==> s.program.value.exit.Some?)
    ensures var t := FilledErr(s, limits);
            Carries(t) && Says(t.result, told, ExitOf(t)) && t.lines == s.lines
  {
    hide SnapshotOf;
  }

  lemma ToolIsDecided(s: Session, limits: Limits, told: Told)
    requires limits.Valid() && s.program.Some? && Decided(s, told)
    ensures s.pc.ToolKilling? ==> Decided(GroupKilled(s), told) && GroupKilled(s).lines == s.lines && !Carries(GroupKilled(s))
    ensures s.pc.ToolJoining? ==> Decided(ToolJoined(s), told) && ToolJoined(s).lines == s.lines && !Carries(ToolJoined(s))
  {
  }

  lemma OutTakenIsDecided(s: Session, limits: Limits, told: Told)
    requires limits.Valid() && s.pc.ToolTakingOut? && s.program.Some? && Decided(s, told)
    ensures var t := OutTaken(s, limits);
            Decided(t, told) && t.lines == s.lines && !Carries(t)
  {
    hide SnapshotOf;
  }

  lemma ErrTakenSays(s: Session, limits: Limits, told: Told)
    requires limits.Valid() && s.pc.ToolTakingErr? && s.program.Some? && !s.ask.Refused? && Decided(s, told)
    requires NoOutcome(s.result.(timedOut := false)) && s.program.value.exit.Some?
    ensures var t := ErrTaken(s, limits);
            Carries(t) && Says(t.result, told, ExitOf(t)) && t.lines == s.lines
  {
    hide SnapshotOf;
  }

  lemma OutsideIsDecided(s: Session, e: Event, told: Told)
    requires s.program.Some? && EnabledOutside(s.ask, s.program.value, e) && Decided(s, told) && !Carries(s)
    ensures var t := s.(program := Some(Outside(s.program.value, e)));
            Decided(t, told) && t.lines == s.lines && !Carries(t)
  {
  }

  /** What a session at such a point is known to be. */
  lemma DecidedIsKnown(s: Session, limits: Limits, told: Told)
    requires limits.Valid() && SessionOk(s, limits) && Decided(s, told)
    ensures s.program.Some? && !s.ask.Refused? && !Filled(s)
    ensures s.pc.Settling? ==> s.exitSeen
    ensures s.exitSeen ==> s.program.value.exit.Some?
    ensures s.pc.FillingErr? ==> NoOutcome(s.result)
    ensures s.pc.ToolTakingErr? ==> NoOutcome(s.result.(timedOut := false)) && s.program.value.exit.Some?
  {
    hide ReportsOk, KeptOk, LinesOk, ProgramOk, OneOutcome, RunnerInvariant.Tells;
  }

  lemma GoDecided(s: Session, limits: Limits, live: int, following: int, told: Told)
    requires limits.Valid() && SessionOk(s, limits) && Enabled(s, Go, true) && Decided(s, told) && !Carries(s)
    ensures var t := After(s, Go, limits, live, following);
            OnTheWay(t, told) && t.lines == s.lines
  {
    DecidedIsKnown(s, limits, told);
    if s.pc.FillingOut? {
      FilledOutIsDecided(s, limits, told);
    } else if s.pc.FillingErr? {
      FilledErrSays(s, limits, told);
    } else if s.pc.ToolTakingOut? {
      OutTakenIsDecided(s, limits, told);
    } else if s.pc.ToolTakingErr? {
      ErrTakenSays(s, limits, told);
    } else {
      ToolIsDecided(s, limits, told);
    }
    hide SessionOk, Says, FilledOut, FilledErr, OutTaken, ErrTaken, GroupKilled, Carries;
  }

  lemma EventDecided(s: Session, e: Event, limits: Limits, live: int, following: int, told: Told)
    requires limits.Valid() && SessionOk(s, limits) && Enabled(s, e, true) && Decided(s, told) && !Carries(s) && !e.Go?
    ensures var t := After(s, e, limits, live, following);
            OnTheWay(t, told) && t.lines == s.lines
  {
    DecidedIsKnown(s, limits, told);
    hide SessionOk, Says, AfterGo, Outside, EnabledOutside, Carries;
    if s.pc.Settling? && (e.TakeTimer? || e.TakeEnded?) {
      SettledIsDecided(s, told);
    } else if s.pc.ToolJoining? && e.TakeExit? {
      ToolIsDecided(s, limits, told);
    } else {
      OutsideIsDecided(s, e, told);
    }
  }

  lemma CarriedSays(s: Session, t: Session, told: Told)
    requires Carries(s) && Says(s.result, told, ExitOf(s)) && CarriesOn(s, t)
    ensures Says(t.result, told, ExitOf(t))
  {
  }

  lemma LineStays(s: Session, t: Session, k: nat, told: Told)
    requires Grows(s, t) && k < |s.lines| && LineSays(s.lines[k], told, ExitOf(s))
    ensures k < |t.lines| && LineSays(t.lines[k], told, ExitOf(t))
  {
    LinesStay(s, t, k);
  }

  lemma StepTells(s: Session, e: Event, limits: Limits, live: int, following: int, k: nat, told: Told)
    requires limits.Valid() && SessionOk(s, limits) && Enabled(s, e, true) && WillTell(s, k, told)
    ensures WillTell(After(s, e, limits, live, following), k, told)
  {
    var t := After(s, e, limits, live, following);
    hide SessionOk, Enabled, After, Grows, Accounts, Advances, Decided, Says, Carries, CarriesOn, ExitOf, LineSays;
    if k < |s.lines| {
      StepKeeps(s, e, limits, live, following);
      LineStays(s, t, k, told);
    } else if !Carries(s) {
      if e.Go? {
        GoDecided(s, limits, live, following, told);
      } else {
        EventDecided(s, e, limits, live, following, told);
      }
    } else {
      CarriedTells(s, e, limits, live, following, told);
    }
  }

  lemma CarriedTells(s: Session, e: Event, limits: Limits, live: int, following: int, told: Told)
    requires limits.Valid() && Enabled(s, e, true) && Carries(s) && Says(s.result, told, ExitOf(s))
    ensures WillTell(After(s, e, limits, live, following), |s.lines|, told)
  {
    hide Enabled, After, Decided, Says, Carries, CarriesOn, ExitOf, LineSays;
    if e.Go? && s.pc.Writing? {
      AfterWriting(s, limits, live, following);
      WrittenSays(s, told);
    } else {
      StepCarries(s, e, limits, live, following);
      CarriedSays(s, After(s, e, limits, live, following), told);
      CarriedLines(s, After(s, e, limits, live, following));
    }
  }

  lemma CarriedLines(s: Session, t: Session)
    requires CarriesOn(s, t)
    ensures t.lines == s.lines && Carries(t)
  {
  }

  lemma WrittenSays(s: Session, told: Told)
    requires Carries(s) && s.pc.Writing? && Says(s.result, told, ExitOf(s))
    ensures |Written(s).lines| == |s.lines| + 1 && LineSays(Written(s).lines[|s.lines|], told, ExitOf(Written(s)))
  {
    WrittenIsCarried(s);
    hide Written;
  }

  // What a handler has before it takes anything.

  /** Until its wait is over a handler has said nothing and seen no exit; if it was asked to, it follows what it said runs on. */
  predicate FirstOk(s: Session) {
    && (s.pc.Locking? || s.pc.Starting? || s.pc.Counting? || s.pc.ToolAwaiting? ==> s.result == NewResult(s.result.limitMs))
    && (s.pc.Awaiting? || s.pc.Following? ==> !s.exitSeen)
    && (!s.second && s.ask.Command? && s.ask.follow && s.result.stillRunning ==> s.pc.FollowAdding? || s.follows)
    && (!s.second && s.lines != [] && s.lines[0].Report? && s.lines[0].result.stillRunning ==> !(s.ask.Command? && s.ask.follow))
  }

  /** The step leaves a handler's result as it is, or makes it; and what it knows. */
  predicate SameFirst(s: Session, t: Session) {
    && t.lines == s.lines && t.ask == s.ask && t.second == s.second && t.follows == s.follows
    && t.result.stillRunning == s.result.stillRunning
    && !t.pc.Awaiting? && !t.pc.Following? && (!s.pc.FollowAdding? || t.pc.FollowAdding?)
    && (t.pc.Locking? || t.pc.Starting? || t.pc.Counting? || t.pc.ToolAwaiting? ==>
          t.result == s.result && (s.pc.Locking? || s.pc.Starting? || s.pc.Counting?))
  }

  lemma SameKeepsFirst(s: Session, t: Session)
    requires FirstOk(s) && SameFirst(s, t)
    ensures FirstOk(t)
  {
  }

  lemma FilledOutFirst(s: Session, limits: Limits)
    requires limits.Valid() && s.program.Some? && s.pc.FillingOut?
    ensures SameFirst(s, FilledOut(s, limits))
  {
    hide SnapshotOf;
  }

  lemma FilledErrFirst(s: Session, limits: Limits)
    requires limits.Valid() && FirstOk(s) && PhaseOk(s) && s.program.Some? && s.pc.FillingErr? && !s.result.stillRunning
    ensures FirstOk(FilledErr(s, limits))
  {
    hide SnapshotOf;
  }

  lemma TakenFirst(s: Session, limits: Limits)
    requires limits.Valid() && s.program.Some?
    ensures s.pc.ToolTakingOut? ==> SameFirst(s, OutTaken(s, limits))
    ensures s.pc.ToolTakingErr? ==> SameFirst(s, ErrTaken(s, limits))
  {
    hide SnapshotOf;
  }

  lemma FrozenFirst(s: Session)
    requires s.program.Some?
    ensures s.pc.FreezingOut? ==> SameFirst(s, FrozenOut(s))
    ensures s.pc.FreezingErr? ==> SameFirst(s, FrozenErr(s))
  {
  }

  lemma LoadedFirst(s: Session, live: int, following: int)
    ensures s.pc.LoadingRunning? ==> SameFirst(s, RunningLoaded(s, live))
    ensures s.pc.LoadingFollowing? ==> SameFirst(s, FollowingLoaded(s, following))
  {
  }

  lemma UnlockedFirst(s: Session)
    ensures s.pc.Unlocking? ==> SameFirst(s, Unlocked(s))
  {
  }

  lemma ToolFirst(s: Session)
    ensures s.pc.ToolKilling? ==> SameFirst(s, GroupKilled(s))
    ensures s.pc.ToolReleasing? && s.program.Some? ==> SameFirst(s, ToolReleased(s))
  {
  }

  lemma CountedFirst(s: Session)
    requires FirstOk(s) && s.program.Some? && s.pc.Counting?
    ensures FirstOk(Counted(s))
  {
  }

  lemma CheckedFirst(s: Session, limits: Limits)
    requires FirstOk(s) && s.program.Some? && s.pc.Checking? && !s.second && s.lines == []
    ensures FirstOk(Checked(s, limits))
  {
    hide Wait;
  }

  lemma FollowedFirst(s: Session)
    requires FirstOk(s)
    ensures s.pc.FollowAdding? ==> FirstOk(FollowAdded(s))
    ensures s.pc.Unfollowing? && s.second ==> FirstOk(Unfollowed(s))
  {
  }

  lemma WrittenFirst(s: Session)
    requires FirstOk(s) && PhaseOk(s) && SecondOk(s) && ExitOk(s) && LinesOk(s) && s.pc.Writing?
    ensures FirstOk(Written(s))
  {
  }

  lemma GoFirst(s: Session, limits: Limits, live: int, following: int)
    requires limits.Valid() && SessionOk(s, limits) && FirstOk(s) && Enabled(s, Go, true)
    ensures FirstOk(After(s, Go, limits, live, following))
  {
    KnownAtGo(s, limits);
    var t := After(s, Go, limits, live, following);
    LoadedFirst(s, live, following);
    UnlockedFirst(s);
    ToolFirst(s);
    FollowedFirst(s);
    hide SessionOk, FirstOk, SameFirst, Counted, Checked, FilledOut, FilledErr, FollowAdded, FrozenOut, FrozenErr, RunningLoaded,
      FollowingLoaded, Unlocked, Written, Unfollowed, GroupKilled, OutTaken, ErrTaken, ToolReleased;
    if s.pc.Writing? {
      WrittenFirst(s);
    } else if s.pc.Counting? {
      CountedFirst(s);
    } else if s.pc.Checking? {
      CheckedFirst(s, limits);
    } else if s.pc.FillingErr? {
      FilledErrFirst(s, limits);
    } else if !s.pc.FollowAdding? && !s.pc.Unfollowing? {
      if s.pc.FillingOut? {
        FilledOutFirst(s, limits);
      } else if s.pc.ToolTakingOut? || s.pc.ToolTakingErr? {
        TakenFirst(s, limits);
      } else if s.pc.Freezing() {
        FrozenFirst(s);
      }
      SameKeepsFirst(s, t);
    }
  }

  lemma KnownAtGo(s: Session, limits: Limits)
    requires limits.Valid() && SessionOk(s, limits)
    ensures PhaseOk(s) && SecondOk(s) && ExitOk(s) && LinesOk(s)
    ensures s.pc.Checking? ==> !s.second && s.lines == []
    ensures s.pc.FillingErr? ==> !s.result.stillRunning
    ensures s.pc.Unfollowing? ==> s.second
  {
    hide ReportsOk, KeptOk, OneOutcome, RunnerInvariant.Tells;
  }

  lemma WaitedFirst(s: Session)
    ensures s.pc.Awaiting? || s.pc.Settling? || s.pc.Following? ==> SameFirst(s, ExitTaken(s)) && SameFirst(s, WaitOver(s))
  {
  }

  lemma EndedFirst(s: Session)
    ensures s.pc.Settling? && s.program.Some? ==> SameFirst(s, EndedTaken(s))
    ensures s.pc.Following? ==> SameFirst(s, GoneTaken(s))
  {
  }

  lemma ToolWaitedFirst(s: Session)
    ensures s.pc.ToolAwaiting? ==> SameFirst(s, ToolEnded(s)) && SameFirst(s, ToolTimedOut(s))
    ensures s.pc.ToolJoining? ==> SameFirst(s, ToolJoined(s))
  {
  }

  lemma BegunFirst(s: Session, reason: Output, group: int)
    ensures s.pc.Locking? ==> SameFirst(s, Locked(s))
    ensures s.pc.Starting? ==> SameFirst(s, NotStarted(s, reason)) && SameFirst(s, Started(s, group))
  {
  }

  lemma OutsideFirst(s: Session, p: Program)
    requires FirstOk(s) && s.program.Some?
    ensures FirstOk(s.(program := Some(p)))
  {
  }

  lemma EventFirst(s: Session, e: Event, limits: Limits, live: int, following: int)
    requires limits.Valid() && FirstOk(s) && Enabled(s, e, true) && !e.Go?
    ensures FirstOk(After(s, e, limits, live, following))
  {
    BegunFirst(s, if e.StartFail? then e.reason else NOTHING, if e.Start? then e.group else 0);
    WaitedFirst(s);
    EndedFirst(s);
    ToolWaitedFirst(s);
    hide FirstOk, SameFirst, AfterGo, Outside, EnabledOutside, Locked, NotStarted, Started, ExitTaken, WaitOver, EndedTaken, GoneTaken,
      ToolEnded, ToolTimedOut, ToolJoined;
    if Handling(e) {
      SameKeepsFirst(s, After(s, e, limits, live, following));
    } else {
      OutsideFirst(s, Outside(s.program.value, e));
    }
  }

  lemma StepFirst(s: Session, e: Event, limits: Limits, live: int, following: int)
    requires limits.Valid() && SessionOk(s, limits) && FirstOk(s) && Enabled(s, e, true)
    ensures FirstOk(After(s, e, limits, live, following))
  {
    hide *;
    if e.Go? {
      GoFirst(s, limits, live, following);
    } else {
      EventFirst(s, e, limits, live, following);
    }
  }

  // What was filled is shown.

  /** The session's k-th line shows just those bytes of the output, or will when it is written. */
  predicate WillShowOut(s: Session, k: nat, out: seq<byte>) {
    if k < |s.lines| then s.lines[k].Report? && s.lines[k].outSeen == out
    else k == |s.lines| && s.outSeen == out && !s.ask.Refused? && (s.pc.FillingErr? || s.pc.ToolTakingErr? || Carries(s))
  }

  predicate WillShowErr(s: Session, k: nat, err: seq<byte>) {
    if k < |s.lines| then s.lines[k].Report? && s.lines[k].errSeen == err
    else k == |s.lines| && s.errSeen == err && Carries(s)
  }

  lemma ErrFilled(s: Session, limits: Limits)
    requires limits.Valid() && s.program.Some? && !s.ask.Refused?
    ensures s.pc.FillingErr? ==> Carries(FilledErr(s, limits)) && FilledErr(s, limits).outSeen == s.outSeen
    ensures s.pc.FillingErr? ==> FilledErr(s, limits).lines == s.lines
    ensures s.pc.ToolTakingErr? ==> Carries(ErrTaken(s, limits)) && ErrTaken(s, limits).outSeen == s.outSeen
    ensures s.pc.ToolTakingErr? ==> ErrTaken(s, limits).lines == s.lines
  {
    hide SnapshotOf;
  }

  lemma FillingShows(s: Session, e: Event, limits: Limits, live: int, following: int)
    requires limits.Valid() && PhaseOk(s) && Enabled(s, e, true) && (s.pc.FillingErr? || s.pc.ToolTakingErr?) && !s.ask.Refused?
    ensures WillShowOut(After(s, e, limits, live, following), |s.lines|, s.outSeen)
  {
    if e.Go? {
      ErrFilled(s, limits);
      hide FilledErr, ErrTaken, Carries, PhaseOk;
    } else {
      hide PhaseOk, After, Outside, Enabled, Carries;
      assert s.pc.Determined();
      DeterminedWaits(s, e, limits, live, following);
    }
  }

  lemma CarriedShows(s: Session, e: Event, limits: Limits, live: int, following: int)
    requires limits.Valid() && Enabled(s, e, true) && Carries(s)
    ensures WillShowOut(After(s, e, limits, live, following), |s.lines|, s.outSeen)
    ensures WillShowErr(After(s, e, limits, live, following), |s.lines|, s.errSeen)
  {
    if e.Go? && s.pc.Writing? {
      AfterWriting(s, limits, live, following);
      WrittenIsCarried(s);
    } else {
      StepCarries(s, e, limits, live, following);
      CarriedOn(s, After(s, e, limits, live, following));
    }
    hide Carries, After, Enabled, Written;
  }

  lemma CarriedOn(s: Session, t: Session)
    requires CarriesOn(s, t)
    ensures Carries(t) && !t.ask.Refused? && t.lines == s.lines && t.outSeen == s.outSeen && t.errSeen == s.errSeen
  {
  }

  /** What a handler may be held to, from some step on, for one of its lines. */
  datatype Mark = Telling(told: Told) | ShowingOut(out: seq<byte>) | ShowingErr(err: seq<byte>)

  predicate Marked(s: Session, k: nat, mark: Mark) {
    match mark
    case Telling(told) => WillTell(s, k, told)
    case ShowingOut(out) => WillShowOut(s, k, out)
    case ShowingErr(err) => WillShowErr(s, k, err)
  }

  lemma StepKeepsMark(s: Session, e: Event, limits: Limits, live: int, following: int, k: nat, mark: Mark)
    requires limits.Valid() && SessionOk(s, limits) && Enabled(s, e, true) && Marked(s, k, mark)
    ensures Marked(After(s, e, limits, live, following), k, mark)
  {
    var t := After(s, e, limits, live, following);
    KnownAtGo(s, limits);
    hide SessionOk, Enabled, After, PhaseOk, SecondOk, ExitOk, LinesOk, Carries, WillTell, Grows, Accounts, Advances;
    if mark.Telling? {
      StepTells(s, e, limits, live, following, k, mark.told);
    } else if k < |s.lines| {
      StepKeeps(s, e, limits, live, following);
      LinesStay(s, t, k);
    } else if Carries(s) {
      CarriedShows(s, e, limits, live, following);
    } else {
      FillingShows(s, e, limits, live, following);
    }
  }

  lemma NextKeepsMark(st: State, step: Step, i: nat, k: nat, mark: Mark)
    requires Inv(st) && CanStep(st, step) && i < |st.sessions| && Marked(st.sessions[i], k, mark)
    ensures Inv(Next(st, step)) && Next(st, step).limits == st.limits
    ensures i < |Next(st, step).sessions| && Marked(Next(st, step).sessions[i], k, mark)
  {
    hide Marked, SessionOk, After, Enabled, LiveChange, FollowingChange, Grows;
    match step {
      case Connect(ask, direct) => ConnectKeeps(st, ask, direct);
      case At(j, e) =>
        AtKeeps(st, j, e);
        EnabledWhenFree(st.sessions[j], e, st.lock.None?);
        if j == i {
          StepKeepsMark(st.sessions[i], e, st.limits, st.live, st.following, k, mark);
        }
    }
  }

  lemma {:induction false} RunKeepsMark(st: State, steps: seq<Step>, i: nat, k: nat, mark: Mark)
    requires Inv(st) && CanRun(st, steps) && i < |st.sessions| && Marked(st.sessions[i], k, mark)
    ensures var later := Run(st, steps);
            Inv(later) && later.limits == st.limits && i < |later.sessions| && Marked(later.sessions[i], k, mark)
    decreases |steps|
  {
    assert st.limits.Valid();
    hide Inv, Marked, Next, CanStep;
    if steps != [] {
      NextKeepsMark(st, steps[0], i, k, mark);
      RunKeepsMark(Next(st, steps[0]), steps[1..], i, k, mark);
    }
  }

  ghost predicate AllFirstOk(st: State) {
    forall i :: 0 <= i < |st.sessions| ==> FirstOk(st.sessions[i])
  }

  lemma NextFirst(st: State, step: Step)
    requires Inv(st) && CanStep(st, step) && AllFirstOk(st)
    ensures Inv(Next(st, step)) && Next(st, step).limits == st.limits && AllFirstOk(Next(st, step))
  {
    hide SessionOk, After, Enabled, LiveChange, FollowingChange, Grows;
    match step {
      case Connect(ask, direct) => ConnectKeeps(st, ask, direct);
      case At(i, e) =>
        hide FirstOk;
        AtKeeps(st, i, e);
        EnabledWhenFree(st.sessions[i], e, st.lock.None?);
        StepFirst(st.sessions[i], e, st.limits, st.live, st.following);
    }
  }

  lemma {:induction false} RunFirst(st: State, steps: seq<Step>)
    requires Inv(st) && CanRun(st, steps) && AllFirstOk(st)
    ensures Inv(Run(st, steps)) && AllFirstOk(Run(st, steps))
    decreases |steps|
  {
    assert st.limits.Valid();
    hide Inv, AllFirstOk, Next, CanStep;
    if steps != [] {
      NextFirst(st, steps[0]);
      RunFirst(Next(st, steps[0]), steps[1..]);
    }
  }

  lemma ReachedIsFirst(limits: Limits, steps: seq<Step>, st: State, i: nat)
    requires Reached(limits, steps, st) && i < |st.sessions|
    ensures Inv(st) && FirstOk(st.sessions[i]) && SessionOk(st.sessions[i], limits)
  {
    assert Inv(Init(limits)) && AllFirstOk(Init(limits));
    RunFirst(Init(limits), steps);
  }

  // From a reached state on.

  /** The session of a later state, however the run went on after the step. */
  ghost predicate LaterOn(st: State, i: nat, e: Event, more: seq<Step>, t: Session)
    requires st.limits.Valid() && CanStep(st, At(i, e))
  {
    var next := Next(st, At(i, e));
    next.limits == st.limits && CanRun(next, more) && i < |Run(next, more).sessions| && Run(next, more).sessions[i] == t
  }

  lemma MarkIsKept(limits: Limits, steps: seq<Step>, st: State, i: nat, e: Event, more: seq<Step>, t: Session, k: nat, mark: Mark)
    requires Reached(limits, steps, st) && CanStep(st, At(i, e)) && LaterOn(st, i, e, more, t)
    requires Marked(After(st.sessions[i], e, limits, st.live, st.following), k, mark)
    ensures Marked(t, k, mark) && SessionOk(t, limits) && Grows(st.sessions[i], t)
  {
    var next := Next(st, At(i, e));
    ReachedIsInv(limits, steps, st);
    AtKeeps(st, i, e);
    NextIs(st, i, e);
    hide Marked, Next, CanStep, Reached, After, Grows, SessionOk;
    RunKeepsMark(next, more, i, k, mark);
    RunKeeps(next, more);
    GrowsTransitive(st.sessions[i], next.sessions[i], t);
  }

  lemma NextIs(st: State, i: nat, e: Event)
    requires st.limits.Valid() && CanStep(st, At(i, e))
    ensures Enabled(st.sessions[i], e, true)
    ensures i < |Next(st, At(i, e)).sessions|
    ensures Next(st, At(i, e)).sessions[i] == After(st.sessions[i], e, st.limits, st.live, st.following)
  {
    hide After, LiveChange, FollowingChange;
  }

  lemma LineOfMark(t: Session, limits: Limits, k: nat, mark: Mark)
    requires limits.Valid() && SessionOk(t, limits) && Marked(t, k, mark) && k < |t.lines|
    ensures mark.Telling? ==> LineSays(t.lines[k], mark.told, ExitOf(t))
    ensures mark.ShowingOut? ==> t.lines[k].Report? && t.lines[k].outSeen == mark.out
    ensures mark.ShowingErr? ==> t.lines[k].Report? && t.lines[k].errSeen == mark.err
    ensures t.lines[k].Report? && t.program.Some? ==>
              && Shows(t.lines[k].result.out, t.lines[k].outSeen, ShapeOf(t, limits))
              && Shows(t.lines[k].result.err, t.lines[k].errSeen, ShapeOf(t, limits))
    ensures t.lines[k].Report? ==> (t.lines[k].started <==> t.program.Some?) && !t.ask.Refused?
  {
    if t.lines[k].Report? {
      if !t.ask.Refused? {
        assert ReportOk(t.lines[k], t, limits);
      }
    }
    hide ResultOk, KeptOk, ExitOk, SecondOk, PhaseOk, OneOutcome, RunnerInvariant.Tells, Says, LineSays, Shows;
  }

  lemma ExitStays(s: Session, t: Session)
    requires Grows(s, t) && ExitOf(s).Some?
    ensures ExitOf(t) == ExitOf(s)
  {
  }

  /** The handler takes the exit of its program: it was waiting for it, or looks before it begins to. */
  predicate TakesExit(s: Session, e: Event) {
    || (e.TakeExit? && (s.pc.Awaiting? || s.pc.Following? || s.pc.ToolAwaiting?))
    || (e.Go? && s.pc.Checking? && s.program.Some? && s.program.value.exit.Some?)
  }

  lemma TakenExitIsDecided(s: Session, e: Event, limits: Limits, live: int, following: int)
    requires limits.Valid() && SessionOk(s, limits) && FirstOk(s) && Enabled(s, e, true) && TakesExit(s, e)
    ensures ExitOf(s).Some? && WillTell(After(s, e, limits, live, following), |s.lines|, Ended)
  {
    KnownAtGo(s, limits);
    if e.Go? {
      CheckedEnds(s, limits);
    } else {
      ExitTakenEnds(s);
    }
    hide SessionOk, SecondOk, LinesOk, ExitOk, FirstOk, WillTell, Checked, ExitTaken, ToolEnded;
  }

  lemma CheckedEnds(s: Session, limits: Limits)
    requires PhaseOk(s) && s.pc.Checking? && s.program.Some? && s.program.value.exit.Some?
    ensures WillTell(Checked(s, limits), |s.lines|, Ended)
  {
    hide Wait;
  }

  lemma ExitTakenEnds(s: Session)
    requires PhaseOk(s) && FirstOk(s) && ExitOf(s).Some?
    ensures s.pc.Awaiting? || s.pc.Following? ==> WillTell(ExitTaken(s), |s.lines|, Ended)
    ensures s.pc.ToolAwaiting? ==> WillTell(ToolEnded(s), |s.lines|, Ended)
  {
  }

  /**
   A program whose exit its handler took is told of as ended: whether it was awaited, followed, or over before the wait
   began, the next line is not still running, nor timed out, and has just the program's own exit code or signal.
   */
  lemma {:induction false} TakenExitIsTold(limits: Limits, steps: seq<Step>, st: State, i: nat, e: Event,
                                            more: seq<Step>, t: Session)
    requires Reached(limits, steps, st) && CanStep(st, At(i, e)) && LaterOn(st, i, e, more, t)
    requires TakesExit(st.sessions[i], e)
    ensures var s := st.sessions[i];
            && s.program.Some? && s.program.value.exit.Some?
            && (|t.lines| > |s.lines| ==> LineSays(t.lines[|s.lines|], Ended, s.program.value.exit))
  {
    var s := st.sessions[i];
    ReachedIsFirst(limits, steps, st, i);
    NextIs(st, i, e);
    TakenExitIsDecided(s, e, limits, st.live, st.following);
    hide SessionOk, WillTell, FirstOk, After, Inv, Says, LineSays;
    MarkIsKept(limits, steps, st, i, e, more, t, |s.lines|, Telling(Ended));
    ExitStays(s, t);
    if |t.lines| > |s.lines| {
      LineOfMark(t, limits, |s.lines|, Telling(Ended));
    }
  }

  lemma TakenTimerIsDecided(s: Session, limits: Limits, live: int, following: int)
    requires limits.Valid() && SessionOk(s, limits) && FirstOk(s) && Enabled(s, TakeTimer, true) && !s.pc.Settling?
    ensures WillTell(After(s, TakeTimer, limits, live, following), |s.lines|, if s.pc.ToolAwaiting? then TimedOut else RunsOn)
  {
    hide SessionOk;
  }

  /** A wait that is over before the exit was taken is told of as such: a command runs on, a tool timed out, and nothing else. */
  lemma {:induction false} TakenTimerIsTold(limits: Limits, steps: seq<Step>, st: State, i: nat, more: seq<Step>, t: Session)
    requires Reached(limits, steps, st) && CanStep(st, At(i, TakeTimer)) && LaterOn(st, i, TakeTimer, more, t)
    requires !st.sessions[i].pc.Settling?
    ensures var s := st.sessions[i];
            |t.lines| > |s.lines| ==>
              LineSays(t.lines[|s.lines|], if s.pc.ToolAwaiting? then TimedOut else RunsOn, None)
  {
    var s := st.sessions[i];
    var told := if s.pc.ToolAwaiting? then TimedOut else RunsOn;
    ReachedIsFirst(limits, steps, st, i);
    NextIs(st, i, TakeTimer);
    TakenTimerIsDecided(s, limits, st.live, st.following);
    hide SessionOk, WillTell, FirstOk, After, Inv;
    MarkIsKept(limits, steps, st, i, TakeTimer, more, t, |s.lines|, Telling(told));
    if |t.lines| > |s.lines| {
      LineOfMark(t, limits, |s.lines|, Telling(told));
    }
  }

  lemma FailureIsDecided(s: Session, reason: Output, limits: Limits, live: int, following: int)
    requires limits.Valid() && SessionOk(s, limits) && FirstOk(s) && Enabled(s, StartFail(reason), true)
    ensures WillTell(After(s, StartFail(reason), limits, live, following), |s.lines|, Unstarted(reason))
    ensures |s.lines| == 0
  {
    hide ResultOk, ReportsOk, KeptOk;
  }

  /** A program that could not be started is told of as such: exit code 127, the reason as its error output, and nothing else. */
  lemma {:induction false} FailureIsTold(limits: Limits, steps: seq<Step>, st: State, i: nat, reason: Output,
                                          more: seq<Step>, t: Session)
    requires Reached(limits, steps, st) && CanStep(st, At(i, StartFail(reason))) && LaterOn(st, i, StartFail(reason), more, t)
    ensures t.lines != [] ==> LineSays(t.lines[0], Unstarted(reason), None)
  {
    var s := st.sessions[i];
    ReachedIsFirst(limits, steps, st, i);
    NextIs(st, i, StartFail(reason));
    FailureIsDecided(s, reason, limits, st.live, st.following);
    hide SessionOk, WillTell, FirstOk, After, Inv;
    MarkIsKept(limits, steps, st, i, StartFail(reason), more, t, 0, Telling(Unstarted(reason)));
    if t.lines != [] {
      LineOfMark(t, limits, 0, Telling(Unstarted(reason)));
    }
  }

  lemma FillIsDecided(s: Session, limits: Limits, live: int, following: int)
    requires limits.Valid() && SessionOk(s, limits) && Enabled(s, Go, true)
    ensures s.pc.FillingOut? || s.pc.ToolTakingOut? ==>
              s.program.Some? && WillShowOut(After(s, Go, limits, live, following), |s.lines|, s.program.value.out.all)
    ensures s.pc.FillingErr? || s.pc.ToolTakingErr? ==>
              s.program.Some? && WillShowErr(After(s, Go, limits, live, following), |s.lines|, s.program.value.err.all)
  {
    KnownAtGo(s, limits);
    hide SessionOk, SnapshotOf, Counted, Checked, FollowAdded, FrozenOut, FrozenErr, RunningLoaded, FollowingLoaded, Unlocked, Written,
      Unfollowed, GroupKilled, ToolReleased, SecondOk, LinesOk;
  }

  /** What a buffer for a tool, or for a command, shows of the bytes: a tool's keeps its head alone. */
  predicate ShowsAll(out: Output, bytes: seq<byte>, limits: Limits, tool: bool)
    requires limits.Valid()
  {
    out == SnapshotOf(Held(bytes, false), Shape(limits.maxOutput, tool))
  }

  /** The next line shows of each output just what had been read of it when its handler filled it in: all of it, and no more. */
  lemma {:induction false} FillIsShown(limits: Limits, steps: seq<Step>, st: State, i: nat, more: seq<Step>, t: Session)
    requires Reached(limits, steps, st) && CanStep(st, At(i, Go)) && LaterOn(st, i, Go, more, t)
    ensures var s, k := st.sessions[i], |st.sessions[i].lines|;
            && (k < |t.lines| && (s.pc.FillingOut? || s.pc.ToolTakingOut?) ==>
                  && s.program.Some? && t.lines[k].Report? && t.lines[k].outSeen == s.program.value.out.all
                  && ShowsAll(t.lines[k].result.out, s.program.value.out.all, limits, s.ask.Tool?))
            && (k < |t.lines| && (s.pc.FillingErr? || s.pc.ToolTakingErr?) ==>
                  && s.program.Some? && t.lines[k].Report? && t.lines[k].errSeen == s.program.value.err.all
                  && ShowsAll(t.lines[k].result.err, s.program.value.err.all, limits, s.ask.Tool?))
  {
    var s, k := st.sessions[i], |st.sessions[i].lines|;
    ReachedIsFirst(limits, steps, st, i);
    NextIs(st, i, Go);
    FillIsDecided(s, limits, st.live, st.following);
    hide *;
    if k < |t.lines| {
      if s.pc.FillingOut? || s.pc.ToolTakingOut? {
        MarkIsShown(limits, steps, st, i, Go, more, t, ShowingOut(s.program.value.out.all));
      }
      if s.pc.FillingErr? || s.pc.ToolTakingErr? {
        MarkIsShown(limits, steps, st, i, Go, more, t, ShowingErr(s.program.value.err.all));
      }
    }
  }

  lemma MarkIsShown(limits: Limits, steps: seq<Step>, st: State, i: nat, e: Event, more: seq<Step>, t: Session, mark: Mark)
    requires Reached(limits, steps, st) && CanStep(st, At(i, e)) && LaterOn(st, i, e, more, t) && st.sessions[i].program.Some?
    requires mark.ShowingOut? ==>
               WillShowOut(After(st.sessions[i], e, limits, st.live, st.following), |st.sessions[i].lines|, mark.out)
    requires mark.ShowingErr? ==>
               WillShowErr(After(st.sessions[i], e, limits, st.live, st.following), |st.sessions[i].lines|, mark.err)
    requires !mark.Telling? && |st.sessions[i].lines| < |t.lines|
    ensures var s, line := st.sessions[i], t.lines[|st.sessions[i].lines|];
            && (mark.ShowingOut? ==>
                  line.Report? && line.outSeen == mark.out && ShowsAll(line.result.out, mark.out, limits, s.ask.Tool?))
            && (mark.ShowingErr? ==>
                  line.Report? && line.errSeen == mark.err && ShowsAll(line.result.err, mark.err, limits, s.ask.Tool?))
  {
    var s, k := st.sessions[i], |st.sessions[i].lines|;
    hide WillShowOut, WillShowErr, Reached, After, SessionOk, Grows, ShowsAll, LaterOn, CanStep;
    MarkIsKept(limits, steps, st, i, e, more, t, k, mark);
    ShownIsAll(s, t, limits, k, mark);
  }

  lemma ShownIsAll(s: Session, t: Session, limits: Limits, k: nat, mark: Mark)
    requires limits.Valid() && SessionOk(t, limits) && Grows(s, t) && s.program.Some? && Marked(t, k, mark) && k < |t.lines|
    ensures mark.ShowingOut? ==>
              t.lines[k].Report? && t.lines[k].outSeen == mark.out && ShowsAll(t.lines[k].result.out, mark.out, limits, s.ask.Tool?)
    ensures mark.ShowingErr? ==>
              t.lines[k].Report? && t.lines[k].errSeen == mark.err && ShowsAll(t.lines[k].result.err, mark.err, limits, s.ask.Tool?)
  {
    hide *;
    LineOfMark(t, limits, k, mark);
    if mark.ShowingOut? {
      GrownShape(s, t, limits, t.lines[k].result.out, mark.out);
    }
    if mark.ShowingErr? {
      GrownShape(s, t, limits, t.lines[k].result.err, mark.err);
    }
  }

  lemma GrownShape(s: Session, t: Session, limits: Limits, out: Output, bytes: seq<byte>)
    requires limits.Valid() && Grows(s, t) && s.program.Some?
    ensures t.program.Some? && (Shows(out, bytes, ShapeOf(t, limits)) ==> ShowsAll(out, bytes, limits, s.ask.Tool?))
  {
    hide SnapshotOf;
  }

  /** A command that was to be followed and first said to run on is told of again, unless its follower was gone; no other is. */
  lemma {:induction false} FollowedIsToldAgain(limits: Limits, steps: seq<Step>, st: State, i: nat)
    requires Reached(limits, steps, st) && i < |st.sessions| && st.sessions[i].pc.Done?
    ensures var s := st.sessions[i];
            && |s.lines| >= 1
            && (|s.lines| == 2 <==>
                  s.ask.Command? && s.ask.follow && s.lines[0].Report? && s.lines[0].result.stillRunning && !s.gone)
  {
    ReachedIsFirst(limits, steps, st, i);
    hide ResultOk, KeptOk, ExitOk;
  }
}
