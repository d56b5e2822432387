/** The times and counts a report of the runner carries, from the step that chooses them to the line that is written. */
module RunnerTimes {
  import opened Common
  import opened Capped
  import opened Runner
  import opened RunnerInvariant
  import opened RunnerRuns

  /** The limit a result names: the response limit, or a tool's own timeout. */
  function LimitOf(ask: Ask, limits: Limits): int {
    if ask.Tool? then ToolTimeout(ask.timeout, limits) else limits.response
  }

  /** How long a first line says was waited for: a started command's wait within its clamps. */
  function WaitedOf(ask: Ask, started: bool, limits: Limits): int {
    if ask.Command? && started then Wait(ask.wait, limits) else 0
  }

  /** A first answer's wait has been chosen. */
  predicate HasWait(s: Session) {
    s.program.Some? && !s.second && !s.pc.Counting? && !s.pc.Checking?
  }

  predicate TimesOk(s: Session, limits: Limits) {
    && s.result.limitMs == LimitOf(s.ask, limits)
    && s.result.waitedMs == WaitedOf(s.ask, HasWait(s), limits)
    && LineTimesOk(s.lines, s.ask, s.program.Some?, limits)
  }

  predicate LineTimesOk(lines: seq<Line>, ask: Ask, started: bool, limits: Limits) {
    forall k :: 0 <= k < |lines| && lines[k].Report? ==>
      && lines[k].result.limitMs == LimitOf(ask, limits)
      && lines[k].result.waitedMs == WaitedOf(ask, k == 0 && started, limits)
  }

  /** The step neither writes a line nor chooses a wait. */
  predicate SameTimes(s: Session, t: Session) {
    && t.lines == s.lines && t.ask == s.ask && HasWait(t) == HasWait(s)
    && (s.lines == [] || t.program.Some? == s.program.Some?)
    && t.result.limitMs == s.result.limitMs && t.result.waitedMs == s.result.waitedMs
  }

  lemma SameKeepsTimes(s: Session, t: Session, limits: Limits)
    requires TimesOk(s, limits) && SameTimes(s, t)
    ensures TimesOk(t, limits)
  {
    hide HasWait, LimitOf, WaitedOf;
  }

  lemma WrittenKeepsTimes(s: Session, limits: Limits)
    requires limits.Valid() && PhaseOk(s) && SecondOk(s) && LinesOk(s) && TimesOk(s, limits) && s.pc.Writing?
    ensures TimesOk(Written(s), limits)
  {
    hide Wait, ToolTimeout;
  }

  lemma CheckedKeepsTimes(s: Session, limits: Limits)
    requires limits.Valid() && PhaseOk(s) && SecondOk(s) && TimesOk(s, limits) && s.pc.Checking?
    ensures TimesOk(Checked(s, limits), limits)
  {
    hide Wait, ToolTimeout;
  }

  lemma CountedKeepsTimes(s: Session, limits: Limits)
    requires limits.Valid() && PhaseOk(s) && SecondOk(s) && TimesOk(s, limits) && s.pc.Counting?
    ensures TimesOk(Counted(s), limits)
  {
    hide Wait, ToolTimeout;
  }

  lemma FilledIsSame(s: Session, limits: Limits)
    requires limits.Valid() && s.program.Some? && (s.pc.FillingOut? || s.pc.FillingErr?)
    ensures s.pc.FillingOut? ==> SameTimes(s, FilledOut(s, limits))
    ensures s.pc.FillingErr? ==> SameTimes(s, FilledErr(s, limits))
  {
    hide SnapshotOf;
  }

  lemma TakenIsSame(s: Session, limits: Limits)
    requires limits.Valid() && s.program.Some? && (s.pc.ToolTakingOut? || s.pc.ToolTakingErr?)
    ensures s.pc.ToolTakingOut? ==> SameTimes(s, OutTaken(s, limits))
    ensures s.pc.ToolTakingErr? ==> SameTimes(s, ErrTaken(s, limits))
  {
    hide SnapshotOf;
  }

  lemma GoIsSame(s: Session, limits: Limits, live: int, following: int)
    requires limits.Valid() && Enabled(s, Go, true) && !s.pc.Counting? && !s.pc.Checking? && !s.pc.Writing?
    ensures SameTimes(s, AfterGo(s, limits, live, following))
  {
    hide FilledOut, FilledErr, OutTaken, ErrTaken, SameTimes;
    if s.pc.Filling() {
      FilledIsSame(s, limits);
    } else if s.pc.ToolTakingOut? || s.pc.ToolTakingErr? {
      TakenIsSame(s, limits);
    } else {
      RestIsSame(s, limits, live, following);
    }
  }

  lemma FrozenIsSame(s: Session)
    requires s.program.Some?
    ensures s.pc.FreezingOut? ==> SameTimes(s, FrozenOut(s))
    ensures s.pc.FreezingErr? ==> SameTimes(s, FrozenErr(s))
  {
  }

  lemma CountsAreSame(s: Session, live: int, following: int)
    ensures s.pc.LoadingRunning? ==> SameTimes(s, RunningLoaded(s, live))
    ensures s.pc.LoadingFollowing? ==> SameTimes(s, FollowingLoaded(s, following))
  {
  }

  lemma FollowedIsSame(s: Session)
    ensures s.pc.FollowAdding? ==> SameTimes(s, FollowAdded(s))
    ensures s.pc.Unlocking? ==> SameTimes(s, Unlocked(s))
    ensures s.pc.Unfollowing? ==> SameTimes(s, Unfollowed(s))
  {
  }

  lemma ToolIsSame(s: Session)
    ensures s.pc.ToolKilling? ==> SameTimes(s, GroupKilled(s))
    ensures s.pc.ToolReleasing? && s.program.Some? ==> SameTimes(s, ToolReleased(s))
  {
  }

  lemma RestIsSame(s: Session, limits: Limits, live: int, following: int)
    requires limits.Valid() && Enabled(s, Go, true) && !s.pc.Counting? && !s.pc.Checking? && !s.pc.Writing?
    requires !s.pc.Filling() && !s.pc.ToolTakingOut? && !s.pc.ToolTakingErr?
    ensures SameTimes(s, AfterGo(s, limits, live, following))
  {
    hide SameTimes, FrozenOut, FrozenErr, RunningLoaded, FollowingLoaded, FollowAdded, Unlocked, Unfollowed, GroupKilled, ToolReleased;
    if s.program.Some? {
      FrozenIsSame(s);
    }
    CountsAreSame(s, live, following);
    FollowedIsSame(s);
    ToolIsSame(s);
  }

  lemma WaitedIsSame(s: Session)
    ensures s.pc.Awaiting? || s.pc.Settling? || s.pc.Following? ==> SameTimes(s, ExitTaken(s)) && SameTimes(s, WaitOver(s))
    ensures s.pc.Settling? && s.program.Some? ==> SameTimes(s, EndedTaken(s))
    ensures s.pc.Following? ==> SameTimes(s, GoneTaken(s))
  {
  }

  lemma ToolWaitedIsSame(s: Session)
    ensures s.pc.ToolAwaiting? ==> SameTimes(s, ToolEnded(s)) && SameTimes(s, ToolTimedOut(s))
    ensures s.pc.ToolJoining? ==> SameTimes(s, ToolJoined(s))
  {
  }

  lemma BegunIsSame(s: Session, reason: Output, group: int)
    requires PhaseOk(s) && SecondOk(s) && LinesOk(s)
    ensures s.pc.Locking? ==> SameTimes(s, Locked(s))
    ensures s.pc.Starting? ==> SameTimes(s, NotStarted(s, reason)) && SameTimes(s, Started(s, group))
  {
  }

  lemma OutsideIsSame(s: Session, p: Program)
    requires s.program.Some?
    ensures SameTimes(s, s.(program := Some(p)))
  {
  }

  lemma EventIsSame(s: Session, e: Event, limits: Limits, live: int, following: int)
    requires limits.Valid() && PhaseOk(s) && SecondOk(s) && LinesOk(s) && Enabled(s, e, true) && !e.Go?
    ensures SameTimes(s, After(s, e, limits, live, following))
  {
    BegunIsSame(s, if e.StartFail? then e.reason else NOTHING, if e.Start? then e.group else 0);
    hide PhaseOk, SecondOk, LinesOk, SameTimes, AfterGo, Outside, EnabledOutside, Locked, NotStarted, Started, ExitTaken, WaitOver,
      EndedTaken, GoneTaken, ToolEnded, ToolTimedOut, ToolJoined;
    WaitedIsSame(s);
    ToolWaitedIsSame(s);
    if s.program.Some? {
      OutsideIsSame(s, Outside(s.program.value, e));
    }
  }

  /** Every report names the limit it was held to, and a first one the wait its request was given. */
  lemma StepKeepsTimes(s: Session, e: Event, limits: Limits, live: int, following: int)
    requires limits.Valid() && PhaseOk(s) && SecondOk(s) && LinesOk(s) && TimesOk(s, limits) && Enabled(s, e, true)
    ensures TimesOk(After(s, e, limits, live, following), limits)
  {
    hide PhaseOk, SecondOk, LinesOk, TimesOk, SameTimes, Counted, Checked, Written;
    if !e.Go? {
      EventIsSame(s, e, limits, live, following);
      SameKeepsTimes(s, After(s, e, limits, live, following), limits);
    } else if s.pc.Counting? {
      CountedKeepsTimes(s, limits);
    } else if s.pc.Checking? {
      CheckedKeepsTimes(s, limits);
    } else if s.pc.Writing? {
      WrittenKeepsTimes(s, limits);
    } else {
      GoIsSame(s, limits, live, following);
      SameKeepsTimes(s, AfterGo(s, limits, live, following), limits);
    }
  }

  ghost predicate AllTimesOk(st: State) {
    st.limits.Valid() && forall i :: 0 <= i < |st.sessions| ==> TimesOk(st.sessions[i], st.limits)
  }

  lemma NextKeepsTimes(st: State, step: Step)
    requires Inv(st) && AllTimesOk(st) && CanStep(st, step)
    ensures AllTimesOk(Next(st, step)) && Inv(Next(st, step))
  {
    hide TimesOk, SessionOk, After, Enabled, LiveChange, FollowingChange, Grows;
    match step {
      case Connect(ask, direct) =>
        ConnectKeeps(st, ask, direct);
        NewTimesOk(ask, direct, st.limits);
      case At(i, e) =>
        AtKeeps(st, i, e);
        EnabledWhenFree(st.sessions[i], e, st.lock.None?);
        ControlOfSession(st.sessions[i], st.limits);
        StepKeepsTimes(st.sessions[i], e, st.limits, st.live, st.following);
    }
  }

  lemma ControlOfSession(s: Session, limits: Limits)
    requires limits.Valid() && SessionOk(s, limits)
    ensures PhaseOk(s) && SecondOk(s) && LinesOk(s)
  {
  }

  lemma NewTimesOk(ask: Ask, direct: bool, limits: Limits)
    ensures TimesOk(NewSession(ask, direct, limits), limits)
  {
  }

  lemma {:induction false} RunKeepsTimes(st: State, steps: seq<Step>)
    requires Inv(st) && AllTimesOk(st) && CanRun(st, steps)
    ensures AllTimesOk(Run(st, steps)) && Run(st, steps).limits == st.limits
    decreases |steps|
  {
    assert st.limits.Valid();
    hide Inv, AllTimesOk, Next, CanStep;
    if steps != [] {
      NextKeepsTimes(st, steps[0]);
      NextLimits(st, steps[0]);
      RunKeepsTimes(Next(st, steps[0]), steps[1..]);
    }
  }

  /**
   Every report names the limit it was held to: the response limit, or a tool's own timeout. A first report of a command
   names the wait it was given, kept within 0 and the response limit; no other report names one.
   */
  lemma {:induction false} ReportsNameTheirTimes(limits: Limits, steps: seq<Step>, st: State, i: nat, k: nat)
    requires Reached(limits, steps, st) && i < |st.sessions| && k < |st.sessions[i].lines| && st.sessions[i].lines[k].Report?
    ensures var s, r := st.sessions[i], st.sessions[i].lines[k].result;
            && r.limitMs == LimitOf(s.ask, limits)
            && r.waitedMs == WaitedOf(s.ask, k == 0 && s.program.Some?, limits)
  {
    assert Inv(Init(limits)) && AllTimesOk(Init(limits));
    RunKeepsTimes(Init(limits), steps);
    assert TimesOk(st.sessions[i], limits);
  }

  /** What a handler that has its counts may change of them, and of its lines. */
  predicate CountsHold(s: Session, t: Session) {
    && t.result.(following := s.result.following) == s.result
    && (s.pc.LoadingFollowing? || t.result == s.result)
    && t.lines == s.lines
  }

  /** The two counts, once loaded, are those of the line that is written, whatever happens in between. */
  lemma {:induction false} WhatIsLoadedIsWritten(s: Session, e: Event, limits: Limits, live: int, following: int)
    requires limits.Valid() && Enabled(s, e, true)
    requires s.pc.LoadingFollowing? || s.pc.ToolReleasing? || s.pc.Unlocking? || s.pc.Writing?
    ensures var t := After(s, e, limits, live, following);
            if s.pc.Writing? && e.Go?
            then t.lines == s.lines + [if s.ask.Refused? then Refusal else Report(s.result, s.program.Some?, s.outSeen, s.errSeen)]
            else CountsHold(s, t) && (!e.Go? ==> t.pc == s.pc)
  {
    hide AfterGo, Outside, EnabledOutside;
    if e.Go? {
      GoWrites(s, limits, live, following);
    }
  }

  lemma GoWrites(s: Session, limits: Limits, live: int, following: int)
    requires limits.Valid() && Enabled(s, Go, true)
    requires s.pc.LoadingFollowing? || s.pc.ToolReleasing? || s.pc.Unlocking? || s.pc.Writing?
    ensures var t := AfterGo(s, limits, live, following);
            if s.pc.Writing?
            then t.lines == s.lines + [if s.ask.Refused? then Refusal else Report(s.result, s.program.Some?, s.outSeen, s.errSeen)]
            else CountsHold(s, t)
  {
    hide Counted, Checked, FilledOut, FilledErr, OutTaken, ErrTaken, FrozenOut, FrozenErr, RunningLoaded;
  }
}
