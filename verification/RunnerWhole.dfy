/** When a report of the runner shows all of the output there is, not only a beginning of it. */
module RunnerWhole {
  import opened Common
  import opened Utf8
  import opened Capped
  import opened Runner
  import opened RunnerInvariant
  import opened RunnerRuns

  /** Nothing more is read of the program's pipes: a tool has exited, a command's pipes both came to their ends. */
  predicate Sealed(s: Session, out: seq<byte>, err: seq<byte>) {
    && s.program.Some? && s.program.value.out.all == out && s.program.value.err.all == err
    && (if s.ask.Tool? then s.program.value.exit.Some? else s.program.value.out.drained && s.program.value.err.drained)
  }

  predicate SawAll(line: Line, out: seq<byte>, err: seq<byte>) {
    line.Report? && line.outSeen == out && line.errSeen == err
  }

  /** On the way from filling a result to writing it: what was filled so far saw all there is. */
  predicate SeesAll(s: Session, out: seq<byte>, err: seq<byte>) {
    || s.pc.FillingOut? || s.pc.ToolTakingOut?
    || ((s.pc.FillingErr? || s.pc.ToolTakingErr?) && s.outSeen == out)
    || ((s.pc.FollowAdding? || (s.pc.Freezing() && !s.second) || s.pc.Answering() || s.pc.ToolReleasing?)
        && s.outSeen == out && s.errSeen == err)
  }

  /** The session's k-th line saw, or when it is written will have seen, all there is. */
  predicate Whole(s: Session, k: nat, out: seq<byte>, err: seq<byte>) {
    && Sealed(s, out, err)
    && if k < |s.lines| then SawAll(s.lines[k], out, err) else k == |s.lines| && SeesAll(s, out, err)
  }

  lemma OutsideStaysSealed(s: Session, e: Event, out: seq<byte>, err: seq<byte>)
    requires Sealed(s, out, err) && EnabledOutside(s.ask, s.program.value, e)
    ensures Sealed(s.(program := Some(Outside(s.program.value, e))), out, err)
  {
  }

  lemma FilledStaysSealed(s: Session, limits: Limits, out: seq<byte>, err: seq<byte>)
    requires limits.Valid() && Sealed(s, out, err)
    ensures Sealed(FilledOut(s, limits), out, err) && Sealed(FilledErr(s, limits), out, err)
    ensures Sealed(OutTaken(s, limits), out, err) && Sealed(ErrTaken(s, limits), out, err)
  {
    hide SnapshotOf;
  }

  lemma RestStaysSealed(s: Session, live: int, following: int, out: seq<byte>, err: seq<byte>)
    requires Sealed(s, out, err)
    ensures Sealed(FollowAdded(s), out, err) && Sealed(RunningLoaded(s, live), out, err) && Sealed(FollowingLoaded(s, following), out, err)
    ensures Sealed(Unlocked(s), out, err) && Sealed(Unfollowed(s), out, err) && Sealed(GroupKilled(s), out, err)
  {
    SameStaysSealed(s, FollowAdded(s), out, err);
    SameStaysSealed(s, RunningLoaded(s, live), out, err);
    SameStaysSealed(s, FollowingLoaded(s, following), out, err);
    SameStaysSealed(s, Unlocked(s), out, err);
    SameStaysSealed(s, Unfollowed(s), out, err);
    SameStaysSealed(s, GroupKilled(s), out, err);
    hide Sealed;
  }

  lemma SameStaysSealed(s: Session, t: Session, out: seq<byte>, err: seq<byte>)
    requires Sealed(s, out, err) && t.ask == s.ask && t.program == s.program
    ensures Sealed(t, out, err)
  {
  }

  lemma ReleasedStaysSealed(s: Session, out: seq<byte>, err: seq<byte>)
    requires Sealed(s, out, err)
    ensures Sealed(Counted(s), out, err) && Sealed(ToolReleased(s), out, err) && Sealed(EndedTaken(s), out, err)
  {
  }

  lemma FrozenStaysSealed(s: Session, out: seq<byte>, err: seq<byte>)
    requires Sealed(s, out, err)
    ensures Sealed(FrozenOut(s), out, err) && Sealed(FrozenErr(s), out, err) && Sealed(Written(s), out, err)
  {
  }

  lemma CheckedStaysSealed(s: Session, limits: Limits, out: seq<byte>, err: seq<byte>)
    requires Sealed(s, out, err)
    ensures Sealed(Checked(s, limits), out, err)
  {
    hide Wait;
  }

  lemma GoStaysSealed(s: Session, limits: Limits, live: int, following: int, out: seq<byte>, err: seq<byte>)
    requires limits.Valid() && Enabled(s, Go, true) && Sealed(s, out, err)
    ensures Sealed(AfterGo(s, limits, live, following), out, err)
  {
    assert s.program.Some?;
    FilledStaysSealed(s, limits, out, err);
    RestStaysSealed(s, live, following, out, err);
    ReleasedStaysSealed(s, out, err);
    FrozenStaysSealed(s, out, err);
    CheckedStaysSealed(s, limits, out, err);
    hide Sealed, Counted, Checked, FilledOut, FilledErr, FollowAdded, FrozenOut, FrozenErr, RunningLoaded, FollowingLoaded, Unlocked,
      Written, Unfollowed, GroupKilled, OutTaken, ErrTaken, ToolReleased;
  }

  /** What is sealed stays so, and grows no more. */
  lemma StaysSealed(s: Session, e: Event, limits: Limits, live: int, following: int, out: seq<byte>, err: seq<byte>)
    requires limits.Valid() && PhaseOk(s) && Enabled(s, e, true) && Sealed(s, out, err)
    ensures Sealed(After(s, e, limits, live, following), out, err)
  {
    hide AfterGo, Outside, EnabledOutside;
    if e.Go? {
      GoStaysSealed(s, limits, live, following, out, err);
    } else if Handling(e) {
      WaitingStaysSealed(s, e, limits, live, following, out, err);
    } else {
      OutsideStaysSealed(s, e, out, err);
    }
  }

  lemma WaitedStaysSealed(s: Session, out: seq<byte>, err: seq<byte>)
    requires Sealed(s, out, err)
    ensures Sealed(ExitTaken(s), out, err) && Sealed(WaitOver(s), out, err) && Sealed(GoneTaken(s), out, err)
    ensures Sealed(ToolEnded(s), out, err) && Sealed(ToolTimedOut(s), out, err) && Sealed(ToolJoined(s), out, err)
  {
    SameStaysSealed(s, ExitTaken(s), out, err);
    SameStaysSealed(s, WaitOver(s), out, err);
    SameStaysSealed(s, GoneTaken(s), out, err);
    SameStaysSealed(s, ToolEnded(s), out, err);
    SameStaysSealed(s, ToolTimedOut(s), out, err);
    SameStaysSealed(s, ToolJoined(s), out, err);
    hide Sealed;
  }

  lemma WaitingStaysSealed(s: Session, e: Event, limits: Limits, live: int, following: int, out: seq<byte>, err: seq<byte>)
    requires limits.Valid() && PhaseOk(s) && Enabled(s, e, true) && Sealed(s, out, err) && Handling(e) && !e.Go?
    ensures Sealed(After(s, e, limits, live, following), out, err)
  {
    assert s.program.Some? && !s.pc.Locking? && !s.pc.Starting?;
    ReleasedStaysSealed(s, out, err);
    WaitedStaysSealed(s, out, err);
    hide PhaseOk, AfterGo, Outside, EnabledOutside, Sealed, Locked, NotStarted, Started, Counted, ToolReleased, EndedTaken, ExitTaken,
      WaitOver, GoneTaken, ToolEnded, ToolTimedOut, ToolJoined;
  }

  lemma FilledSeesAll(s: Session, limits: Limits, out: seq<byte>, err: seq<byte>)
    requires limits.Valid() && Sealed(s, out, err) && SeesAll(s, out, err)
    ensures s.pc.FillingOut? ==> SeesAll(FilledOut(s, limits), out, err) && FilledOut(s, limits).lines == s.lines
    ensures s.pc.FillingErr? ==> SeesAll(FilledErr(s, limits), out, err) && FilledErr(s, limits).lines == s.lines
  {
    hide SnapshotOf;
  }

  lemma TakenSeesAll(s: Session, limits: Limits, out: seq<byte>, err: seq<byte>)
    requires limits.Valid() && Sealed(s, out, err) && SeesAll(s, out, err)
    ensures s.pc.ToolTakingOut? ==> SeesAll(OutTaken(s, limits), out, err) && OutTaken(s, limits).lines == s.lines
    ensures s.pc.ToolTakingErr? ==> SeesAll(ErrTaken(s, limits), out, err) && ErrTaken(s, limits).lines == s.lines
  {
    hide SnapshotOf;
  }

  lemma FrozenSeesAll(s: Session, out: seq<byte>, err: seq<byte>)
    requires Sealed(s, out, err) && SeesAll(s, out, err)
    ensures s.pc.FreezingOut? ==> SeesAll(FrozenOut(s), out, err) && FrozenOut(s).lines == s.lines
    ensures s.pc.FreezingErr? ==> SeesAll(FrozenErr(s), out, err) && FrozenErr(s).lines == s.lines
    ensures s.pc.ToolReleasing? ==> SeesAll(ToolReleased(s), out, err) && ToolReleased(s).lines == s.lines
  {
  }

  lemma LoadedSeesAll(s: Session, live: int, following: int, out: seq<byte>, err: seq<byte>)
    requires SeesAll(s, out, err)
    ensures s.pc.LoadingRunning? ==> SeesAll(RunningLoaded(s, live), out, err) && RunningLoaded(s, live).lines == s.lines
    ensures s.pc.LoadingFollowing? ==> SeesAll(FollowingLoaded(s, following), out, err) && FollowingLoaded(s, following).lines == s.lines
  {
  }

  lemma GoneOnSeesAll(s: Session, out: seq<byte>, err: seq<byte>)
    requires SeesAll(s, out, err)
    ensures s.pc.FollowAdding? ==> SeesAll(FollowAdded(s), out, err) && FollowAdded(s).lines == s.lines
    ensures s.pc.Unlocking? ==> SeesAll(Unlocked(s), out, err) && Unlocked(s).lines == s.lines
  {
  }

  lemma WrittenSawAll(s: Session, out: seq<byte>, err: seq<byte>)
    requires PhaseOk(s) && Sealed(s, out, err) && SeesAll(s, out, err) && s.pc.Writing?
    ensures |Written(s).lines| == |s.lines| + 1 && SawAll(Written(s).lines[|s.lines|], out, err)
  {
  }

  lemma GoSeesAll(s: Session, limits: Limits, live: int, following: int, out: seq<byte>, err: seq<byte>)
    requires limits.Valid() && PhaseOk(s) && Enabled(s, Go, true) && Sealed(s, out, err) && SeesAll(s, out, err)
    ensures var t := After(s, Go, limits, live, following);
            if s.pc.Writing? then |t.lines| == |s.lines| + 1 && SawAll(t.lines[|s.lines|], out, err)
            else t.lines == s.lines && SeesAll(t, out, err)
  {
    FilledSeesAll(s, limits, out, err);
    TakenSeesAll(s, limits, out, err);
    FrozenSeesAll(s, out, err);
    LoadedSeesAll(s, live, following, out, err);
    GoneOnSeesAll(s, out, err);
    hide PhaseOk, Sealed, SawAll, FilledOut, FilledErr, OutTaken, ErrTaken, FrozenOut, FrozenErr, ToolReleased, FollowAdded,
      RunningLoaded, FollowingLoaded, Unlocked, Written;
    if s.pc.Writing? {
      WrittenSawAll(s, out, err);
    }
  }

  lemma DeterminedWaits(s: Session, e: Event, limits: Limits, live: int, following: int)
    requires limits.Valid() && Enabled(s, e, true) && s.pc.Determined() && !e.Go?
    ensures s.program.Some? && After(s, e, limits, live, following) == s.(program := Some(Outside(s.program.value, e)))
  {
    hide AfterGo, Outside, EnabledOutside;
  }

  lemma EventSeesAll(s: Session, e: Event, limits: Limits, live: int, following: int, out: seq<byte>, err: seq<byte>)
    requires limits.Valid() && Enabled(s, e, true) && SeesAll(s, out, err) && !e.Go?
    ensures var t := After(s, e, limits, live, following);
            t.lines == s.lines && SeesAll(t, out, err)
  {
    assert s.pc.Determined();
    hide After, Outside, Enabled;
    DeterminedWaits(s, e, limits, live, following);
  }

  lemma LinesStay(s: Session, t: Session, k: nat)
    requires Grows(s, t) && k < |s.lines|
    ensures k < |t.lines| && t.lines[k] == s.lines[k]
  {
  }

  lemma StepKeepsWhole(s: Session, e: Event, limits: Limits, live: int, following: int, k: nat, out: seq<byte>, err: seq<byte>)
    requires limits.Valid() && SessionOk(s, limits) && Enabled(s, e, true) && Whole(s, k, out, err)
    ensures Whole(After(s, e, limits, live, following), k, out, err)
  {
    StepKeeps(s, e, limits, live, following);
    hide PhaseOk, SecondOk, ExitOk, KeptOk, LinesOk, ProgramOk, ResultOk, ReportsOk, After, Enabled, Grows, Sealed, SeesAll, SawAll;
    StaysSealed(s, e, limits, live, following, out, err);
    if k < |s.lines| {
      LinesStay(s, After(s, e, limits, live, following), k);
    } else if e.Go? {
      GoSeesAll(s, limits, live, following, out, err);
    } else {
      EventSeesAll(s, e, limits, live, following, out, err);
    }
  }

  lemma NextKeepsWhole(st: State, step: Step, i: nat, k: nat, out: seq<byte>, err: seq<byte>)
    requires Inv(st) && CanStep(st, step) && i < |st.sessions| && Whole(st.sessions[i], k, out, err)
    ensures Inv(Next(st, step)) && Next(st, step).limits == st.limits
    ensures i < |Next(st, step).sessions| && Whole(Next(st, step).sessions[i], k, out, err)
  {
    hide Whole, SessionOk, After, Enabled, LiveChange, FollowingChange, Grows;
    match step {
      case Connect(ask, direct) => ConnectKeeps(st, ask, direct);
      case At(j, e) =>
        AtKeeps(st, j, e);
        EnabledWhenFree(st.sessions[j], e, st.lock.None?);
        if j == i {
          StepKeepsWhole(st.sessions[i], e, st.limits, st.live, st.following, k, out, err);
        }
    }
  }

  lemma {:induction false} RunKeepsWhole(st: State, steps: seq<Step>, i: nat, k: nat, out: seq<byte>, err: seq<byte>)
    requires Inv(st) && CanRun(st, steps) && i < |st.sessions| && Whole(st.sessions[i], k, out, err)
    ensures var later := Run(st, steps);
            Inv(later) && later.limits == st.limits && i < |later.sessions| && Whole(later.sessions[i], k, out, err)
    decreases |steps|
  {
    assert st.limits.Valid();
    hide Inv, Whole, Next, CanStep;
    if steps != [] {
      NextKeepsWhole(st, steps[0], i, k, out, err);
      RunKeepsWhole(Next(st, steps[0]), steps[1..], i, k, out, err);
    }
  }

  /** A report of all that the program wrote: both outputs are what a buffer of that shape shows of it. */
  predicate TellsAll(line: Line, p: Program, shape: Shape) {
    SawAll(line, p.out.all, p.err.all) && Shows(line.result.out, p.out.all, shape) && Shows(line.result.err, p.err.all, shape)
  }

  lemma WholeTellsAll(s: Session, limits: Limits, k: nat, out: seq<byte>, err: seq<byte>)
    requires limits.Valid() && SessionOk(s, limits) && Whole(s, k, out, err) && k < |s.lines| && !s.ask.Refused?
    ensures TellsAll(s.lines[k], s.program.value, Shape(limits.maxOutput, s.ask.Tool?))
  {
    assert ReportOk(s.lines[k], s, limits);
    hide ControlOk, ResultOk, OneOutcome, Tells, Shows;
  }

  lemma EndedIsWhole(s: Session, limits: Limits)
    requires limits.Valid() && SessionOk(s, limits) && Enabled(s, TakeEnded, true)
    ensures s.program.Some? && s.ask.Command?
    ensures Whole(EndedTaken(s), |s.lines|, s.program.value.out.all, s.program.value.err.all)
    ensures EndedTaken(s).ask == s.ask && EndedTaken(s).program.Some? && EndedTaken(s).program.value.released
  {
    hide ResultOk, ReportsOk, KeptOk, LinesOk;
  }

  /**
   A command whose handler took the end of its output is told of in full: the report it is settled for shows all that was
   ever written, and nothing more is read; and it is counted as running no more, so not by its own report either.
   */
  lemma {:induction false} EndedReportsAreWhole(limits: Limits, steps: seq<Step>, st: State, i: nat, more: seq<Step>)
    requires Reached(limits, steps, st) && CanStep(st, At(i, TakeEnded)) && CanRun(Next(st, At(i, TakeEnded)), more)
    ensures var s, later := st.sessions[i], Run(Next(st, At(i, TakeEnded)), more);
            && s.program.Some? && i < |later.sessions| && later.sessions[i].program.Some?
            && var p, t := s.program.value, later.sessions[i];
               && t.program.value.out.all == p.out.all && t.program.value.err.all == p.err.all && t.program.value.released
               && (|t.lines| > |s.lines| ==> TellsAll(t.lines[|s.lines|], t.program.value, Shape(limits.maxOutput, false)))
  {
    ReachedIsInv(limits, steps, st);
    var s, next := st.sessions[i], Next(st, At(i, TakeEnded));
    EnabledWhenFree(s, TakeEnded, st.lock.None?);
    EndedIsWhole(s, limits);
    AtKeeps(st, i, TakeEnded);
    assert next.sessions[i] == EndedTaken(s);
    var out, err := s.program.value.out.all, s.program.value.err.all;
    NextLimits(st, At(i, TakeEnded));
    hide Reached, Whole, SessionOk, TellsAll, Next, EndedTaken;
    RunKeepsWhole(next, more, i, |s.lines|, out, err);
    var t := Run(next, more).sessions[i];
    WholeIsSealed(t, |s.lines|, out, err);
    RunKeepsAsk(next, more, i);
    if |t.lines| > |s.lines| {
      WholeTellsAll(t, limits, |s.lines|, out, err);
    }
  }

  lemma WholeIsSealed(s: Session, k: nat, out: seq<byte>, err: seq<byte>)
    requires Whole(s, k, out, err)
    ensures s.program.Some? && s.program.value.out.all == out && s.program.value.err.all == err
  {
  }

  lemma RunKeepsAsk(st: State, steps: seq<Step>, i: nat)
    requires Inv(st) && CanRun(st, steps) && i < |st.sessions|
    ensures i < |Run(st, steps).sessions| && Run(st, steps).sessions[i].ask == st.sessions[i].ask
    ensures st.sessions[i].program.Some? && st.sessions[i].program.value.released ==>
              Run(st, steps).sessions[i].program.Some? && Run(st, steps).sessions[i].program.value.released
  {
    RunKeeps(st, steps);
  }

  /** A tool that is over has been, or will be, told of in full. */
  predicate ToolWhole(s: Session) {
    s.ask.Tool? && s.program.Some? && ToolOver(s.pc) ==> Whole(s, 0, s.program.value.out.all, s.program.value.err.all)
  }

  lemma JoinedIsWhole(s: Session, e: Event, t: Session, limits: Limits, live: int, following: int)
    requires limits.Valid() && SessionOk(s, limits) && Enabled(s, e, true) && t == After(s, e, limits, live, following)
    requires SessionOk(t, limits) && t.ask.Tool? && t.program.Some? && ToolOver(t.pc) && !(s.program.Some? && ToolOver(s.pc))
    ensures ToolWhole(t)
  {
    OnlyJoiningEnters(s, e, t, limits, live, following);
    hide ResultOk, ReportsOk, KeptOk, After, Enabled;
  }

  lemma OnlyJoiningEnters(s: Session, e: Event, t: Session, limits: Limits, live: int, following: int)
    requires limits.Valid() && SessionOk(s, limits) && Enabled(s, e, true) && t == After(s, e, limits, live, following)
    requires t.ask.Tool? && t.program.Some? && ToolOver(t.pc) && !(s.program.Some? && ToolOver(s.pc))
    ensures t.pc.ToolTakingOut?
  {
    StepKeeps(s, e, limits, live, following);
    assert s.ask.Tool?;
    BeforeToolOver(s, limits);
    hide SessionOk, Grows, Accounts, Advances, AfterGo, Outside, EnabledOutside;
    if e.Go? {
      BeforeGo(s, limits, live, following);
    }
  }

  lemma BeforeToolOver(s: Session, limits: Limits)
    requires limits.Valid() && SessionOk(s, limits) && s.ask.Tool? && !(s.program.Some? && ToolOver(s.pc))
    ensures s.pc.Counting? || s.pc.ToolAwaiting? || s.pc.ToolKilling? || s.pc.ToolJoining? || s.program.None?
  {
    hide ResultOk, ReportsOk, KeptOk, LinesOk, ExitOk;
  }

  lemma BeforeGo(s: Session, limits: Limits, live: int, following: int)
    requires limits.Valid() && Enabled(s, Go, true)
    requires s.pc.Counting? || s.pc.ToolAwaiting? || s.pc.ToolKilling? || s.pc.ToolJoining? || s.program.None?
    ensures var t := AfterGo(s, limits, live, following);
            t.program.Some? ==> !ToolOver(t.pc)
  {
    assert s.program.None? ==> s.pc.Answering();
    assert s.program.Some? ==> s.pc.Counting? || s.pc.ToolKilling?;
    if s.program.None? {
      LoadingStartsNothing(s, live, following);
    } else {
      CountedIsBefore(s);
    }
    hide Enabled, Counted, Checked, FilledOut, FilledErr, FollowAdded, FrozenOut, FrozenErr, RunningLoaded, FollowingLoaded, Unlocked,
      Written, Unfollowed, GroupKilled, OutTaken, ErrTaken, ToolReleased, ToolOver;
  }

  lemma LoadingStartsNothing(s: Session, live: int, following: int)
    requires s.program.None?
    ensures RunningLoaded(s, live).program.None? && FollowingLoaded(s, following).program.None?
    ensures Unlocked(s).program.None? && Written(s).program.None?
  {
  }

  lemma CountedIsBefore(s: Session)
    requires s.program.Some?
    ensures !ToolOver(Counted(s).pc) && !ToolOver(GroupKilled(s).pc)
  {
  }

  lemma StepKeepsToolWhole(s: Session, e: Event, limits: Limits, live: int, following: int)
    requires limits.Valid() && SessionOk(s, limits) && Enabled(s, e, true) && ToolWhole(s)
    ensures ToolWhole(After(s, e, limits, live, following))
  {
    var t := After(s, e, limits, live, following);
    StepKeeps(s, e, limits, live, following);
    assert t.ask == s.ask;
    hide After, Enabled, SessionOk, Grows, Whole;
    if t.ask.Tool? && t.program.Some? && ToolOver(t.pc) {
      if s.program.Some? && ToolOver(s.pc) {
        StepKeepsWhole(s, e, limits, live, following, 0, s.program.value.out.all, s.program.value.err.all);
        WholeIsSealed(t, 0, s.program.value.out.all, s.program.value.err.all);
      } else {
        JoinedIsWhole(s, e, t, limits, live, following);
      }
    }
  }

  ghost predicate AllToolsWhole(st: State) {
    forall i :: 0 <= i < |st.sessions| ==> ToolWhole(st.sessions[i])
  }

  lemma NextKeepsToolWhole(st: State, step: Step)
    requires Inv(st) && CanStep(st, step) && AllToolsWhole(st)
    ensures Inv(Next(st, step)) && Next(st, step).limits == st.limits && AllToolsWhole(Next(st, step))
  {
    hide SessionOk, After, Enabled, LiveChange, FollowingChange, Grows;
    match step {
      case Connect(ask, direct) =>
        ConnectKeeps(st, ask, direct);
        hide Whole;
      case At(i, e) =>
        AtKeeps(st, i, e);
        hide ToolWhole;
        EnabledWhenFree(st.sessions[i], e, st.lock.None?);
        StepKeepsToolWhole(st.sessions[i], e, st.limits, st.live, st.following);
    }
  }

  lemma {:induction false} RunKeepsToolWhole(st: State, steps: seq<Step>)
    requires Inv(st) && CanRun(st, steps) && AllToolsWhole(st)
    ensures Inv(Run(st, steps)) && AllToolsWhole(Run(st, steps))
    decreases |steps|
  {
    assert st.limits.Valid();
    hide Inv, AllToolsWhole, Next, CanStep;
    if steps != [] {
      NextKeepsToolWhole(st, steps[0]);
      RunKeepsToolWhole(Next(st, steps[0]), steps[1..]);
    }
  }

  /** An answered tool is told of in full, timed out or not: its answer shows all that was ever read of it, and nothing more is. */
  lemma {:induction false} ToolReportsAreWhole(limits: Limits, steps: seq<Step>, st: State, i: nat)
    requires Reached(limits, steps, st) && i < |st.sessions|
    requires st.sessions[i].ask.Tool? && st.sessions[i].program.Some? && st.sessions[i].lines != []
    ensures var s := st.sessions[i];
            TellsAll(s.lines[0], s.program.value, Shape(limits.maxOutput, true)) && forall e :: CanStep(st, At(i, e)) ==> !e.Read?
  {
    assert Inv(Init(limits)) && AllToolsWhole(Init(limits));
    RunKeepsToolWhole(Init(limits), steps);
    var s := st.sessions[i];
    AnsweredToolIsOver(s, limits);
    hide SessionOk, TellsAll, Inv;
    assert ToolWhole(s);
    WholeTellsAll(s, limits, 0, s.program.value.out.all, s.program.value.err.all);
  }

  lemma AnsweredToolIsOver(s: Session, limits: Limits)
    requires limits.Valid() && SessionOk(s, limits) && s.ask.Tool? && s.lines != []
    ensures ToolOver(s.pc)
  {
  }
}
