/** The two counts a report carries are those of the server when its own handler loaded them for it. */
module RunnerCounts {
  import opened Common
  import opened Capped
  import opened Runner
  import opened RunnerInvariant
  import opened RunnerRuns
  import opened RunnerRest

  /** The run was in the state after its first `p` steps. */
  ghost predicate Passed(limits: Limits, steps: seq<Step>, p: nat, past: State) {
    p <= |steps| && Reached(limits, steps[..p], past)
  }

  /** Session `i` is at the load of `live` for its line `k`; at that of `following`. */
  predicate LoadsLive(st: State, i: nat, k: nat) {
    i < |st.sessions| && |st.sessions[i].lines| == k && st.sessions[i].pc.LoadingRunning?
  }

  predicate LoadsFollowing(st: State, i: nat, k: nat) {
    i < |st.sessions| && |st.sessions[i].lines| == k && st.sessions[i].pc.LoadingFollowing?
  }

  /** `live` was `n` when session `i` loaded it for its line `k`. */
  ghost predicate WasLive(limits: Limits, steps: seq<Step>, i: nat, k: nat, n: int) {
    exists p, past :: Passed(limits, steps, p, past) && LoadsLive(past, i, k) && past.live == n
  }

  ghost predicate WasFollowing(limits: Limits, steps: seq<Step>, i: nat, k: nat, n: int) {
    exists p, past :: Passed(limits, steps, p, past) && LoadsFollowing(past, i, k) && past.following == n
  }

  /** A tool that was started leaves itself out of the count, and carries no followers. */
  predicate IsStartedTool(s: Session) {
    s.ask.Tool? && s.program.Some?
  }

  /** The handler has loaded `live` for the line it is about to write. */
  predicate HasRunning(s: Session) {
    !s.ask.Refused? && (s.pc.LoadingFollowing? || s.pc.ToolReleasing? || s.pc.Unlocking? || s.pc.Writing?)
  }

  predicate HasFollowing(s: Session) {
    !s.ask.Refused? && (s.pc.Unlocking? || s.pc.Writing?) && !IsStartedTool(s)
  }

  ghost predicate ResultCounted(r: Result, tool: bool, limits: Limits, steps: seq<Step>, i: nat, k: nat) {
    WasLive(limits, steps, i, k, r.running + One(tool)) && (!tool ==> WasFollowing(limits, steps, i, k, r.following))
  }

  ghost predicate CountsOk(s: Session, limits: Limits, steps: seq<Step>, i: nat) {
    && (HasRunning(s) ==> WasLive(limits, steps, i, |s.lines|, s.result.running + One(IsStartedTool(s))))
    && (HasFollowing(s) ==> WasFollowing(limits, steps, i, |s.lines|, s.result.following))
    && (forall k :: 0 <= k < |s.lines| && s.lines[k].Report? ==>
          ResultCounted(s.lines[k].result, IsStartedTool(s), limits, steps, i, k))
  }

  /** What a step may do to the counts and to the lines, given what the counters hold. */
  predicate CountsFollow(s: Session, t: Session, live: int, following: int) {
    && (HasRunning(t) ==>
          || (HasRunning(s) && t.result.running == s.result.running && IsStartedTool(t) == IsStartedTool(s))
          || (s.pc.LoadingRunning? && t.result.running + One(IsStartedTool(t)) == live))
    && (HasFollowing(t) ==>
          || (HasFollowing(s) && t.result.following == s.result.following)
          || (s.pc.LoadingFollowing? && t.result.following == following))
    && (HasRunning(t) || HasFollowing(t) ==> t.lines == s.lines)
    && (s.lines == [] || IsStartedTool(t) == IsStartedTool(s))
    && (|| t.lines == s.lines
        || (s.pc.Writing? && IsStartedTool(t) == IsStartedTool(s)
            && t.lines == s.lines + [if s.ask.Refused? then Refusal else Report(s.result, s.program.Some?, s.outSeen, s.errSeen)]))
  }

  // Each step.

  /** A step that leaves the counts alone, or leads to where none is loaded. */
  predicate Indifferent(s: Session, t: Session) {
    && t.lines == s.lines && (s.lines == [] || IsStartedTool(t) == IsStartedTool(s))
    && (|| (!HasRunning(t) && !HasFollowing(t))
        || (t.pc == s.pc && t.result == s.result && t.ask == s.ask && IsStartedTool(t) == IsStartedTool(s)))
  }

  lemma IndifferentFollows(s: Session, t: Session, live: int, following: int)
    requires Indifferent(s, t)
    ensures CountsFollow(s, t, live, following)
  {
  }

  lemma LoadsFollow(s: Session, live: int, following: int)
    ensures s.pc.LoadingRunning? ==> CountsFollow(s, RunningLoaded(s, live), live, following)
    ensures s.pc.LoadingFollowing? ==> CountsFollow(s, FollowingLoaded(s, following), live, following)
  {
  }

  lemma AnswersFollow(s: Session, live: int, following: int)
    ensures s.pc.Unlocking? ==> CountsFollow(s, Unlocked(s), live, following)
    ensures s.pc.ToolReleasing? && IsStartedTool(s) ==> CountsFollow(s, ToolReleased(s), live, following)
  {
  }

  lemma WrittenFollows(s: Session, live: int, following: int)
    requires s.pc.Writing?
    ensures CountsFollow(s, Written(s), live, following)
  {
  }

  lemma StartIsIndifferent(s: Session, limits: Limits)
    requires limits.Valid() && s.program.Some?
    ensures Indifferent(s, Counted(s)) && Indifferent(s, Checked(s, limits))
  {
    hide Wait;
  }

  lemma FillIsIndifferent(s: Session, limits: Limits)
    requires limits.Valid() && s.program.Some?
    ensures Indifferent(s, FilledOut(s, limits)) && Indifferent(s, FilledErr(s, limits))
  {
    hide SnapshotOf;
  }

  lemma TakeIsIndifferent(s: Session, limits: Limits)
    requires limits.Valid() && s.program.Some?
    ensures Indifferent(s, OutTaken(s, limits)) && Indifferent(s, ErrTaken(s, limits))
  {
    hide SnapshotOf;
  }

  lemma FreezeIsIndifferent(s: Session)
    requires s.program.Some?
    ensures Indifferent(s, FrozenOut(s)) && Indifferent(s, FrozenErr(s))
  {
  }

  lemma FollowIsIndifferent(s: Session)
    ensures Indifferent(s, FollowAdded(s)) && Indifferent(s, Unfollowed(s)) && Indifferent(s, GroupKilled(s))
  {
  }

  lemma WaitIsIndifferent(s: Session)
    ensures Indifferent(s, ExitTaken(s)) && Indifferent(s, WaitOver(s)) && Indifferent(s, GoneTaken(s))
  {
  }

  lemma EndIsIndifferent(s: Session)
    requires s.program.Some?
    ensures Indifferent(s, EndedTaken(s))
  {
  }

  lemma ToolWaitIsIndifferent(s: Session)
    ensures Indifferent(s, ToolEnded(s)) && Indifferent(s, ToolTimedOut(s)) && Indifferent(s, ToolJoined(s))
  {
    ToolStays(s);
    hide IsStartedTool;
  }

  lemma ToolStays(s: Session)
    ensures IsStartedTool(ToolEnded(s)) == IsStartedTool(ToolTimedOut(s)) == IsStartedTool(ToolJoined(s)) == IsStartedTool(s)
  {
  }

  lemma BeginIsIndifferent(s: Session, reason: Output)
    ensures Indifferent(s, Locked(s)) && Indifferent(s, NotStarted(s, reason))
  {
  }

  lemma ProgramIsIndifferent(s: Session, group: int)
    requires s.lines == []
    ensures Indifferent(s, Started(s, group))
  {
  }

  lemma OutsideIsIndifferent(s: Session, q: Program)
    requires s.program.Some?
    ensures Indifferent(s, s.(program := Some(q)))
  {
  }

  lemma GoFollows(s: Session, limits: Limits, live: int, following: int)
    requires limits.Valid() && Enabled(s, Go, true) && (s.pc.ToolReleasing? ==> IsStartedTool(s))
    ensures CountsFollow(s, AfterGo(s, limits, live, following), live, following)
  {
    hide CountsFollow, Indifferent, Counted, Checked, FilledOut, FilledErr, FollowAdded, FrozenOut, FrozenErr, RunningLoaded,
      FollowingLoaded, Unlocked, Written, Unfollowed, GroupKilled, OutTaken, ErrTaken, ToolReleased;
    if s.pc.Answering() || s.pc.ToolReleasing? {
      LoadsFollow(s, live, following);
      AnswersFollow(s, live, following);
      if s.pc.Writing? {
        WrittenFollows(s, live, following);
      }
    } else {
      StartIsIndifferent(s, limits);
      FillIsIndifferent(s, limits);
      TakeIsIndifferent(s, limits);
      FreezeIsIndifferent(s);
      FollowIsIndifferent(s);
      IndifferentFollows(s, AfterGo(s, limits, live, following), live, following);
    }
  }

  lemma EventIsIndifferent(s: Session, e: Event, limits: Limits, live: int, following: int)
    requires limits.Valid() && Enabled(s, e, true) && !e.Go? && (s.pc.Starting? ==> s.lines == [])
    ensures Indifferent(s, After(s, e, limits, live, following))
  {
    hide Indifferent, AfterGo, Outside, EnabledOutside, Locked, NotStarted, Started, ExitTaken, WaitOver, EndedTaken, GoneTaken,
      ToolEnded, ToolTimedOut, ToolJoined;
    BeginIsIndifferent(s, if e.StartFail? then e.reason else NOTHING);
    WaitIsIndifferent(s);
    ToolWaitIsIndifferent(s);
    if e.Start? {
      ProgramIsIndifferent(s, e.group);
    }
    if s.program.Some? {
      EndIsIndifferent(s);
      OutsideIsIndifferent(s, Outside(s.program.value, e));
    }
  }

  lemma StepFollows(s: Session, e: Event, limits: Limits, live: int, following: int)
    requires limits.Valid() && SessionOk(s, limits) && Enabled(s, e, true)
    ensures CountsFollow(s, After(s, e, limits, live, following), live, following)
  {
    WhereCounted(s, limits);
    hide SessionOk, CountsFollow, AfterGo;
    if e.Go? {
      GoFollows(s, limits, live, following);
    } else {
      EventIsIndifferent(s, e, limits, live, following);
      hide Enabled, After;
      IndifferentFollows(s, After(s, e, limits, live, following), live, following);
    }
  }

  lemma WhereCounted(s: Session, limits: Limits)
    requires limits.Valid() && SessionOk(s, limits)
    ensures (s.pc.ToolReleasing? ==> IsStartedTool(s)) && (s.pc.Starting? ==> s.lines == [])
  {
    hide ResultOk, ReportsOk, KeptOk;
  }

  // Each run.

  lemma StillPassed(limits: Limits, before: seq<Step>, step: Step, i: nat)
    ensures forall k, n :: WasLive(limits, before, i, k, n) ==> WasLive(limits, before + [step], i, k, n)
    ensures forall k, n :: WasFollowing(limits, before, i, k, n) ==> WasFollowing(limits, before + [step], i, k, n)
  {
    var steps := before + [step];
    forall p: nat, past | Passed(limits, before, p, past) ensures Passed(limits, steps, p, past) {
      assert steps[..p] == before[..p];
    }
    hide Passed, LoadsLive, LoadsFollowing;
    forall k, n | WasLive(limits, before, i, k, n) ensures WasLive(limits, steps, i, k, n) {
      var p, past :| Passed(limits, before, p, past) && LoadsLive(past, i, k) && past.live == n;
    }
    forall k, n | WasFollowing(limits, before, i, k, n) ensures WasFollowing(limits, steps, i, k, n) {
      var p, past :| Passed(limits, before, p, past) && LoadsFollowing(past, i, k) && past.following == n;
    }
  }

  /** What a session loads now it will have loaded. */
  ghost predicate WillHaveLoaded(s: Session, limits: Limits, steps: seq<Step>, i: nat, live: int, following: int) {
    && (s.pc.LoadingRunning? ==> WasLive(limits, steps, i, |s.lines|, live))
    && (s.pc.LoadingFollowing? ==> WasFollowing(limits, steps, i, |s.lines|, following))
  }

  lemma HasPassed(limits: Limits, before: seq<Step>, step: Step, st: State, i: nat)
    requires Reached(limits, before, st) && i < |st.sessions|
    ensures WillHaveLoaded(st.sessions[i], limits, before + [step], i, st.live, st.following)
  {
    assert (before + [step])[..|before|] == before;
    assert Passed(limits, before + [step], |before|, st);
    hide Reached;
    assert st.sessions[i].pc.LoadingRunning? ==> LoadsLive(st, i, |st.sessions[i].lines|);
    assert st.sessions[i].pc.LoadingFollowing? ==> LoadsFollowing(st, i, |st.sessions[i].lines|);
  }

  lemma CountsStay(s: Session, t: Session, limits: Limits, before: seq<Step>, step: Step, i: nat, live: int, following: int)
    requires CountsOk(s, limits, before, i) && CountsFollow(s, t, live, following)
    requires WillHaveLoaded(s, limits, before + [step], i, live, following)
    ensures CountsOk(t, limits, before + [step], i)
  {
    StillPassed(limits, before, step, i);
    hide WasLive, WasFollowing;
  }

  lemma SameCountsStay(s: Session, limits: Limits, before: seq<Step>, step: Step, i: nat)
    requires CountsOk(s, limits, before, i)
    ensures CountsOk(s, limits, before + [step], i)
  {
    StillPassed(limits, before, step, i);
    hide WasLive, WasFollowing;
  }

  lemma NewCountsOk(ask: Ask, direct: bool, limits: Limits, steps: seq<Step>, i: nat)
    ensures CountsOk(NewSession(ask, direct, limits), limits, steps, i)
  {
  }

  ghost predicate AllCountsOk(st: State, limits: Limits, steps: seq<Step>) {
    forall i :: 0 <= i < |st.sessions| ==> CountsOk(st.sessions[i], limits, steps, i)
  }

  lemma OthersCountsOk(st: State, limits: Limits, before: seq<Step>, step: Step)
    requires AllCountsOk(st, limits, before)
    ensures AllCountsOk(st, limits, before + [step])
  {
    hide CountsOk;
    forall k | 0 <= k < |st.sessions| ensures CountsOk(st.sessions[k], limits, before + [step], k) {
      SameCountsStay(st.sessions[k], limits, before, step, k);
    }
  }

  lemma AtCounts(limits: Limits, before: seq<Step>, st: State, i: nat, e: Event)
    requires Inv(st) && st.limits == limits && CanStep(st, At(i, e)) && CountsOk(st.sessions[i], limits, before, i)
    requires WillHaveLoaded(st.sessions[i], limits, before + [At(i, e)], i, st.live, st.following)
    ensures CountsOk(Next(st, At(i, e)).sessions[i], limits, before + [At(i, e)], i)
  {
    var s := st.sessions[i];
    EnabledWhenFree(s, e, st.lock.None?);
    assert SessionOk(s, limits);
    hide Inv, SessionOk, CountsOk, CountsFollow, After, Enabled, LiveChange, FollowingChange, WillHaveLoaded;
    StepFollows(s, e, limits, st.live, st.following);
    CountsStay(s, After(s, e, limits, st.live, st.following), limits, before, At(i, e), i, st.live, st.following);
  }

  lemma OneChanges(st: State, next: State, limits: Limits, steps: seq<Step>, i: nat)
    requires AllCountsOk(st, limits, steps) && i < |next.sessions| && CountsOk(next.sessions[i], limits, steps, i)
    requires forall k :: 0 <= k < |next.sessions| && k != i ==> k < |st.sessions| && next.sessions[k] == st.sessions[k]
    ensures AllCountsOk(next, limits, steps)
  {
    hide CountsOk;
  }

  lemma NextCounts(limits: Limits, before: seq<Step>, st: State, step: Step)
    requires Reached(limits, before, st) && CanStep(st, step) && AllCountsOk(st, limits, before)
    ensures AllCountsOk(Next(st, step), limits, before + [step])
  {
    assert st.limits == limits && st.limits.Valid();
    assert step.At? ==> CountsOk(st.sessions[step.i], limits, before, step.i);
    hide Reached, Inv, AllCountsOk, CountsOk, Next, CanStep, WillHaveLoaded, NewSession;
    ReachedIsInv(limits, before, st);
    OthersCountsOk(st, limits, before, step);
    OthersStay(st, step);
    match step {
      case Connect(ask, direct) =>
        NewCountsOk(ask, direct, limits, before + [step], |st.sessions|);
        OneChanges(st, Next(st, step), limits, before + [step], |st.sessions|);
      case At(i, e) =>
        HasPassed(limits, before, step, st, i);
        AtCounts(limits, before, st, i, e);
        OneChanges(st, Next(st, step), limits, before + [step], i);
    }
  }

  lemma {:induction false} RunCounts(limits: Limits, steps: seq<Step>, st: State)
    requires Reached(limits, steps, st)
    ensures AllCountsOk(st, limits, steps)
    decreases |steps|
  {
    if steps != [] {
      var n := |steps| - 1;
      RunLast(Init(limits), steps);
      var before := Run(Init(limits), steps[..n]);
      assert Reached(limits, steps[..n], before);
      RunCounts(limits, steps[..n], before);
      hide CanStep, Next, AllCountsOk, Reached;
      NextCounts(limits, steps[..n], before, steps[n]);
      assert steps == steps[..n] + [steps[n]];
    }
  }

  /**
   Every report carries the number of commands and tools that ran when its own handler loaded it, that is after it had
   written the reports before and none since, a started tool leaving itself out; and, but for a started tool's, the number of
   followers when its handler loaded that.
   */
  lemma {:induction false} ReportsCarryCounts(limits: Limits, steps: seq<Step>, st: State, i: nat, k: nat)
    requires Reached(limits, steps, st) && i < |st.sessions| && k < |st.sessions[i].lines| && st.sessions[i].lines[k].Report?
    ensures var r, tool := st.sessions[i].lines[k].result, IsStartedTool(st.sessions[i]);
            && (exists p, past :: Passed(limits, steps, p, past) && LoadsLive(past, i, k)
                  && r.running == Count(past.sessions, Alive) - One(tool))
            && (!tool ==> exists p, past :: Passed(limits, steps, p, past) && LoadsFollowing(past, i, k)
                            && r.following == Count(past.sessions, Follows))
  {
    RunCounts(limits, steps, st);
    var r, tool := st.sessions[i].lines[k].result, IsStartedTool(st.sessions[i]);
    assert CountsOk(st.sessions[i], limits, steps, i);
    assert ResultCounted(r, tool, limits, steps, i, k);
    hide CountsOk, AllCountsOk, Reached, IsStartedTool, LoadsLive, LoadsFollowing;
    var p, past :| Passed(limits, steps, p, past) && LoadsLive(past, i, k) && past.live == r.running + One(tool);
    PassedCounts(limits, steps, p, past);
    if !tool {
      var q, at :| Passed(limits, steps, q, at) && LoadsFollowing(at, i, k) && at.following == r.following;
      PassedCounts(limits, steps, q, at);
    }
  }

  lemma PassedCounts(limits: Limits, steps: seq<Step>, p: nat, past: State)
    requires Passed(limits, steps, p, past)
    ensures past.live == Count(past.sessions, Alive) && past.following == Count(past.sessions, Follows)
  {
    ReachedIsInv(limits, steps[..p], past);
  }
}
