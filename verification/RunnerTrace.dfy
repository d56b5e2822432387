/** What is known of a program is what a run's steps made it: where it was started, what was read of it, how it ended. */
module RunnerTrace {
  import opened Common
  import opened Utf8
  import opened Capped
  import opened Runner
  import opened RunnerInvariant
  import opened RunnerRuns

  /** All that a run read of one pipe of session `i`'s program, in order. */
  function ReadIn(steps: seq<Step>, i: nat, ofErr: bool): seq<byte> {
    if steps == [] then []
    else
      var last := steps[|steps| - 1];
      ReadIn(steps[..|steps| - 1], i, ofErr)
      + if last.At? && last.i == i && last.event.Read? && last.event.toErr == ofErr then last.event.bytes else []
  }

  lemma ReadPush(steps: seq<Step>, step: Step, i: nat, ofErr: bool)
    ensures ReadIn(steps + [step], i, ofErr) == ReadIn(steps, i, ofErr)
            + if step.At? && step.i == i && step.event.Read? && step.event.toErr == ofErr then step.event.bytes else []
  {
    assert (steps + [step])[..|steps|] == steps;
  }

  /** The program is what the run made of it: started once, read and ended by steps of its own; so is the peer's leaving. */
  ghost predicate Traced(s: Session, steps: seq<Step>, i: nat) {
    && (s.gone <==> At(i, TakeGone) in steps)
    && StartTraced(s, steps, i) && ExitTraced(s, steps, i) && ReadTraced(s, steps, i)
  }

  ghost predicate StartTraced(s: Session, steps: seq<Step>, i: nat) {
    forall g :: At(i, Start(g)) in steps <==> s.program.Some? && s.program.value.group == g
  }

  ghost predicate ExitTraced(s: Session, steps: seq<Step>, i: nat) {
    forall x :: At(i, ShellExit(x)) in steps <==> s.program.Some? && s.program.value.exit == Some(x)
  }

  predicate ReadTraced(s: Session, steps: seq<Step>, i: nat) {
    && ReadIn(steps, i, false) == (if s.program.Some? then s.program.value.out.all else [])
    && ReadIn(steps, i, true) == (if s.program.Some? then s.program.value.err.all else [])
  }

  predicate SameTrace(s: Session, t: Session) {
    && t.gone == s.gone && t.program.Some? == s.program.Some?
    && (s.program.Some? ==>
          var p, q := s.program.value, t.program.value;
          q.group == p.group && q.out.all == p.out.all && q.err.all == p.err.all && q.exit == p.exit)
  }

  /** What a step does to what is traced. */
  predicate Effect(s: Session, e: Event, t: Session) {
    match e
    case Start(g) => t.gone == s.gone && s.program.None? && t.program == Some(NewProgram(g))
    case Read(ofErr, bytes) =>
      && t.gone == s.gone && s.program.Some? && t.program.Some?
      && var p, q := s.program.value, t.program.value;
         && q.group == p.group && q.exit == p.exit
         && q.out.all == p.out.all + (if ofErr then [] else bytes) && q.err.all == p.err.all + if ofErr then bytes else []
    case ShellExit(x) =>
      && s.program.Some? && s.program.value.exit.None? && t.program.Some? && t.program.value.exit == Some(x)
      && SameTrace(s, t.(program := Some(t.program.value.(exit := None))))
    case TakeGone => t.gone && SameTrace(s, t.(gone := s.gone))
    case _ => SameTrace(s, t)
  }

  lemma FilledTraces(s: Session, limits: Limits)
    requires limits.Valid() && s.program.Some?
    ensures SameTrace(s, FilledOut(s, limits)) && SameTrace(s, FilledErr(s, limits))
  {
    hide SnapshotOf;
  }

  lemma TakenTraces(s: Session, limits: Limits)
    requires limits.Valid() && s.program.Some?
    ensures SameTrace(s, OutTaken(s, limits)) && SameTrace(s, ErrTaken(s, limits))
  {
    hide SnapshotOf;
  }

  lemma FrozenTraces(s: Session)
    requires s.program.Some?
    ensures SameTrace(s, FrozenOut(s)) && SameTrace(s, FrozenErr(s))
  {
  }

  lemma ReleasedTraces(s: Session)
    requires s.program.Some?
    ensures SameTrace(s, Counted(s)) && SameTrace(s, ToolReleased(s)) && SameTrace(s, EndedTaken(s))
  {
  }

  lemma SameProgramTraces(s: Session, t: Session)
    requires t.gone == s.gone && t.program == s.program
    ensures SameTrace(s, t)
  {
  }

  lemma RestTraces(s: Session, live: int, following: int)
    ensures SameTrace(s, FollowAdded(s)) && SameTrace(s, RunningLoaded(s, live)) && SameTrace(s, FollowingLoaded(s, following))
    ensures SameTrace(s, Unlocked(s)) && SameTrace(s, Unfollowed(s)) && SameTrace(s, GroupKilled(s)) && SameTrace(s, Written(s))
  {
    SameProgramTraces(s, FollowAdded(s));
    SameProgramTraces(s, RunningLoaded(s, live));
    SameProgramTraces(s, FollowingLoaded(s, following));
    SameProgramTraces(s, Unlocked(s));
    SameProgramTraces(s, Unfollowed(s));
    SameProgramTraces(s, GroupKilled(s));
    SameProgramTraces(s, Written(s));
    hide SameTrace;
  }

  lemma CheckedTraces(s: Session, limits: Limits)
    requires s.program.Some?
    ensures SameTrace(s, Checked(s, limits))
  {
    SameProgramTraces(s, Checked(s, limits));
    hide SameTrace, Wait;
  }

  lemma GoTraces(s: Session, limits: Limits, live: int, following: int)
    requires limits.Valid() && Enabled(s, Go, true)
    ensures SameTrace(s, AfterGo(s, limits, live, following))
  {
    RestTraces(s, live, following);
    if s.program.Some? {
      FilledTraces(s, limits);
      TakenTraces(s, limits);
      FrozenTraces(s);
      ReleasedTraces(s);
      CheckedTraces(s, limits);
    }
    hide SameTrace, Counted, Checked, FilledOut, FilledErr, FollowAdded, FrozenOut, FrozenErr, RunningLoaded, FollowingLoaded, Unlocked,
      Written, Unfollowed, GroupKilled, OutTaken, ErrTaken, ToolReleased;
  }

  lemma WaitedTraces(s: Session, reason: Output)
    ensures SameTrace(s, ExitTaken(s)) && SameTrace(s, WaitOver(s)) && SameTrace(s, Locked(s)) && SameTrace(s, NotStarted(s, reason))
    ensures SameTrace(s, ToolEnded(s)) && SameTrace(s, ToolTimedOut(s)) && SameTrace(s, ToolJoined(s))
  {
    SameProgramTraces(s, ExitTaken(s));
    SameProgramTraces(s, WaitOver(s));
    SameProgramTraces(s, Locked(s));
    SameProgramTraces(s, NotStarted(s, reason));
    SameProgramTraces(s, ToolEnded(s));
    SameProgramTraces(s, ToolTimedOut(s));
    SameProgramTraces(s, ToolJoined(s));
    hide SameTrace;
  }

  lemma OutsideTraces(s: Session, e: Event)
    requires s.program.Some? && EnabledOutside(s.ask, s.program.value, e)
    ensures Effect(s, e, s.(program := Some(Outside(s.program.value, e))))
  {
  }

  lemma GoneTraces(s: Session)
    ensures Effect(s, TakeGone, GoneTaken(s))
  {
  }

  lemma StartedTraces(s: Session, group: int)
    requires s.program.None?
    ensures Effect(s, Start(group), Started(s, group))
  {
  }

  lemma StepTraces(s: Session, e: Event, limits: Limits, live: int, following: int)
    requires limits.Valid() && PhaseOk(s) && Enabled(s, e, true)
    ensures Effect(s, e, After(s, e, limits, live, following))
  {
    if e.Go? {
      GoTraces(s, limits, live, following);
      hide PhaseOk, SameTrace, AfterGo, Enabled;
    } else if Handling(e) {
      HandledTraces(s, e, limits, live, following);
    } else {
      OutsideTraces(s, e);
      hide PhaseOk, Effect, AfterGo, Outside, EnabledOutside;
    }
  }

  lemma HandledTraces(s: Session, e: Event, limits: Limits, live: int, following: int)
    requires limits.Valid() && PhaseOk(s) && Enabled(s, e, true) && Handling(e) && !e.Go?
    ensures Effect(s, e, After(s, e, limits, live, following))
  {
    assert s.pc.Starting? ==> s.program.None?;
    hide PhaseOk, AfterGo, Outside, EnabledOutside, ExitTaken, WaitOver, Locked, NotStarted, Started, EndedTaken, GoneTaken,
      ToolEnded, ToolTimedOut, ToolJoined, Counted, ToolReleased;
    if e.TakeGone? {
      GoneTraces(s);
      hide Effect;
    } else if e.Start? {
      StartedTraces(s, e.group);
      hide Effect;
    } else {
      hide SameTrace;
      WaitedTraces(s, if e.StartFail? then e.reason else NOTHING);
      if s.program.Some? {
        ReleasedTraces(s);
      }
    }
  }

  lemma StartsOn(s: Session, e: Event, t: Session, steps: seq<Step>, i: nat)
    requires StartTraced(s, steps, i) && Effect(s, e, t)
    ensures StartTraced(t, steps + [At(i, e)], i)
  {
  }

  lemma ExitsOn(s: Session, e: Event, t: Session, steps: seq<Step>, i: nat)
    requires ExitTraced(s, steps, i) && Effect(s, e, t)
    ensures ExitTraced(t, steps + [At(i, e)], i)
  {
  }

  lemma ReadsOn(s: Session, e: Event, t: Session, steps: seq<Step>, i: nat)
    requires ReadTraced(s, steps, i) && Effect(s, e, t)
    ensures ReadTraced(t, steps + [At(i, e)], i)
  {
    ReadPush(steps, At(i, e), i, false);
    ReadPush(steps, At(i, e), i, true);
    hide ReadIn;
  }

  lemma TracedOn(s: Session, e: Event, t: Session, steps: seq<Step>, i: nat)
    requires Traced(s, steps, i) && Effect(s, e, t)
    ensures Traced(t, steps + [At(i, e)], i)
  {
    hide StartTraced, ExitTraced, ReadTraced;
    StartsOn(s, e, t, steps, i);
    ExitsOn(s, e, t, steps, i);
    ReadsOn(s, e, t, steps, i);
  }

  lemma OthersTraced(s: Session, steps: seq<Step>, step: Step, i: nat)
    requires Traced(s, steps, i) && (step.At? ==> step.i != i)
    ensures Traced(s, steps + [step], i)
  {
    ReadPush(steps, step, i, false);
    ReadPush(steps, step, i, true);
    hide ReadIn;
  }

  /** Only the first `n` sessions make any of the steps. */
  ghost predicate MadeBy(steps: seq<Step>, n: nat) {
    forall step <- steps :: step.At? ==> step.i < n
  }

  lemma MadeByPush(steps: seq<Step>, step: Step, n: nat, m: nat)
    requires MadeBy(steps, n) && n <= m && (step.At? ==> step.i < m)
    ensures MadeBy(steps + [step], m)
  {
  }

  lemma {:induction false} NothingRead(steps: seq<Step>, i: nat, ofErr: bool)
    requires MadeBy(steps, i)
    ensures ReadIn(steps, i, ofErr) == []
  {
    if steps != [] {
      NothingRead(steps[..|steps| - 1], i, ofErr);
    }
  }

  lemma NewTraced(ask: Ask, direct: bool, limits: Limits, steps: seq<Step>, i: nat)
    requires MadeBy(steps, i)
    ensures Traced(NewSession(ask, direct, limits), steps, i)
  {
    NothingRead(steps, i, false);
    NothingRead(steps, i, true);
    hide ReadIn;
  }

  ghost predicate AllTraced(sessions: seq<Session>, steps: seq<Step>) {
    forall i :: 0 <= i < |sessions| ==> Traced(sessions[i], steps, i)
  }

  lemma OneTraced(sessions: seq<Session>, next: seq<Session>, steps: seq<Step>, step: Step, i: nat)
    requires AllTraced(sessions, steps) && i < |next| && Traced(next[i], steps + [step], i) && (step.At? ==> step.i == i)
    requires step.Connect? ==> i == |sessions|
    requires forall k :: 0 <= k < |next| && k != i ==> k < |sessions| && next[k] == sessions[k]
    ensures AllTraced(next, steps + [step])
  {
    hide Traced;
    forall k | 0 <= k < |next| && k != i ensures Traced(next[k], steps + [step], k) {
      var t := next[k];
      OthersTraced(sessions[k], steps, step, k);
    }
  }

  lemma AtTraced(st: State, steps: seq<Step>, i: nat, e: Event)
    requires Inv(st) && CanStep(st, At(i, e)) && Traced(st.sessions[i], steps, i)
    ensures i < |Next(st, At(i, e)).sessions| && Traced(Next(st, At(i, e)).sessions[i], steps + [At(i, e)], i)
  {
    var s := st.sessions[i];
    EnabledWhenFree(s, e, st.lock.None?);
    assert SessionOk(s, st.limits);
    assert PhaseOk(s);
    hide SessionOk, PhaseOk, After, Enabled, LiveChange, FollowingChange, Traced, Effect, Inv;
    StepTraces(s, e, st.limits, st.live, st.following);
    TracedOn(s, e, After(s, e, st.limits, st.live, st.following), steps, i);
  }

  lemma NextTraced(st: State, steps: seq<Step>, step: Step)
    requires Inv(st) && CanStep(st, step) && MadeBy(steps, |st.sessions|) && AllTraced(st.sessions, steps)
    ensures var n := Next(st, step).sessions;
            MadeBy(steps + [step], |n|) && AllTraced(n, steps + [step])
  {
    assert st.limits.Valid() && (step.At? ==> step.i < |st.sessions|);
    assert step.At? ==> Traced(st.sessions[step.i], steps, step.i);
    OthersStay(st, step);
    MadeByPush(steps, step, |st.sessions|, |Next(st, step).sessions|);
    hide Inv, Traced, AllTraced, MadeBy, Next, CanStep, NewSession;
    match step {
      case Connect(ask, direct) =>
        ConnectMadeBy(steps, step, |st.sessions|);
        NewTraced(ask, direct, st.limits, steps + [step], |st.sessions|);
        OneTraced(st.sessions, Next(st, step).sessions, steps, step, |st.sessions|);
      case At(i, e) =>
        AtTraced(st, steps, i, e);
        OneTraced(st.sessions, Next(st, step).sessions, steps, step, i);
    }
  }

  lemma ConnectMadeBy(steps: seq<Step>, step: Step, n: nat)
    requires MadeBy(steps, n) && step.Connect?
    ensures MadeBy(steps + [step], n)
  {
    MadeByPush(steps, step, n, n);
  }

  lemma {:induction false} RunTraced(limits: Limits, steps: seq<Step>, st: State)
    requires Reached(limits, steps, st)
    ensures MadeBy(steps, |st.sessions|) && AllTraced(st.sessions, steps)
    decreases |steps|
  {
    if steps != [] {
      var n := |steps| - 1;
      RunLast(Init(limits), steps);
      var before := Run(Init(limits), steps[..n]);
      assert Reached(limits, steps[..n], before) && st == Next(before, steps[n]);
      hide *;
      ReachedIsInv(limits, steps[..n], before);
      RunTraced(limits, steps[..n], before);
      NextTraced(before, steps[..n], steps[n]);
      LastPushed(steps);
    }
  }

  lemma LastPushed(steps: seq<Step>)
    requires steps != []
    ensures steps == steps[..|steps| - 1] + [steps[|steps| - 1]]
  {
  }

  /**
   In every reached state a session's program is what the run's own steps made it: it has the group it was started with, its
   outputs are what was read of its two pipes in order, it has exited just as it was seen to, once; and a follower is gone
   just when the peer left.
   */
  lemma {:induction false} ProgramsAreTraced(limits: Limits, steps: seq<Step>, st: State, i: nat)
    requires Reached(limits, steps, st) && i < |st.sessions|
    ensures Traced(st.sessions[i], steps, i)
  {
    RunTraced(limits, steps, st);
  }
}
