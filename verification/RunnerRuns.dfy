/** What holds in every reachable state of the runner, over any interleaving of its steps. */
module RunnerRuns {
  import opened Common
  import opened Utf8
  import opened Capped
  import opened Runner
  import opened RunnerInvariant

  ghost predicate Inv(st: State) {
    && st.limits.Valid()
    && (forall i :: 0 <= i < |st.sessions| ==> SessionOk(st.sessions[i], st.limits))
    && (forall i :: 0 <= i < |st.sessions| ==> (Critical(st.sessions[i]) <==> st.lock == Some(i)))
    && (st.lock.Some? ==> st.lock.value < |st.sessions|)
    && st.live == Count(st.sessions, Alive)
    && st.following == Count(st.sessions, Follows)
  }

  /** Sessions are never removed, and each only grows. */
  ghost predicate StateGrows(st: State, later: State) {
    && |st.sessions| <= |later.sessions|
    && forall i :: 0 <= i < |st.sessions| ==> Grows(st.sessions[i], later.sessions[i])
  }

  lemma ConnectKeeps(st: State, ask: Ask, direct: bool)
    requires Inv(st) && CanStep(st, Connect(ask, direct))
    ensures Inv(Next(st, Connect(ask, direct))) && StateGrows(st, Next(st, Connect(ask, direct)))
  {
    hide SessionOk;
    var s := NewSession(ask, direct, st.limits);
    NewSessionOk(ask, direct, st.limits);
    CountPush(st.sessions, s, Alive);
    CountPush(st.sessions, s, Follows);
  }

  lemma AtKeeps(st: State, i: nat, e: Event)
    requires Inv(st) && CanStep(st, At(i, e))
    ensures Inv(Next(st, At(i, e))) && StateGrows(st, Next(st, At(i, e)))
  {
    hide SessionOk, After, Grows, Enabled, Critical, Alive, LiveChange, FollowingChange, Advances, Accounts;
    var s := st.sessions[i];
    EnabledWhenFree(s, e, st.lock.None?);
    var t := After(s, e, st.limits, st.live, st.following);
    StepKeeps(s, e, st.limits, st.live, st.following);
    CountsFollow(st, i, e, t);
    if e.Lock? {
      LockNeedsFree(st, i, e);
    }
    LockFollows(st, i, e, t);
    forall k | 0 <= k < |st.sessions| ensures Grows(st.sessions[k], Next(st, At(i, e)).sessions[k]) {
      GrowsReflexive(st.sessions[k]);
    }
  }

  lemma CountsFollow(st: State, i: nat, e: Event, t: Session)
    requires Inv(st) && i < |st.sessions| && Accounts(st.sessions[i], e, t)
    ensures var sessions := st.sessions[i := t];
            && st.live + LiveChange(st.sessions[i], e) == Count(sessions, Alive)
            && st.following + FollowingChange(st.sessions[i], e) == Count(sessions, Follows)
  {
    hide SessionOk, Alive, Critical, LiveChange, FollowingChange;
    CountUpdate(st.sessions, i, t, Alive);
    CountUpdate(st.sessions, i, t, Follows);
  }

  lemma LockFollows(st: State, i: nat, e: Event, t: Session)
    requires Inv(st) && i < |st.sessions| && Accounts(st.sessions[i], e, t) && (e.Lock? ==> st.lock.None?)
    ensures var lock := if e.Lock? then Some(i) else if e.Go? && st.sessions[i].pc.Unlocking? then None else st.lock;
            forall k :: 0 <= k < |st.sessions| ==> (Critical(st.sessions[i := t][k]) <==> lock == Some(k))
  {
    hide SessionOk, Alive, Critical, LiveChange, FollowingChange;
  }

  lemma LockNeedsFree(st: State, i: nat, e: Event)
    requires CanStep(st, At(i, e)) && e.Lock?
    ensures st.lock.None?
  {
  }

  lemma GrowsReflexive(s: Session)
    ensures Grows(s, s)
  {
  }

  lemma GrowsTransitive(s: Session, t: Session, u: Session)
    requires Grows(s, t) && Grows(t, u)
    ensures Grows(s, u)
  {
  }

  /** Every run keeps the invariant and takes nothing back. */
  lemma {:induction false} RunKeeps(st: State, steps: seq<Step>)
    requires Inv(st) && CanRun(st, steps)
    ensures Inv(Run(st, steps)) && StateGrows(st, Run(st, steps))
    decreases |steps|
  {
    hide SessionOk, After, Grows, Enabled, Critical, LiveChange, FollowingChange;
    if steps == [] {
      forall i | 0 <= i < |st.sessions| ensures Grows(st.sessions[i], st.sessions[i]) {
        GrowsReflexive(st.sessions[i]);
      }
    } else {
      var next := Next(st, steps[0]);
      match steps[0] {
        case Connect(ask, direct) => ConnectKeeps(st, ask, direct);
        case At(i, e) => AtKeeps(st, i, e);
      }
      RunKeeps(next, steps[1..]);
      forall i | 0 <= i < |st.sessions| ensures Grows(st.sessions[i], Run(st, steps).sessions[i]) {
        GrowsTransitive(st.sessions[i], next.sessions[i], Run(st, steps).sessions[i]);
      }
    }
  }

  /** Every state a run reaches from the start. */
  ghost predicate Reached(limits: Limits, steps: seq<Step>, st: State) {
    limits.Valid() && CanRun(Init(limits), steps) && st == Run(Init(limits), steps) && st.limits == limits
  }

  lemma ReachedIsInv(limits: Limits, steps: seq<Step>, st: State)
    requires Reached(limits, steps, st)
    ensures Inv(st)
  {
    assert Inv(Init(limits));
    RunKeeps(Init(limits), steps);
  }

  /**
   `live` is the number of commands started and not released plus the tools under way, and `following` the number
   of followers. A program is released at most once, though both settle and the reaper release it, and only after
   its exit and, for a command, after the end of its output.
   */
  lemma {:induction false} LiveCountsWhatRuns(limits: Limits, steps: seq<Step>, st: State)
    requires Reached(limits, steps, st)
    ensures st.live == Count(st.sessions, AliveCommand) + Count(st.sessions, AliveTool)
    ensures st.following == Count(st.sessions, Follows)
    ensures forall s <- st.sessions :: s.program.Some? ==>
              var p := s.program.value;
              && p.releases <= 1
              && (p.releases == 1 ==> p.exit.Some? && (s.ask.Command? ==> p.ended && p.out.drained && p.err.drained))
  {
    ReachedIsInv(limits, steps, st);
    forall s <- st.sessions ensures Alive(s) <==> AliveCommand(s) || AliveTool(s) {
    }
    CountSplits(st.sessions, Alive, AliveCommand, AliveTool);
  }

  /** Nothing of the session is left to happen: its handler is done, and its command exited, ended and reaped. */
  predicate Quiet(s: Session) {
    s.pc.Done? && (s.program.Some? && s.ask.Command? ==> s.program.value.reaped)
  }

  /** Once everything is over nothing is counted, nobody follows, and the mutex is free. */
  lemma {:induction false} QuietMeansZero(limits: Limits, steps: seq<Step>, st: State)
    requires Reached(limits, steps, st)
    requires forall s <- st.sessions :: Quiet(s)
    ensures st.live == 0 && st.following == 0 && st.lock.None?
  {
    ReachedIsInv(limits, steps, st);
    forall s <- st.sessions ensures !Alive(s) && !Follows(s) && !Critical(s) {
    }
    CountNone(st.sessions, Alive);
    CountNone(st.sessions, Follows);
  }

  /** One command or tool is waited for at a time. */
  lemma {:induction false} OneInTheLock(limits: Limits, steps: seq<Step>, st: State, i: nat, j: nat)
    requires Reached(limits, steps, st)
    requires i < |st.sessions| && j < |st.sessions| && Critical(st.sessions[i]) && Critical(st.sessions[j])
    ensures i == j
  {
    ReachedIsInv(limits, steps, st);
  }

  /**
   Every request gets one first line. A second is written at most once, only when following was asked for and the
   first said still running, and never once the peer's branch was taken. Every answer to a command or a tool says
   exactly one thing, truly: the exit code or the signal is the program's own, only a command is still running and
   only a tool timed out. A command over before the wait began is never called still running. Once its handler is done
   nothing more is kept of a program's output.
   */
  lemma {:induction false} LinesOfARequest(limits: Limits, steps: seq<Step>, st: State, i: nat)
    requires Reached(limits, steps, st) && i < |st.sessions|
    ensures var s := st.sessions[i];
            && |s.lines| <= 2
            && (s.pc.Done? ==> |s.lines| >= 1)
            && (|s.lines| == 2 ==> s.ask.Command? && s.ask.follow && s.lines[0].Report? && s.lines[0].result.stillRunning && !s.gone)
            && (s.gone ==> |s.lines| == 1)
            && (s.pc.Done? && s.program.Some? ==> s.program.value.out.held.frozen && s.program.value.err.held.frozen)
            && (forall line <- s.lines ::
                  && (line.Refusal? <==> s.ask.Refused?)
                  && (line.Report? ==> OneOutcome(line.result) && Tells(line.result, s.ask, s.program)
                                       && (s.overAtCheck ==> !line.result.stillRunning)))
  {
    ReachedIsInv(limits, steps, st);
    var s := st.sessions[i];
    assert SessionOk(s, limits);
    forall line <- s.lines ensures (line.Refusal? <==> s.ask.Refused?)
      && (line.Report? ==> OneOutcome(line.result) && Tells(line.result, s.ask, s.program)
                           && (s.overAtCheck ==> !line.result.stillRunning)) {
      var k :| 0 <= k < |s.lines| && s.lines[k] == line;
    }
  }

  /**
   Every output reported is what the buffer's definition shows of a true beginning of the program's own output, never
   of a frozen buffer. It is valid UTF-8. On a followed command's second line the bytes seen extend the first's, so
   the raw head only grows, the count omitted never falls, and text before a gap stays.
   */
  lemma {:induction false} ReportsAreTrue(limits: Limits, steps: seq<Step>, st: State, i: nat)
    requires Reached(limits, steps, st) && i < |st.sessions| && st.sessions[i].program.Some?
    ensures var s, shape := st.sessions[i], Shape(limits.maxOutput, st.sessions[i].ask.Tool?);
            && (forall k :: 0 <= k < |s.lines| ==>
                  && s.lines[k].Report?
                  && TrueOutput(s.lines[k].result.out, s.lines[k].outSeen, s.program.value.out, shape)
                  && TrueOutput(s.lines[k].result.err, s.lines[k].errSeen, s.program.value.err, shape))
            && (|s.lines| == 2 ==>
                  && Extends(s.lines[0].outSeen, s.lines[0].result.out, s.lines[1].outSeen, s.lines[1].result.out, shape)
                  && Extends(s.lines[0].errSeen, s.lines[0].result.err, s.lines[1].errSeen, s.lines[1].result.err, shape))
  {
    ReachedIsInv(limits, steps, st);
    var s, shape := st.sessions[i], ShapeOf(st.sessions[i], limits);
    assert SessionOk(s, limits);
    forall k | 0 <= k < |s.lines|
      ensures && s.lines[k].Report?
              && TrueOutput(s.lines[k].result.out, s.lines[k].outSeen, s.program.value.out, shape)
              && TrueOutput(s.lines[k].result.err, s.lines[k].errSeen, s.program.value.err, shape)
    {
      SnapshotIsValid(Held(s.lines[k].outSeen, false), shape);
      SnapshotIsValid(Held(s.lines[k].errSeen, false), shape);
    }
    hide SnapshotOf, Utf8.Valid;
    if |s.lines| == 2 {
      LaterSnapshot(s.lines[0].outSeen, s.lines[1].outSeen, shape);
      LaterSnapshot(s.lines[0].errSeen, s.lines[1].errSeen, shape);
    }
  }

  /** An output shown of what was seen of a pipe: a beginning of all that was read of it, as valid UTF-8. */
  predicate TrueOutput(out: Output, seen: seq<byte>, pipe: Pipe, shape: Shape) {
    Shows(out, seen, shape) && seen <= pipe.all && Utf8.Valid(out.text) && Utf8.Valid(out.tail)
  }

  /** An output with an omission is cut between characters of the whole, and gives up no character it has room for. */
  ghost predicate CutsCharacters(out: Output, seen: seq<byte>, whole: seq<byte>, shape: Shape)
    requires seen <= whole
  {
    var i, j := MiddleStart(seen, shape), MiddleEnd(seen, shape);
    && out == Output(seen[..i], ToValid(seen[j..]), j - i)
    && Boundary(whole, i) && Boundary(whole, j)
    && shape.HeadRoom() - 3 <= i <= shape.HeadRoom() && shape.TailRoom() - 3 <= |seen| - j <= shape.TailRoom()
    && (forall b :: i < b <= shape.HeadRoom() ==> !Boundary(whole, b))
    && (forall b :: |seen| - shape.TailRoom() <= b < j ==> !Boundary(whole, b))
  }

  lemma OutputCutsCharacters(out: Output, seen: seq<byte>, pipe: Pipe, whole: seq<byte>, max: nat)
    requires TrueOutput(out, seen, pipe, Shape(max, false)) && pipe.all <= whole && Utf8.Valid(whole)
    requires max >= 7 && RawOmitted(seen, Shape(max, false)) > 0
    ensures CutsCharacters(out, seen, whole, Shape(max, false))
  {
    hide Utf8.Valid, SnapshotOf, ToValid, HeadCut, TailCut, RawOmitted;
    assert whole == seen + whole[|seen|..];
    RunningStreamCuts(seen, whole[|seen|..], max);
  }

  /**
   Of a command whose whole output is valid text, whatever it writes after the report, a report with an omission is cut
   between characters, for a limit of at least 7.
   */
  lemma {:induction false} ReportsCutCharacters(limits: Limits, steps: seq<Step>, st: State, i: nat, k: nat,
                                                out: seq<byte>, err: seq<byte>)
    requires Reached(limits, steps, st) && i < |st.sessions| && k < |st.sessions[i].lines|
    requires st.sessions[i].ask.Command? && st.sessions[i].program.Some? && limits.maxOutput >= 7
    requires st.sessions[i].program.value.out.all <= out && Utf8.Valid(out)
    requires st.sessions[i].program.value.err.all <= err && Utf8.Valid(err)
    ensures var line, shape := st.sessions[i].lines[k], Shape(limits.maxOutput, false);
            && line.Report? && line.outSeen <= out && line.errSeen <= err
            && (RawOmitted(line.outSeen, shape) > 0 ==> CutsCharacters(line.result.out, line.outSeen, out, shape))
            && (RawOmitted(line.errSeen, shape) > 0 ==> CutsCharacters(line.result.err, line.errSeen, err, shape))
  {
    ReportsAreTrue(limits, steps, st, i);
    hide Reached, Utf8.Valid, TrueOutput, RawOmitted, CutsCharacters;
    var s, line := st.sessions[i], st.sessions[i].lines[k];
    SeenIsPrefix(line.result.out, line.outSeen, s.program.value.out, ShapeOf(s, limits));
    SeenIsPrefix(line.result.err, line.errSeen, s.program.value.err, ShapeOf(s, limits));
    if RawOmitted(line.outSeen, ShapeOf(s, limits)) > 0 {
      OutputCutsCharacters(line.result.out, line.outSeen, s.program.value.out, out, limits.maxOutput);
    }
    if RawOmitted(line.errSeen, ShapeOf(s, limits)) > 0 {
      OutputCutsCharacters(line.result.err, line.errSeen, s.program.value.err, err, limits.maxOutput);
    }
  }

  lemma SeenIsPrefix(out: Output, seen: seq<byte>, pipe: Pipe, shape: Shape)
    requires TrueOutput(out, seen, pipe, shape)
    ensures seen <= pipe.all
  {
  }

  predicate Extends(a: seq<byte>, x: Output, b: seq<byte>, y: Output, shape: Shape) {
    && a <= b
    && RawHead(a, shape) <= RawHead(b, shape)
    && RawOmitted(a, shape) <= RawOmitted(b, shape)
    && x.omitted <= y.omitted && (x.omitted > 0 ==> x.text == y.text)
  }

  /** The step that fills a result reads a buffer that is not frozen, and so all that was read of the pipe so far. */
  lemma {:induction false} FillsFromAll(limits: Limits, steps: seq<Step>, st: State, i: nat)
    requires Reached(limits, steps, st) && i < |st.sessions|
    ensures var s := st.sessions[i];
            && (s.pc.FillingOut? || s.pc.ToolTakingOut? ==>
                  s.program.Some? && s.program.value.out.held == Held(s.program.value.out.all, false))
            && (s.pc.FillingErr? || s.pc.ToolTakingErr? ==>
                  s.program.Some? && s.program.value.err.held == Held(s.program.value.err.all, false))
  {
    ReachedIsInv(limits, steps, st);
    assert SessionOk(st.sessions[i], st.limits);
  }

  /**
   However a run goes on, lines stay written, a frozen buffer keeps nothing more and no report is computed from it,
   and no program is counted again.
   */
  lemma {:induction false} NothingIsTakenBack(limits: Limits, steps: seq<Step>, st: State, more: seq<Step>, i: nat)
    requires Reached(limits, steps, st) && CanRun(st, more) && i < |st.sessions|
    ensures i < |Run(st, more).sessions| && Grows(st.sessions[i], Run(st, more).sessions[i])
  {
    ReachedIsInv(limits, steps, st);
    RunKeeps(st, more);
  }

  /** The number of running commands a report carries is their count when it loads it; a tool leaves itself out. */
  lemma {:induction false} LoadsTheRunning(limits: Limits, steps: seq<Step>, st: State, i: nat)
    requires Reached(limits, steps, st) && CanStep(st, At(i, Go)) && st.sessions[i].pc.LoadingRunning?
    ensures var s, t := st.sessions[i], Next(st, At(i, Go)).sessions[i];
            t.result.running == Count(st.sessions, Alive) - One(s.ask.Tool? && s.program.Some?) >= 0
  {
    ReachedIsInv(limits, steps, st);
    var s := st.sessions[i];
    NextGo(st, i);
    ToolIsAlive(s, limits);
    hide SessionOk, AfterGo, Alive;
    if s.ask.Tool? && s.program.Some? {
      CountHas(st.sessions, i, Alive);
    }
    GoLoads(s, limits, st.live, st.following);
  }

  lemma ToolIsAlive(s: Session, limits: Limits)
    requires limits.Valid() && SessionOk(s, limits) && s.pc.LoadingRunning?
    ensures s.ask.Tool? && s.program.Some? ==> Alive(s)
  {
    hide ResultOk, ReportsOk, KeptOk, LinesOk;
  }

  /** A handler's step in the whole state. */
  lemma NextGo(st: State, i: nat)
    requires st.limits.Valid() && CanStep(st, At(i, Go))
    ensures Enabled(st.sessions[i], Go, false)
    ensures Next(st, At(i, Go)).sessions[i] == AfterGo(st.sessions[i], st.limits, st.live, st.following)
  {
    hide AfterGo, LiveChange, FollowingChange;
  }

  /** What is loaded is what the counters hold. */
  lemma GoLoads(s: Session, limits: Limits, live: int, following: int)
    requires limits.Valid() && Enabled(s, Go, false)
    ensures s.pc.LoadingRunning? ==>
              AfterGo(s, limits, live, following).result.running == live - One(s.ask.Tool? && s.program.Some?)
    ensures s.pc.LoadingFollowing? ==> AfterGo(s, limits, live, following).result.following == following
  {
    hide Counted, Checked, FilledOut, FilledErr, OutTaken, ErrTaken, FrozenOut, FrozenErr, Written;
  }

  /** The number of followers a report carries is their count when it loads it, its own command's included. */
  lemma {:induction false} LoadsTheFollowing(limits: Limits, steps: seq<Step>, st: State, i: nat)
    requires Reached(limits, steps, st) && CanStep(st, At(i, Go)) && st.sessions[i].pc.LoadingFollowing?
    ensures var s, t := st.sessions[i], Next(st, At(i, Go)).sessions[i];
            t.result.following == Count(st.sessions, Follows) >= One(s.follows)
  {
    ReachedIsInv(limits, steps, st);
    NextGo(st, i);
    hide SessionOk, AfterGo;
    if st.sessions[i].follows {
      CountHas(st.sessions, i, Follows);
    }
    GoLoads(st.sessions[i], limits, st.live, st.following);
  }

  /** A tool's call is over when its answer is: its group was killed, its program joined, and it is counted no more. */
  lemma {:induction false} ToolIsOverWhenAnswered(limits: Limits, steps: seq<Step>, st: State, i: nat)
    requires Reached(limits, steps, st) && i < |st.sessions|
    requires st.sessions[i].ask.Tool? && st.sessions[i].program.Some? && st.sessions[i].lines != []
    ensures var s := st.sessions[i];
            s.killed && s.program.value.exit.Some? && s.program.value.released && !Critical(s)
  {
    ReachedIsInv(limits, steps, st);
    assert SessionOk(st.sessions[i], st.limits);
  }
}
