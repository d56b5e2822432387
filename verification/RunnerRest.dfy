/** The runner can always come to rest: no interleaving leaves it stuck, and a handler takes a bounded number of steps. */
module RunnerRest {
  import opened Common
  import opened Utf8
  import opened Capped
  import opened Runner
  import opened RunnerInvariant
  import opened RunnerRuns

  /** Each step of a handler brings it nearer its end, at most 26 steps away; what its program does leaves it where it is. */
  lemma {:induction false} HandlerAdvances(limits: Limits, steps: seq<Step>, st: State, i: nat, e: Event)
    requires Reached(limits, steps, st) && CanStep(st, At(i, e))
    ensures var s, t := st.sessions[i], Next(st, At(i, e)).sessions[i];
            && HandlerRank(s) <= 26
            && (if Handling(e) then HandlerRank(t) < HandlerRank(s) else HandlerRank(t) == HandlerRank(s))
  {
    hide After, SessionOk, Grows, Accounts, LiveChange, FollowingChange;
    ReachedIsInv(limits, steps, st);
    EnabledWhenFree(st.sessions[i], e, st.lock.None?);
    StepKeeps(st.sessions[i], e, st.limits, st.live, st.following);
  }

  /** A handler's waits: each branch of its select is open just when what it waits for is there; a timer's and a peer's always. */
  ghost predicate WaitsOpen(s: Session, free: bool) {
    var exited := s.program.Some? && s.program.value.exit.Some?;
    && (s.pc.Locking? ==> (Enabled(s, Lock, free) <==> free))
    && (s.pc.Starting? ==> (forall g :: Enabled(s, Start(g), free)) && forall reason :: Enabled(s, StartFail(reason), free))
    && (s.pc.Awaiting? || s.pc.ToolAwaiting? || s.pc.Following? ==>
          Enabled(s, TakeTimer, free) && (Enabled(s, TakeExit, free) <==> exited))
    && (s.pc.Following? ==> Enabled(s, TakeGone, free))
    && (s.pc.Settling? ==>
          Enabled(s, TakeTimer, free) && (Enabled(s, TakeEnded, free) <==> s.program.Some? && s.program.value.ended))
    && (s.pc.ToolJoining? ==> (Enabled(s, TakeExit, free) <==> exited))
  }

  /** A program may write to a pipe until that ends, and exit in any way; its goroutines go on once what they wait for is there. */
  ghost predicate ProgramOpen(s: Session, free: bool)
    requires s.program.Some?
  {
    var p := s.program.value;
    && (p.exit.None? && p.counted ==> forall exit: Exit :: (exit.Killed? ==> exit.signal != "") ==> Enabled(s, ShellExit(exit), free))
    && (forall ofErr, bytes ::
          var pipe := if ofErr then p.err else p.out;
          !pipe.drained && (s.ask.Command? || p.exit.None?) ==> Enabled(s, Read(ofErr, bytes), free))
    && (s.ask.Command? ==>
          && (forall ofErr :: !(if ofErr then p.err else p.out).drained ==> Enabled(s, DrainEnd(ofErr), free))
          && (p.counted && p.out.drained && p.err.drained && !p.ended ==> Enabled(s, CloseEnded, free))
          && (p.exit.Some? && p.ended && !p.reaped ==> Enabled(s, Reap, free)))
  }

  lemma WaitsAreOpen(s: Session, free: bool)
    requires PhaseOk(s)
    ensures WaitsOpen(s, free)
  {
    hide EnabledOutside;
  }

  lemma OutsideIsOpen(s: Session, e: Event, free: bool)
    requires s.program.Some? && !Handling(e)
    ensures Enabled(s, e, free) <==> EnabledOutside(s.ask, s.program.value, e)
  {
    hide EnabledOutside;
  }

  lemma ProgramIsOpen(s: Session, free: bool)
    requires s.program.Some? && !s.ask.Refused?
    ensures ProgramOpen(s, free)
  {
    forall e | !Handling(e) ensures Enabled(s, e, free) <==> EnabledOutside(s.ask, s.program.value, e) {
      OutsideIsOpen(s, e, free);
    }
    hide Enabled;
  }

  /** In every reached state whatever is ready may happen next: no branch that is ready is ever shut. */
  lemma {:induction false} WhateverIsReadyIsOpen(limits: Limits, steps: seq<Step>, st: State, i: nat)
    requires Reached(limits, steps, st) && i < |st.sessions|
    ensures WaitsOpen(st.sessions[i], st.lock.None?)
    ensures st.sessions[i].program.Some? ==> ProgramOpen(st.sessions[i], st.lock.None?)
    ensures forall e :: Enabled(st.sessions[i], e, st.lock.None?) ==> CanStep(st, At(i, e))
  {
    ReachedIsInv(limits, steps, st);
    AskIsKnown(st.sessions[i], st.limits);
    WaitsAreOpen(st.sessions[i], st.lock.None?);
    if st.sessions[i].program.Some? {
      ProgramIsOpen(st.sessions[i], st.lock.None?);
    }
    hide Reached, Inv, SessionOk, WaitsOpen, ProgramOpen, Enabled;
  }

  lemma AskIsKnown(s: Session, limits: Limits)
    requires limits.Valid() && SessionOk(s, limits)
    ensures PhaseOk(s) && (s.program.Some? ==> !s.ask.Refused?)
  {
    hide ResultOk, ReportsOk, KeptOk, LinesOk;
  }

  /** How much a session has before it. Starting a program adds what is left to happen to it, at most five things. */
  function Rank(s: Session): nat {
    6 * HandlerRank(s) + Leftover(s)
  }

  lemma RankIsSmall(s: Session)
    ensures HandlerRank(s) <= 26 && Leftover(s) <= 5 && (s.program.None? ==> Rank(s) <= 156)
  {
  }

  /** Every step of a session but a read leaves it less to do, and a read as much. */
  lemma StepLowersRank(s: Session, e: Event, limits: Limits, live: int, following: int)
    requires limits.Valid() && SessionOk(s, limits) && Enabled(s, e, true)
    ensures var t := After(s, e, limits, live, following);
            Rank(t) + (if e.Read? then 0 else 1) <= Rank(s)
  {
    StepKeeps(s, e, limits, live, following);
    if e.Read? {
      ReadLeaves(s, e, limits, live, following);
    }
    if e.Start? {
      StartsFromNothing(s, limits);
    }
    RankIsSmall(After(s, e, limits, live, following));
    hide After, SessionOk, HandlerRank, Leftover, Grows, Accounts;
  }

  lemma ReadLeaves(s: Session, e: Event, limits: Limits, live: int, following: int)
    requires limits.Valid() && e.Read? && Enabled(s, e, true)
    ensures Leftover(After(s, e, limits, live, following)) == Leftover(s)
  {
    hide AfterGo;
  }

  lemma StartsFromNothing(s: Session, limits: Limits)
    requires limits.Valid() && SessionOk(s, limits) && s.pc.Starting?
    ensures Leftover(s) == 0
  {
    hide ResultOk, ReportsOk, KeptOk, LinesOk;
  }

  /** A step a session can make whenever the mutex is not in its way, and which brings it nearer rest. */
  function Forward(s: Session): Event {
    if s.pc.Locking? then Lock
    else if s.pc.Starting? then StartFail(NOTHING)
    else if s.pc.Awaiting? || s.pc.Settling? || s.pc.Following? || s.pc.ToolAwaiting? then TakeTimer
    else if s.pc.ToolJoining? && s.program.Some? && s.program.value.exit.Some? then TakeExit
    else if s.pc.ToolJoining? then ShellExit(Code(0))
    else if !s.pc.Done? then Go
    else if s.program.None? then Go
    else if s.program.value.exit.None? then ShellExit(Code(0))
    else if !s.program.value.out.drained then DrainEnd(false)
    else if !s.program.value.err.drained then DrainEnd(true)
    else if !s.program.value.ended then CloseEnded
    else Reap
  }

  lemma ForwardIsEnabled(s: Session, free: bool)
    requires ControlOk(s) && !Quiet(s) && (s.pc.Locking? ==> free)
    ensures Enabled(s, Forward(s), free)
  {
    hide KeptOk, LinesOk, SnapshotOf;
  }

  function Total(sessions: seq<Session>): nat {
    if sessions == [] then 0 else Total(sessions[..|sessions| - 1]) + Rank(sessions[|sessions| - 1])
  }

  lemma {:induction false} TotalUpdate(sessions: seq<Session>, i: nat, t: Session)
    requires i < |sessions|
    ensures Total(sessions[i := t]) == Total(sessions) - Rank(sessions[i]) + Rank(t)
  {
    var last := |sessions| - 1;
    if i == last {
      assert sessions[i := t][..last] == sessions[..last];
    } else {
      assert sessions[i := t][..last] == sessions[..last][i := t];
      TotalUpdate(sessions[..last], i, t);
    }
  }

  /** A session that can go forward, unless all are quiet: whoever holds the mutex can. */
  lemma SomeoneCanGo(st: State, i: nat) returns (j: nat)
    requires Inv(st) && i < |st.sessions| && !Quiet(st.sessions[i])
    ensures j < |st.sessions| && !Quiet(st.sessions[j]) && Enabled(st.sessions[j], Forward(st.sessions[j]), st.lock.None?)
  {
    j := if st.lock.Some? then st.lock.value else i;
    assert SessionOk(st.sessions[j], st.limits);
    assert st.lock.Some? ==> Critical(st.sessions[j]);
    ForwardIsEnabled(st.sessions[j], st.lock.None?);
  }

  /** From every reachable state the server can come to rest, with nothing counted and every request answered. */
  lemma {:induction false} CanComeToRest(st: State) returns (more: seq<Step>)
    requires Inv(st)
    ensures CanRun(st, more)
    ensures var rest := Run(st, more);
            && |rest.sessions| == |st.sessions|
            && (forall s <- rest.sessions :: Quiet(s) && 1 <= |s.lines| <= 2)
            && rest.live == 0 && rest.following == 0 && rest.lock.None?
    decreases Total(st.sessions)
  {
    hide After, SessionOk, Enabled, Quiet, LiveChange, FollowingChange, Rank;
    if i: nat :| i < |st.sessions| && !Quiet(st.sessions[i]) {
      var j := SomeoneCanGo(st, i);
      var s := st.sessions[j];
      var e := Forward(s);
      EnabledWhenFree(s, e, st.lock.None?);
      StepLowersRank(s, e, st.limits, st.live, st.following);
      TotalUpdate(st.sessions, j, After(s, e, st.limits, st.live, st.following));
      AtKeeps(st, j, e);
      var rest := CanComeToRest(Next(st, At(j, e)));
      more := [At(j, e)] + rest;
      assert more[1..] == rest;
    } else {
      more := [];
      AllQuiet(st);
    }
  }

  lemma AllQuiet(st: State)
    requires Inv(st) && forall i :: 0 <= i < |st.sessions| ==> Quiet(st.sessions[i])
    ensures forall s <- st.sessions :: Quiet(s) && 1 <= |s.lines| <= 2
    ensures st.live == 0 && st.following == 0 && st.lock.None?
  {
    forall s <- st.sessions ensures Quiet(s) && 1 <= |s.lines| <= 2 && !Alive(s) && !Follows(s) && !Critical(s) {
      var i :| 0 <= i < |st.sessions| && st.sessions[i] == s;
      assert SessionOk(s, st.limits);
    }
    CountNone(st.sessions, Alive);
    CountNone(st.sessions, Follows);
  }

  // Not only some run comes to rest: every run does.

  /** A step of a session that is not a read; the program under it may write without end. */
  predicate IsWork(step: Step) {
    step.At? && !step.event.Read?
  }

  predicate IsConnect(step: Step) {
    step.Connect?
  }

  /** Before a new connection's handler has done anything it has 156 units before it. */
  const NEW := 156

  lemma NextLowers(st: State, step: Step)
    requires Inv(st) && CanStep(st, step)
    ensures Inv(Next(st, step)) && Next(st, step).limits == st.limits
    ensures Total(Next(st, step).sessions) + (if IsWork(step) then 1 else 0)
            <= Total(st.sessions) + if IsConnect(step) then NEW else 0
  {
    hide After, SessionOk, Enabled, LiveChange, FollowingChange, Rank;
    match step {
      case Connect(ask, direct) =>
        ConnectKeeps(st, ask, direct);
        NewRank(ask, direct, st.limits);
        TotalPush(st.sessions, NewSession(ask, direct, st.limits));
      case At(i, e) =>
        AtKeeps(st, i, e);
        EnabledWhenFree(st.sessions[i], e, st.lock.None?);
        StepLowersRank(st.sessions[i], e, st.limits, st.live, st.following);
        TotalUpdate(st.sessions, i, After(st.sessions[i], e, st.limits, st.live, st.following));
    }
  }

  lemma NewRank(ask: Ask, direct: bool, limits: Limits)
    ensures Rank(NewSession(ask, direct, limits)) <= NEW
  {
    RankIsSmall(NewSession(ask, direct, limits));
    hide HandlerRank, Leftover, Rank;
  }

  lemma TotalPush(sessions: seq<Session>, s: Session)
    ensures Total(sessions + [s]) == Total(sessions) + Rank(s)
  {
    assert (sessions + [s])[..|sessions|] == sessions;
  }

  lemma {:induction false} RunLowers(st: State, steps: seq<Step>)
    requires Inv(st) && CanRun(st, steps)
    ensures Total(Run(st, steps).sessions) + Count(steps, IsWork) <= Total(st.sessions) + NEW * Count(steps, IsConnect)
    decreases |steps|
  {
    assert st.limits.Valid();
    if steps != [] {
      NextLowers(st, steps[0]);
      FirstCounts(steps, IsWork);
      FirstCounts(steps, IsConnect);
      hide Inv, Next, CanStep, Total, Count, IsWork, IsConnect;
      RunLowers(Next(st, steps[0]), steps[1..]);
    }
  }

  lemma FirstCounts(steps: seq<Step>, p: Step -> bool)
    requires steps != []
    ensures Count(steps, p) == (if p(steps[0]) then 1 else 0) + Count(steps[1..], p)
  {
    assert steps == [steps[0]] + steps[1..];
    CountConcat([steps[0]], steps[1..], p);
    CountPush([], steps[0], p);
    assert [] + [steps[0]] == [steps[0]];
  }

  /** However its steps interleave, a run makes at most 156 of them for each connection, reads aside. */
  lemma {:induction false} EveryRunIsBounded(limits: Limits, steps: seq<Step>, st: State)
    requires Reached(limits, steps, st)
    ensures Count(steps, IsWork) <= NEW * Count(steps, IsConnect)
  {
    assert Inv(Init(limits));
    hide Inv, Total, Count;
    RunLowers(Init(limits), steps);
    NoneTotal();
  }

  lemma NoneTotal()
    ensures Total([]) == 0
  {
  }

  /** A session that is quiet makes no step at all. */
  lemma QuietIsStill(s: Session, limits: Limits, e: Event, free: bool)
    requires limits.Valid() && SessionOk(s, limits) && Quiet(s)
    ensures !Enabled(s, e, free)
  {
    hide ResultOk, ReportsOk, KeptOk, LinesOk;
  }

  ghost predicate OnlyReadsAreLeft(st: State) {
    forall i: nat, e :: CanStep(st, At(i, e)) ==> e.Read?
  }

  lemma StoppedIsQuiet(st: State, i: nat)
    requires Inv(st) && OnlyReadsAreLeft(st) && i < |st.sessions|
    ensures Quiet(st.sessions[i])
  {
    if !Quiet(st.sessions[i]) {
      hide Quiet, Forward, Enabled, Inv;
      var j := SomeoneCanGo(st, i);
      assert CanStep(st, At(j, Forward(st.sessions[j])));
      ForwardIsNoRead(st.sessions[j]);
    }
  }

  lemma QuietIsStopped(st: State)
    requires Inv(st) && forall s <- st.sessions :: Quiet(s)
    ensures OnlyReadsAreLeft(st)
  {
    hide Quiet, Enabled, SessionOk;
    forall i: nat, e ensures !CanStep(st, At(i, e)) {
      if i < |st.sessions| {
        assert st.sessions[i] in st.sessions;
        QuietIsStill(st.sessions[i], st.limits, e, st.lock.None?);
      }
    }
  }

  /**
   A run can go no further, reads and new connections aside, just when every session is quiet; then every request is
   answered, nothing is counted and the mutex is free.
   */
  lemma {:induction false} StopsOnlyAtRest(limits: Limits, steps: seq<Step>, st: State)
    requires Reached(limits, steps, st)
    ensures OnlyReadsAreLeft(st) <==> forall s <- st.sessions :: Quiet(s)
    ensures OnlyReadsAreLeft(st) ==>
              (forall s <- st.sessions :: 1 <= |s.lines| <= 2) && st.live == 0 && st.following == 0 && st.lock.None?
  {
    ReachedIsInv(limits, steps, st);
    hide Reached, Inv, Quiet, OnlyReadsAreLeft;
    if OnlyReadsAreLeft(st) {
      forall i: nat | i < |st.sessions| ensures Quiet(st.sessions[i]) {
        StoppedIsQuiet(st, i);
      }
      AllQuiet(st);
    } else if forall s <- st.sessions :: Quiet(s) {
      QuietIsStopped(st);
    }
  }

  lemma ForwardIsNoRead(s: Session)
    ensures !Forward(s).Read?
  {
  }

  lemma {:induction false} RunThen(st: State, steps: seq<Step>, step: Step)
    requires st.limits.Valid() && CanRun(st, steps) && Run(st, steps).limits == st.limits && CanStep(Run(st, steps), step)
    ensures CanRun(st, steps + [step]) && Run(st, steps + [step]) == Next(Run(st, steps), step)
    decreases |steps|
  {
    hide CanStep, Next;
    if steps == [] {
      assert [step][1..] == [];
    } else {
      assert (steps + [step])[1..] == steps[1..] + [step];
      NextLimits(st, steps[0]);
      RunThen(Next(st, steps[0]), steps[1..], step);
    }
  }

  // When `following` stays within `live`.

  /** Every connection of the run asks for something in the set. */
  ghost predicate AsksOnly(steps: seq<Step>, asks: iset<Ask>) {
    forall k :: 0 <= k < |steps| && steps[k].Connect? ==> steps[k].ask in asks
  }

  predicate AsksToFollow(ask: Ask) {
    ask.Command? && ask.follow
  }

  /** The run so far, and one step more of the one session in it. */
  lemma Then(limits: Limits, steps: seq<Step>, st: State, e: Event, asks: iset<Ask>) returns (more: seq<Step>, next: State)
    requires Reached(limits, steps, st) && CanStep(st, At(0, e)) && AsksOnly(steps, asks)
    ensures Reached(limits, more, next) && next == Next(st, At(0, e)) && AsksOnly(more, asks)
  {
    RunThen(Init(limits), steps, At(0, e));
    NextLimits(st, At(0, e));
    more, next := steps + [At(0, e)], Next(st, At(0, e));
  }

  /** One session, a followed command with the given program, at a given point. */
  predicate OnlyOne(st: State, wait: Option<int>, pc: Pc, p: Program, follows: bool, second: bool) {
    && |st.sessions| == 1
    && IsFollowing(st.sessions[0], wait, pc, p, follows, second)
    && st.following == One(follows) && st.live == One(!p.released)
    && st.lock == if second || pc.Writing? then None else Some(0)
  }

  predicate IsFollowing(s: Session, wait: Option<int>, pc: Pc, p: Program, follows: bool, second: bool) {
    && s.ask == Command(true, wait) && !s.direct && s.pc == pc && s.program == Some(p)
    && s.second == second && s.follows == follows && !s.exitSeen && !s.gone
  }

  const PROGRAM := NewProgram(7).(counted := true)
  const ENDED := PROGRAM.(out := EMPTY_PIPE.(drained := true), err := EMPTY_PIPE.(drained := true), ended := true)

  lemma StartsWaiting(limits: Limits, wait: Option<int>, asks: iset<Ask>) returns (steps: seq<Step>, st: State)
    requires limits.Valid() && Command(true, wait) in asks
    ensures Reached(limits, steps, st) && AsksOnly(steps, asks) && OnlyOne(st, wait, Checking, PROGRAM, false, false)
  {
    hide Wait;
    var connect := Connect(Command(true, wait), false);
    steps, st := [connect], Next(Init(limits), connect);
    assert steps[1..] == [];
    steps, st := Then(limits, steps, st, Lock, asks);
    steps, st := Then(limits, steps, st, Start(7), asks);
    steps, st := Then(limits, steps, st, Go, asks);
  }

  /** The answer's wait may be over at any time, however long it is. */
  lemma TimesOut(limits: Limits, wait: Option<int>, asks: iset<Ask>, before: seq<Step>, checking: State)
    returns (steps: seq<Step>, st: State)
    requires Reached(limits, before, checking) && AsksOnly(before, asks) && OnlyOne(checking, wait, Checking, PROGRAM, false, false)
    ensures Reached(limits, steps, st) && AsksOnly(steps, asks) && OnlyOne(st, wait, FillingOut, PROGRAM, false, false)
  {
    hide Wait;
    steps, st := Then(limits, before, checking, Go, asks);
    steps, st := Then(limits, steps, st, TakeTimer, asks);
  }

  lemma Fills(limits: Limits, wait: Option<int>, asks: iset<Ask>, before: seq<Step>, filling: State)
    returns (steps: seq<Step>, st: State)
    requires Reached(limits, before, filling) && AsksOnly(before, asks) && OnlyOne(filling, wait, FillingOut, PROGRAM, false, false)
    ensures Reached(limits, steps, st) && AsksOnly(steps, asks) && OnlyOne(st, wait, FollowAdding, PROGRAM, false, false)
  {
    hide SnapshotOf;
    steps, st := Then(limits, before, filling, Go, asks);
    steps, st := Then(limits, steps, st, Go, asks);
  }

  lemma LoadsCounts(limits: Limits, wait: Option<int>, asks: iset<Ask>, before: seq<Step>, filled: State)
    returns (steps: seq<Step>, st: State)
    requires Reached(limits, before, filled) && AsksOnly(before, asks) && OnlyOne(filled, wait, FollowAdding, PROGRAM, false, false)
    ensures Reached(limits, steps, st) && AsksOnly(steps, asks) && OnlyOne(st, wait, LoadingFollowing, PROGRAM, true, false)
  {
    steps, st := Then(limits, before, filled, Go, asks);
    steps, st := Then(limits, steps, st, Go, asks);
  }

  lemma Unlocks(limits: Limits, wait: Option<int>, asks: iset<Ask>, before: seq<Step>, loaded: State)
    returns (steps: seq<Step>, st: State)
    requires Reached(limits, before, loaded) && AsksOnly(before, asks) && OnlyOne(loaded, wait, LoadingFollowing, PROGRAM, true, false)
    ensures Reached(limits, steps, st) && AsksOnly(steps, asks) && OnlyOne(st, wait, Writing, PROGRAM, true, false)
  {
    steps, st := Then(limits, before, loaded, Go, asks);
    steps, st := Then(limits, steps, st, Go, asks);
  }

  lemma WritesFirst(limits: Limits, wait: Option<int>, asks: iset<Ask>, before: seq<Step>, writing: State)
    returns (steps: seq<Step>, st: State)
    requires Reached(limits, before, writing) && AsksOnly(before, asks) && OnlyOne(writing, wait, Writing, PROGRAM, true, false)
    ensures Reached(limits, steps, st) && AsksOnly(steps, asks) && OnlyOne(st, wait, Following, PROGRAM, true, true)
  {
    steps, st := Then(limits, before, writing, Go, asks);
  }

  lemma OutputEnds(limits: Limits, wait: Option<int>, asks: iset<Ask>, before: seq<Step>, followed: State)
    returns (steps: seq<Step>, st: State)
    requires Reached(limits, before, followed) && AsksOnly(before, asks) && OnlyOne(followed, wait, Following, PROGRAM, true, true)
    ensures Reached(limits, steps, st) && AsksOnly(steps, asks) && OnlyOne(st, wait, Following, ENDED, true, true)
  {
    steps, st := Then(limits, before, followed, DrainEnd(false), asks);
    steps, st := Then(limits, steps, st, DrainEnd(true), asks);
    steps, st := Then(limits, steps, st, CloseEnded, asks);
  }

  lemma EndsUnseen(limits: Limits, wait: Option<int>, asks: iset<Ask>, before: seq<Step>, followed: State)
    returns (steps: seq<Step>, st: State)
    requires Reached(limits, before, followed) && AsksOnly(before, asks) && OnlyOne(followed, wait, Following, ENDED, true, true)
    ensures Reached(limits, steps, st) && AsksOnly(steps, asks) && st.live == 0 && st.following == 1
  {
    steps, st := Then(limits, before, followed, ShellExit(Code(0)), asks);
    steps, st := Then(limits, steps, st, Reap, asks);
  }

  /** A followed command, of any wait, that ends and is reaped before its follower looks leaves `following` above `live`. */
  lemma {:induction false} FollowingMayExceedLive(limits: Limits, wait: Option<int>, asks: iset<Ask>)
    returns (steps: seq<Step>, st: State)
    requires limits.Valid() && Command(true, wait) in asks
    ensures Reached(limits, steps, st) && AsksOnly(steps, asks) && st.live == 0 && st.following == 1
  {
    hide OnlyOne, Reached, AsksOnly;
    steps, st := StartsWaiting(limits, wait, asks);
    steps, st := TimesOut(limits, wait, asks, steps, st);
    steps, st := Fills(limits, wait, asks, steps, st);
    steps, st := LoadsCounts(limits, wait, asks, steps, st);
    steps, st := Unlocks(limits, wait, asks, steps, st);
    steps, st := WritesFirst(limits, wait, asks, steps, st);
    steps, st := OutputEnds(limits, wait, asks, steps, st);
    steps, st := EndsUnseen(limits, wait, asks, steps, st);
  }

  /** The sessions of a run ask for what its connections asked for. */
  lemma {:induction false} SessionsAsk(st: State, steps: seq<Step>, asks: iset<Ask>)
    requires Inv(st) && CanRun(st, steps) && AsksOnly(steps, asks) && forall s <- st.sessions :: s.ask in asks
    ensures Inv(Run(st, steps)) && forall s <- Run(st, steps).sessions :: s.ask in asks
    decreases |steps|
  {
    assert st.limits.Valid();
    hide Inv;
    if steps != [] {
      NextAsks(st, steps[0], asks);
      hide Next, CanStep;
      assert forall k :: 0 <= k < |steps[1..]| ==> steps[1..][k] == steps[k + 1];
      SessionsAsk(Next(st, steps[0]), steps[1..], asks);
    }
  }

  lemma NextAsks(st: State, step: Step, asks: iset<Ask>)
    requires Inv(st) && CanStep(st, step) && (step.Connect? ==> step.ask in asks) && forall s <- st.sessions :: s.ask in asks
    ensures Inv(Next(st, step)) && Next(st, step).limits == st.limits && forall s <- Next(st, step).sessions :: s.ask in asks
  {
    hide SessionOk, After, Enabled, LiveChange, FollowingChange;
    match step {
      case Connect(ask, direct) => ConnectKeeps(st, ask, direct);
      case At(i, e) =>
        AtKeeps(st, i, e);
        GrowsAsks(st.sessions[i], Next(st, step).sessions[i]);
    }
  }

  lemma GrowsAsks(s: Session, t: Session)
    requires Grows(s, t)
    ensures t.ask == s.ask
  {
  }

  lemma FollowsOnlyWhenAsked(s: Session, limits: Limits)
    requires limits.Valid() && SessionOk(s, limits) && s.follows
    ensures AsksToFollow(s.ask)
  {
  }

  /** Nobody follows in a run in which nobody asks to. */
  lemma UnaskedIsUnfollowed(limits: Limits, steps: seq<Step>, st: State, asks: iset<Ask>)
    requires Reached(limits, steps, st) && AsksOnly(steps, asks) && forall ask <- asks :: !AsksToFollow(ask)
    ensures st.following == 0 <= st.live
  {
    assert Inv(Init(limits));
    SessionsAsk(Init(limits), steps, asks);
    hide SessionOk, Reached;
    forall s <- st.sessions ensures !Follows(s) {
      var i :| 0 <= i < |st.sessions| && st.sessions[i] == s;
      if s.follows {
        FollowsOnlyWhenAsked(s, st.limits);
      }
    }
    CountNone(st.sessions, Follows);
  }

  ghost predicate NeverExceeds(limits: Limits, asks: iset<Ask>) {
    forall steps, st :: Reached(limits, steps, st) && AsksOnly(steps, asks) ==> st.following <= st.live
  }

  /**
   `following` stays within `live` in every run whose connections ask only for something in the set just when nothing in it
   asks for a command to be followed: the guard of the handler's following branch.
   */
  lemma {:induction false} FollowingWithinLiveIff(limits: Limits, asks: iset<Ask>)
    requires limits.Valid()
    ensures NeverExceeds(limits, asks) <==> forall ask <- asks :: !AsksToFollow(ask)
  {
    hide Reached, AsksOnly;
    if ask :| ask in asks && AsksToFollow(ask) {
      var steps, st := FollowingMayExceedLive(limits, ask.wait, asks);
    } else {
      forall steps, st | Reached(limits, steps, st) && AsksOnly(steps, asks) ensures st.following <= st.live {
        UnaskedIsUnfollowed(limits, steps, st, asks);
      }
    }
  }

  predicate FollowsTheReleased(s: Session) {
    s.follows && !Alive(s)
  }

  predicate AliveUnfollowed(s: Session) {
    Alive(s) && !s.follows
  }

  predicate FollowsTheAlive(s: Session) {
    s.follows && Alive(s)
  }

  /** A follower whose command is not counted any more follows one that is over: it has exited and its output has ended. */
  lemma {:induction false} ReleasedFollowersAreOver(limits: Limits, steps: seq<Step>, st: State)
    requires Reached(limits, steps, st)
    ensures forall s <- st.sessions :: FollowsTheReleased(s) ==>
              && s.program.Some? && s.program.value.released
              && s.program.value.exit.Some? && s.program.value.ended && s.program.value.out.drained && s.program.value.err.drained
    ensures st.following <= st.live + Count(st.sessions, FollowsTheReleased)
  {
    ReachedIsInv(limits, steps, st);
    forall s <- st.sessions | FollowsTheReleased(s)
      ensures && s.program.Some? && s.program.value.released
              && s.program.value.exit.Some? && s.program.value.ended && s.program.value.out.drained && s.program.value.err.drained
    {
      var i :| 0 <= i < |st.sessions| && st.sessions[i] == s;
      ReleasedFollowerIsOver(s, limits);
    }
    assert st.live == Count(st.sessions, Alive) && st.following == Count(st.sessions, Follows);
    hide Inv, Reached;
    AllButTheReleased(st);
  }

  lemma ReleasedFollowerIsOver(s: Session, limits: Limits)
    requires limits.Valid() && SessionOk(s, limits) && FollowsTheReleased(s)
    ensures && s.program.Some? && s.program.value.released
            && s.program.value.exit.Some? && s.program.value.ended && s.program.value.out.drained && s.program.value.err.drained
  {
  }

  lemma AllButTheReleased(st: State)
    requires st.live == Count(st.sessions, Alive) && st.following == Count(st.sessions, Follows)
    ensures st.following <= st.live + Count(st.sessions, FollowsTheReleased)
  {
    CountSplits(st.sessions, Follows, FollowsTheAlive, FollowsTheReleased);
    CountSplits(st.sessions, Alive, FollowsTheAlive, AliveUnfollowed);
  }
}
