/** What holds of every session in every reachable state of the runner, and why each step keeps it. */
module RunnerInvariant {
  import opened Common
  import opened Utf8
  import opened Capped
  import opened Runner

  /** The goroutines' own bookkeeping: a release needs the exit and, for a command, the end of both pipes; it happens once. */
  predicate ProgramOk(tool: bool, p: Program) {
    && p.out.Sound() && p.err.Sound()
    && (p.ended ==> p.out.drained && p.err.drained)
    && (p.exit.Some? || p.ended ==> p.counted)
    && (p.exit.Some? && p.exit.value.Killed? ==> p.exit.value.signal != "")
    && (p.released ==> p.exit.Some? && (p.ended || tool))
    && p.releases == (if p.released then 1 else 0)
    && (p.reaped ==> p.released && !tool)
  }

  /** Where a handler may be in its second phase. */
  predicate SecondPc(pc: Pc) {
    || pc.Following? || pc.Settling? || pc.Filling() || pc.LoadingRunning? || pc.LoadingFollowing? || pc.Writing?
    || pc.Freezing() || pc.Unfollowing? || pc.Done?
  }

  /** A tool whose program is over: killed with its group, joined, and then read. */
  predicate ToolOver(pc: Pc) {
    pc.ToolTakingOut? || pc.ToolTakingErr? || pc.ToolReleasing? || pc.Answering() || pc.Done?
  }

  /** Which phase a handler is in agrees with where it is. */
  predicate PhaseOk(s: Session) {
    && (s.direct ==> s.ask.Command? && !s.ask.follow && !s.pc.Locking? && !s.pc.Unlocking?)
    && (s.ask.Refused? ==> (s.pc.Writing? || s.pc.Done?) && s.program.None? && !s.second)
    && (s.pc.Locking? || s.pc.Starting? ==> s.program.None?)
    && (s.pc.OfTool() ==> s.ask.Tool? && s.program.Some?)
    && (s.pc.OfCommand() ==> s.ask.Command? && s.program.Some?)
    && (s.pc.Counting? ==> s.program.Some?)
    && (s.pc.LoadingFollowing? && s.ask.Tool? ==> s.program.None?)
    && (s.pc.FollowAdding? ==> s.ask.follow && !s.second)
    && (s.program.Some? ==> (s.program.value.counted <==> !s.pc.Counting?))
  }

  predicate SecondOk(s: Session) {
    && (s.second ==> s.ask.Command? && s.ask.follow && s.program.Some? && SecondPc(s.pc))
    && (s.pc.Following? || s.pc.Unfollowing? ==> s.second)
    && (s.follows && !s.second ==> s.program.Some? && s.ask.Command? && s.ask.follow && s.pc.Answering())
    && (s.second ==> (s.follows <==> !s.pc.Done?))
    && (s.gone ==> s.second && (s.pc.Freezing() || s.pc.Unfollowing? || s.pc.Done?))
  }

  predicate ExitOk(s: Session) {
    && (s.pc.Settling? ==> s.exitSeen)
    && (s.pc.FollowAdding? || (s.follows && !s.second) ==> !s.exitSeen)
    && (s.exitSeen ==> s.ask.Command? && s.program.Some? && s.program.value.exit.Some?)
    && (s.overAtCheck ==> s.exitSeen && !s.second)
    && (s.ask.Tool? && s.program.Some? && (s.pc.ToolJoining? || ToolOver(s.pc)) ==> s.killed)
    && (s.ask.Tool? && s.program.Some? && ToolOver(s.pc) ==> s.program.value.exit.Some?)
    && (s.ask.Tool? && s.program.Some? ==>
          (s.program.value.released <==> s.pc.Unlocking? || s.pc.Writing? || s.pc.Done?))
  }

  /** Somebody will still be told what the pipe brings: its buffer is not frozen. */
  predicate KeepsOut(s: Session) {
    || s.pc.Counting? || s.pc.Checking? || s.pc.Awaiting? || s.pc.Settling? || s.pc.Filling() || s.pc.FollowAdding?
    || s.pc.FreezingOut? || s.pc.Following? || s.pc.ToolAwaiting? || s.pc.ToolKilling? || s.pc.ToolJoining? || s.pc.ToolTakingOut?
    || (s.follows && s.pc.Answering())
  }

  predicate KeepsErr(s: Session) {
    KeepsOut(s) || s.pc.FreezingErr? || s.pc.ToolTakingErr?
  }

  predicate KeptOk(s: Session) {
    s.program.Some? ==>
      && (KeepsOut(s) <==> !s.program.value.out.held.frozen)
      && (KeepsErr(s) <==> !s.program.value.err.held.frozen)
  }

  /** A handler has computed the result it is about to write. */
  predicate Filled(s: Session) {
    && (s.pc.FollowAdding? || s.pc.Freezing() || s.pc.Answering() || s.pc.ToolReleasing?)
    && !s.gone && !s.ask.Refused?
    && (s.second ==> s.pc.Answering())
  }

  function One(b: bool): int {
    if b then 1 else 0
  }

  /** A result says exactly one of: an exit code, a signal, still running, timed out. */
  predicate OneOutcome(r: Result) {
    One(r.exitCode.Some?) + One(r.signal != "") + One(r.stillRunning) + One(r.timedOut) == 1
  }

  /** What a result says is true of the program: its own exit, its own group; only a command runs on, only a tool times out. */
  predicate Tells(r: Result, ask: Ask, program: Option<Program>) {
    if program.None? then r.exitCode == Some(127)
    else
      && (r.exitCode.Some? ==> program.value.exit == Some(Code(r.exitCode.value)))
      && (r.signal != "" ==> program.value.exit == Some(Killed(r.signal)))
      && (r.stillRunning || r.group != 0 ==> ask.Command?)
      && (r.timedOut ==> ask.Tool?)
      && (ask.Command? ==> r.group == program.value.group)
  }

  predicate NoOutcome(r: Result) {
    r.exitCode.None? && r.signal == "" && !r.stillRunning && !r.timedOut
  }

  /** An output is what the buffer's definition shows of the bytes seen. */
  predicate Shows(out: Output, seen: seq<byte>, shape: Shape) {
    out == SnapshotOf(Held(seen, false), shape)
  }

  /** What a session has in hand: nothing said before it is filled, one thing said and both outputs true after. */
  predicate ResultOk(s: Session, limits: Limits)
    requires limits.Valid()
  {
    && (if Filled(s) then OneOutcome(s.result) && Tells(s.result, s.ask, s.program)
        else if s.pc.OfTool() then NoOutcome(s.result.(timedOut := false))
        else s.pc.Done? || s.pc.Freezing() || s.pc.Unfollowing? || NoOutcome(s.result))
    && (s.result.stillRunning ==> !s.result.timedOut && (Filled(s) ==> !s.exitSeen))
    && (s.pc.FollowAdding? || (s.follows && !s.second) ==> s.result.stillRunning)
    && (s.program.None? ==> s.outSeen == [] && s.errSeen == [])
    && 0 <= s.result.waitedMs <= limits.response
    && s.result.group == (if s.ask.Command? && s.program.Some? && !s.pc.Counting? && !s.pc.Checking? then s.program.value.group else 0)
    && (s.program.Some? ==>
      var p, shape := s.program.value, ShapeOf(s, limits);
      && s.outSeen <= p.out.all && s.errSeen <= p.err.all
      && (Filled(s) || s.pc.FillingErr? || s.pc.ToolTakingErr? ==> Shows(s.result.out, s.outSeen, shape))
      && (Filled(s) ==> Shows(s.result.err, s.errSeen, shape)))
  }

  /** A report of a started program: one outcome, and both outputs those of a true beginning of the program's own. */
  predicate ReportOk(line: Line, s: Session, limits: Limits)
    requires limits.Valid()
  {
    && line.Report?
    && OneOutcome(line.result) && Tells(line.result, s.ask, s.program)
    && 0 <= line.result.waitedMs <= limits.response
    && (line.started <==> s.program.Some?)
    && (s.overAtCheck ==> !line.result.stillRunning)
    && (s.program.Some? ==>
      && Shows(line.result.out, line.outSeen, ShapeOf(s, limits))
      && Shows(line.result.err, line.errSeen, ShapeOf(s, limits))
      && line.outSeen <= s.program.value.out.all
      && line.errSeen <= s.program.value.err.all)
  }

  /** How many lines are written: the first on leaving the first phase, the second unless the peer is gone. */
  predicate LinesOk(s: Session) {
    && |s.lines| == (if s.second then (if !s.gone && (s.pc.Freezing() || s.pc.Unfollowing? || s.pc.Done?) then 2 else 1)
                     else if s.pc.Done? then 1 else 0)
    && (s.ask.Refused? ==> forall k :: 0 <= k < |s.lines| ==> s.lines[k] == Refusal)
  }

  predicate ReportsOk(s: Session, limits: Limits)
    requires limits.Valid()
  {
    && (!s.ask.Refused? ==> forall k :: 0 <= k < |s.lines| ==> ReportOk(s.lines[k], s, limits))
    && (s.second ==>
      && |s.lines| > 0 && s.lines[0].Report? && s.lines[0].result.stillRunning
      && s.lines[0].outSeen <= s.outSeen && s.lines[0].errSeen <= s.errSeen
      && (|s.lines| > 1 ==> s.lines[1].Report? && s.lines[0].outSeen <= s.lines[1].outSeen && s.lines[0].errSeen <= s.lines[1].errSeen))
  }

  /** Control: where the handler, its program and its buffers are. */
  predicate ControlOk(s: Session) {
    && PhaseOk(s) && SecondOk(s) && ExitOk(s) && KeptOk(s) && LinesOk(s)
    && (s.program.Some? ==> ProgramOk(s.ask.Tool?, s.program.value))
  }

  predicate SessionOk(s: Session, limits: Limits)
    requires limits.Valid()
  {
    ControlOk(s) && ResultOk(s, limits) && ReportsOk(s, limits)
  }

  lemma NewSessionOk(ask: Ask, direct: bool, limits: Limits)
    requires limits.Valid() && (direct ==> ask.Command? && !ask.follow)
    ensures var s := NewSession(ask, direct, limits);
            SessionOk(s, limits) && !Alive(s) && !s.follows
  {
  }

  /** How a session only ever changes: nothing written, read, frozen, released or followed is taken back. */
  predicate Grows(s: Session, t: Session) {
    && s.lines <= t.lines && t.ask == s.ask && t.direct == s.direct
    && (s.second ==> t.second) && (s.gone ==> t.gone) && (s.exitSeen ==> t.exitSeen)
    && (s.program.Some? && s.program.value.out.held.frozen ==> t.outSeen == s.outSeen)
    && (s.program.Some? && s.program.value.err.held.frozen ==> t.errSeen == s.errSeen)
    && (s.program.Some? ==> t.program.Some? && ProgramGrows(s.program.value, t.program.value))
  }

  predicate ProgramGrows(p: Program, q: Program) {
    && q.group == p.group
    && p.out.all <= q.out.all && p.err.all <= q.err.all
    && (p.out.held.frozen ==> q.out.held == p.out.held)
    && (p.err.held.frozen ==> q.err.held == p.err.held)
    && (p.exit.Some? ==> q.exit == p.exit)
    && (p.counted ==> q.counted) && (p.ended ==> q.ended) && (p.released ==> q.released)
    && p.releases <= q.releases
  }

  /** A step that writes no line leaves what the lines were computed from, or adds to it. */
  predicate WritesNothing(s: Session, t: Session) {
    && t.lines == s.lines && (s.second <==> t.second)
    && (s.lines != [] ==> t.overAtCheck == s.overAtCheck && t.program.Some? == s.program.Some?)
    && s.outSeen <= t.outSeen && s.errSeen <= t.errSeen
  }

  /** Between taking the mutex and giving it back. */
  predicate Critical(s: Session) {
    !s.direct && !s.second && !s.pc.Locking? && !s.pc.Writing? && !s.pc.Done?
  }

  /** The counters and the mutex follow the session: each change to them is the session's own. */
  predicate Accounts(s: Session, e: Event, t: Session) {
    && LiveChange(s, e) == One(Alive(t)) - One(Alive(s))
    && FollowingChange(s, e) == One(t.follows) - One(s.follows)
    && (Critical(t) <==> if e.Lock? then true else if e.Go? && s.pc.Unlocking? then false else Critical(s))
    && (e.Go? && s.pc.Unlocking? ==> Critical(s))
  }

  /** How many steps a handler has before it, at most. */
  function HandlerRank(s: Session): nat {
    if s.second then
      match s.pc
      case Following => 10
      case Settling => 9
      case FillingOut => 8
      case FillingErr => 7
      case LoadingRunning => 6
      case LoadingFollowing => 5
      case Writing => 4
      case FreezingOut => 3
      case FreezingErr => 2
      case Unfollowing => 1
      case _ => 0
    else
      match s.pc
      case Locking => 26
      case Starting => 25
      case Counting => 24
      case Checking => 23
      case Awaiting => 22
      case Settling => 21
      case ToolAwaiting => 21
      case FillingOut => 20
      case ToolKilling => 20
      case FillingErr => 19
      case ToolJoining => 19
      case FollowAdding => 18
      case ToolTakingOut => 18
      case FreezingOut => 17
      case ToolTakingErr => 17
      case FreezingErr => 16
      case LoadingRunning => 15
      case LoadingFollowing => 14
      case ToolReleasing => 14
      case Unlocking => 13
      case Writing => 12
      case _ => 0
  }

  /** What is left to happen to a program once its handler is done. */
  function LeftoverOf(tool: bool, p: Program): nat {
    One(p.exit.None?) + if tool then 0 else One(!p.out.drained) + One(!p.err.drained) + One(!p.ended) + One(!p.reaped)
  }

  function Leftover(s: Session): nat {
    if s.program.None? then 0 else LeftoverOf(s.ask.Tool?, s.program.value)
  }

  predicate Handling(e: Event) {
    e.Lock? || e.StartFail? || e.Start? || e.Go? || e.TakeExit? || e.TakeTimer? || e.TakeEnded? || e.TakeGone?
  }

  /** A handler's step brings the handler nearer its end; a program's brings the program nearer its own, or reads. */
  predicate Advances(s: Session, e: Event, t: Session) {
    if Handling(e) then HandlerRank(t) < HandlerRank(s) && (e.Start? || Leftover(t) == Leftover(s))
    else HandlerRank(t) == HandlerRank(s) && (e.Read? || Leftover(t) < Leftover(s))
  }

  /** What a step must do for SessionOk, apart from the reports already written. */
  predicate Keeps(s: Session, e: Event, t: Session, limits: Limits)
    requires limits.Valid()
  {
    ControlOk(t) && ResultOk(t, limits) && Grows(s, t) && WritesNothing(s, t) && Accounts(s, e, t) && Advances(s, e, t)
  }

  lemma CountedKeeps(s: Session, limits: Limits)
    requires limits.Valid() && ControlOk(s) && ResultOk(s, limits) && s.pc.Counting?
    ensures Keeps(s, Go, Counted(s), limits)
  {
    hide SnapshotOf;
  }

  lemma CheckedKeeps(s: Session, limits: Limits)
    requires limits.Valid() && ControlOk(s) && ResultOk(s, limits) && s.pc.Checking?
    ensures Keeps(s, Go, Checked(s, limits), limits)
  {
    hide SnapshotOf;
  }

  lemma FilledOutKeeps(s: Session, limits: Limits)
    requires limits.Valid() && ControlOk(s) && ResultOk(s, limits) && s.pc.FillingOut?
    ensures Keeps(s, Go, FilledOut(s, limits), limits)
  {
    hide SnapshotOf;
  }

  lemma FilledErrKeeps(s: Session, limits: Limits)
    requires limits.Valid() && ControlOk(s) && ResultOk(s, limits) && s.pc.FillingErr?
    ensures Keeps(s, Go, FilledErr(s, limits), limits)
  {
    hide SnapshotOf;
  }

  lemma FollowAddedKeeps(s: Session, limits: Limits)
    requires limits.Valid() && ControlOk(s) && ResultOk(s, limits) && s.pc.FollowAdding?
    ensures Keeps(s, Go, FollowAdded(s), limits)
  {
    hide SnapshotOf;
  }

  lemma FrozenOutKeepsControl(s: Session)
    requires ControlOk(s) && s.pc.FreezingOut?
    ensures ControlOk(FrozenOut(s))
  {
  }

  lemma FrozenOutKeepsResult(s: Session, limits: Limits)
    requires limits.Valid() && PhaseOk(s) && SecondOk(s) && ResultOk(s, limits) && s.pc.FreezingOut?
    ensures ResultOk(FrozenOut(s), limits)
  {
    hide SnapshotOf;
  }

  lemma FrozenOutGrows(s: Session)
    requires PhaseOk(s) && s.pc.FreezingOut?
    ensures Grows(s, FrozenOut(s)) && WritesNothing(s, FrozenOut(s)) && Accounts(s, Go, FrozenOut(s)) && Advances(s, Go, FrozenOut(s))
  {
  }

  lemma FrozenOutKeeps(s: Session, limits: Limits)
    requires limits.Valid() && ControlOk(s) && ResultOk(s, limits) && s.pc.FreezingOut?
    ensures Keeps(s, Go, FrozenOut(s), limits)
  {
    hide ResultOk, KeptOk, LinesOk, ExitOk, SecondOk, Grows, WritesNothing, Accounts, Advances, FrozenOut;
    FrozenOutKeepsControl(s);
    FrozenOutKeepsResult(s, limits);
    FrozenOutGrows(s);
  }

  lemma FrozenErrKeepsControl(s: Session)
    requires ControlOk(s) && s.pc.FreezingErr?
    ensures ControlOk(FrozenErr(s))
  {
  }

  lemma FrozenErrKeepsResult(s: Session, limits: Limits)
    requires limits.Valid() && PhaseOk(s) && SecondOk(s) && ResultOk(s, limits) && s.pc.FreezingErr?
    ensures ResultOk(FrozenErr(s), limits)
  {
    hide SnapshotOf;
  }

  lemma FrozenErrGrows(s: Session)
    requires PhaseOk(s) && s.pc.FreezingErr?
    ensures Grows(s, FrozenErr(s)) && WritesNothing(s, FrozenErr(s)) && Accounts(s, Go, FrozenErr(s)) && Advances(s, Go, FrozenErr(s))
  {
  }

  lemma FrozenErrKeeps(s: Session, limits: Limits)
    requires limits.Valid() && ControlOk(s) && ResultOk(s, limits) && s.pc.FreezingErr?
    ensures Keeps(s, Go, FrozenErr(s), limits)
  {
    hide ResultOk, KeptOk, LinesOk, ExitOk, SecondOk, Grows, WritesNothing, Accounts, Advances, FrozenErr;
    FrozenErrKeepsControl(s);
    FrozenErrKeepsResult(s, limits);
    FrozenErrGrows(s);
  }

  lemma RunningLoadedKeepsControl(s: Session, live: int)
    requires ControlOk(s) && s.pc.LoadingRunning?
    ensures ControlOk(RunningLoaded(s, live))
  {
  }

  lemma RunningLoadedKeepsResult(s: Session, live: int, limits: Limits)
    requires limits.Valid() && PhaseOk(s) && SecondOk(s) && ResultOk(s, limits) && s.pc.LoadingRunning?
    ensures ResultOk(RunningLoaded(s, live), limits)
  {
    hide SnapshotOf;
  }

  lemma RunningLoadedGrows(s: Session, live: int)
    requires PhaseOk(s) && SecondOk(s) && LinesOk(s) && s.pc.LoadingRunning?
    ensures var t := RunningLoaded(s, live);
            Grows(s, t) && WritesNothing(s, t) && Accounts(s, Go, t) && Advances(s, Go, t)
  {
  }

  lemma RunningLoadedKeeps(s: Session, live: int, limits: Limits)
    requires limits.Valid() && ControlOk(s) && ResultOk(s, limits) && s.pc.LoadingRunning?
    ensures Keeps(s, Go, RunningLoaded(s, live), limits)
  {
    hide ResultOk, KeptOk, LinesOk, ExitOk, SecondOk, Grows, WritesNothing, Accounts, Advances, RunningLoaded;
    RunningLoadedKeepsControl(s, live);
    RunningLoadedKeepsResult(s, live, limits);
    RunningLoadedGrows(s, live);
  }

  lemma FollowingLoadedKeepsControl(s: Session, following: int)
    requires ControlOk(s) && s.pc.LoadingFollowing?
    ensures ControlOk(FollowingLoaded(s, following))
  {
  }

  lemma FollowingLoadedKeepsResult(s: Session, following: int, limits: Limits)
    requires limits.Valid() && PhaseOk(s) && SecondOk(s) && ResultOk(s, limits) && s.pc.LoadingFollowing?
    ensures ResultOk(FollowingLoaded(s, following), limits)
  {
    hide SnapshotOf;
  }

  lemma FollowingLoadedGrows(s: Session, following: int)
    requires PhaseOk(s) && SecondOk(s) && LinesOk(s) && s.pc.LoadingFollowing?
    ensures var t := FollowingLoaded(s, following);
            Grows(s, t) && WritesNothing(s, t) && Accounts(s, Go, t) && Advances(s, Go, t)
  {
  }

  lemma FollowingLoadedKeeps(s: Session, following: int, limits: Limits)
    requires limits.Valid() && ControlOk(s) && ResultOk(s, limits) && s.pc.LoadingFollowing?
    ensures Keeps(s, Go, FollowingLoaded(s, following), limits)
  {
    hide ResultOk, KeptOk, LinesOk, ExitOk, SecondOk, Grows, WritesNothing, Accounts, Advances, FollowingLoaded;
    FollowingLoadedKeepsControl(s, following);
    FollowingLoadedKeepsResult(s, following, limits);
    FollowingLoadedGrows(s, following);
  }

  lemma UnlockedKeepsControl(s: Session)
    requires ControlOk(s) && s.pc.Unlocking?
    ensures ControlOk(Unlocked(s))
  {
  }

  lemma UnlockedKeepsResult(s: Session, limits: Limits)
    requires limits.Valid() && PhaseOk(s) && SecondOk(s) && ExitOk(s) && ResultOk(s, limits) && s.pc.Unlocking?
    ensures ResultOk(Unlocked(s), limits)
  {
    hide SnapshotOf;
  }

  lemma UnlockedGrows(s: Session)
    requires PhaseOk(s) && SecondOk(s) && LinesOk(s) && s.pc.Unlocking?
    ensures var t := Unlocked(s);
            Grows(s, t) && WritesNothing(s, t) && Accounts(s, Go, t) && Advances(s, Go, t)
  {
  }

  lemma UnlockedKeeps(s: Session, limits: Limits)
    requires limits.Valid() && ControlOk(s) && ResultOk(s, limits) && s.pc.Unlocking?
    ensures Keeps(s, Go, Unlocked(s), limits)
  {
    hide ResultOk, KeptOk, LinesOk, ExitOk, SecondOk, Grows, WritesNothing, Accounts, Advances, Unlocked;
    UnlockedKeepsControl(s);
    UnlockedKeepsResult(s, limits);
    UnlockedGrows(s);
  }

  lemma UnfollowedKeeps(s: Session, limits: Limits)
    requires limits.Valid() && ControlOk(s) && ResultOk(s, limits) && s.pc.Unfollowing?
    ensures Keeps(s, Go, Unfollowed(s), limits)
  {
    hide SnapshotOf;
  }

  lemma GroupKilledKeeps(s: Session, limits: Limits)
    requires limits.Valid() && ControlOk(s) && ResultOk(s, limits) && s.pc.ToolKilling?
    ensures Keeps(s, Go, GroupKilled(s), limits)
  {
    hide SnapshotOf;
  }

  lemma OutTakenKeeps(s: Session, limits: Limits)
    requires limits.Valid() && ControlOk(s) && ResultOk(s, limits) && s.pc.ToolTakingOut?
    ensures Keeps(s, Go, OutTaken(s, limits), limits)
  {
    hide SnapshotOf;
  }

  lemma ErrTakenKeeps(s: Session, limits: Limits)
    requires limits.Valid() && ControlOk(s) && ResultOk(s, limits) && s.pc.ToolTakingErr?
    ensures Keeps(s, Go, ErrTaken(s, limits), limits)
  {
    hide SnapshotOf;
  }

  lemma ToolReleasedKeeps(s: Session, limits: Limits)
    requires limits.Valid() && ControlOk(s) && ResultOk(s, limits) && s.pc.ToolReleasing?
    ensures Keeps(s, Go, ToolReleased(s), limits)
  {
    hide SnapshotOf;
  }

  lemma LockedKeeps(s: Session, limits: Limits)
    requires limits.Valid() && ControlOk(s) && ResultOk(s, limits) && s.pc.Locking?
    ensures Keeps(s, Lock, Locked(s), limits)
  {
    hide SnapshotOf;
  }

  lemma NotStartedKeeps(s: Session, reason: Output, limits: Limits)
    requires limits.Valid() && ControlOk(s) && ResultOk(s, limits) && s.pc.Starting?
    ensures Keeps(s, StartFail(reason), NotStarted(s, reason), limits)
  {
    hide SnapshotOf;
  }

  lemma StartedKeeps(s: Session, group: int, limits: Limits)
    requires limits.Valid() && ControlOk(s) && ResultOk(s, limits) && s.pc.Starting?
    ensures Keeps(s, Start(group), Started(s, group), limits)
  {
    hide SnapshotOf;
  }

  lemma ExitTakenKeeps(s: Session, limits: Limits)
    requires limits.Valid() && ControlOk(s) && ResultOk(s, limits) && (s.pc.Awaiting? || s.pc.Following?) && s.program.value.exit.Some?
    ensures Keeps(s, TakeExit, ExitTaken(s), limits)
  {
    hide SnapshotOf;
  }

  lemma WaitOverKeepsControl(s: Session)
    requires ControlOk(s) && (s.pc.Awaiting? || s.pc.Following?)
    ensures ControlOk(WaitOver(s))
  {
  }

  lemma WaitOverKeepsResult(s: Session, limits: Limits)
    requires limits.Valid() && PhaseOk(s) && SecondOk(s) && ExitOk(s) && ResultOk(s, limits) && (s.pc.Awaiting? || s.pc.Following?)
    ensures ResultOk(WaitOver(s), limits)
  {
    hide SnapshotOf;
  }

  lemma WaitOverGrows(s: Session)
    requires PhaseOk(s) && SecondOk(s) && LinesOk(s) && (s.pc.Awaiting? || s.pc.Following?)
    ensures var t := WaitOver(s);
            Grows(s, t) && WritesNothing(s, t) && Accounts(s, TakeTimer, t) && Advances(s, TakeTimer, t)
  {
  }

  lemma WaitOverKeeps(s: Session, limits: Limits)
    requires limits.Valid() && ControlOk(s) && ResultOk(s, limits) && (s.pc.Awaiting? || s.pc.Following?)
    ensures Keeps(s, TakeTimer, WaitOver(s), limits)
  {
    hide ResultOk, KeptOk, LinesOk, ExitOk, SecondOk, Grows, WritesNothing, Accounts, Advances, WaitOver;
    WaitOverKeepsControl(s);
    WaitOverKeepsResult(s, limits);
    WaitOverGrows(s);
  }

  lemma FlushOverKeeps(s: Session, limits: Limits)
    requires limits.Valid() && ControlOk(s) && ResultOk(s, limits) && s.pc.Settling?
    ensures Keeps(s, TakeTimer, WaitOver(s), limits)
  {
    hide SnapshotOf;
  }

  lemma ToolStopsKeep(s: Session, limits: Limits)
    requires limits.Valid() && ControlOk(s) && ResultOk(s, limits) && s.pc.ToolAwaiting?
    ensures Keeps(s, TakeExit, ToolEnded(s), limits) && Keeps(s, TakeTimer, ToolTimedOut(s), limits)
  {
    hide SnapshotOf;
  }

  lemma ToolJoinedKeeps(s: Session, limits: Limits)
    requires limits.Valid() && ControlOk(s) && ResultOk(s, limits) && s.pc.ToolJoining? && s.program.value.exit.Some?
    ensures Keeps(s, TakeExit, ToolJoined(s), limits)
  {
    hide SnapshotOf;
  }

  lemma EndedTakenKeeps(s: Session, limits: Limits)
    requires limits.Valid() && ControlOk(s) && ResultOk(s, limits) && Enabled(s, TakeEnded, true)
    ensures Keeps(s, TakeEnded, EndedTaken(s), limits)
  {
    hide SnapshotOf;
  }

  lemma GoneTakenKeeps(s: Session, limits: Limits)
    requires limits.Valid() && ControlOk(s) && ResultOk(s, limits) && s.pc.Following?
    ensures Keeps(s, TakeGone, GoneTaken(s), limits)
  {
    hide SnapshotOf;
  }

  /** A step outside the handler: what the handler relies on of its program stays as it is, or grows. */
  predicate Undisturbed(tool: bool, p: Program, q: Program) {
    && ProgramGrows(p, q) && q.counted == p.counted
    && q.out.held.frozen == p.out.held.frozen && q.err.held.frozen == p.err.held.frozen
    && (tool ==> q.released == p.released)
  }

  lemma {:induction false} OutsideOk(ask: Ask, p: Program, e: Event)
    requires EnabledOutside(ask, p, e) && ProgramOk(ask.Tool?, p)
    ensures ProgramOk(ask.Tool?, Outside(p, e)) && Undisturbed(ask.Tool?, p, Outside(p, e))
    ensures !Handling(e) && (e.Read? || LeftoverOf(ask.Tool?, Outside(p, e)) < LeftoverOf(ask.Tool?, p))
    ensures One(Outside(p, e).released) == One(p.released) + One(e.Reap? && !p.released)
    ensures e.Reap? && !p.released ==> p.counted
  {
  }

  lemma UndisturbedKeepsControl(s: Session, q: Program)
    requires ControlOk(s) && s.program.Some? && ProgramOk(s.ask.Tool?, q) && Undisturbed(s.ask.Tool?, s.program.value, q)
    ensures ControlOk(s.(program := Some(q)))
  {
  }

  lemma UndisturbedKeepsResult(s: Session, q: Program, limits: Limits)
    requires limits.Valid() && ResultOk(s, limits) && s.program.Some? && Undisturbed(s.ask.Tool?, s.program.value, q)
    ensures ResultOk(s.(program := Some(q)), limits)
  {
    hide SnapshotOf, OneOutcome;
  }

  lemma UndisturbedGrows(s: Session, e: Event, q: Program)
    requires s.program.Some? && !Handling(e) && Undisturbed(s.ask.Tool?, s.program.value, q)
    requires e.Read? || LeftoverOf(s.ask.Tool?, q) < LeftoverOf(s.ask.Tool?, s.program.value)
    requires One(q.released) == One(s.program.value.released) - LiveChange(s, e)
    requires ControlOk(s) && ProgramOk(s.ask.Tool?, q)
    ensures var t := s.(program := Some(q));
            Grows(s, t) && WritesNothing(s, t) && Accounts(s, e, t) && Advances(s, e, t)
  {
    hide LeftoverOf, KeptOk, LinesOk;
  }

  lemma UndisturbedKeeps(s: Session, e: Event, q: Program, limits: Limits)
    requires limits.Valid() && ControlOk(s) && ResultOk(s, limits) && s.program.Some? && !Handling(e)
    requires e.Read? || LeftoverOf(s.ask.Tool?, q) < LeftoverOf(s.ask.Tool?, s.program.value)
    requires ProgramOk(s.ask.Tool?, q) && Undisturbed(s.ask.Tool?, s.program.value, q)
    requires One(q.released) == One(s.program.value.released) - LiveChange(s, e)
    ensures Keeps(s, e, s.(program := Some(q)), limits)
  {
    hide ControlOk, ResultOk, LeftoverOf, Grows, WritesNothing, Accounts, Advances, ProgramOk, Undisturbed;
    UndisturbedKeepsControl(s, q);
    UndisturbedKeepsResult(s, q, limits);
    UndisturbedGrows(s, e, q);
  }

  lemma {:induction false} GoKeeps(s: Session, limits: Limits, live: int, following: int)
    requires limits.Valid() && ControlOk(s) && ResultOk(s, limits) && Enabled(s, Go, false) && !s.pc.Writing?
    ensures Keeps(s, Go, AfterGo(s, limits, live, following), limits)
  {
    hide Keeps, ControlOk, ResultOk, Counted, Checked, FilledOut, FilledErr, FollowAdded, FrozenOut, FrozenErr, RunningLoaded,
      FollowingLoaded, Unlocked, Written, Unfollowed, GroupKilled, OutTaken, ErrTaken, ToolReleased;
    match s.pc
    case Counting => CountedKeeps(s, limits);
    case Checking => CheckedKeeps(s, limits);
    case FillingOut => FilledOutKeeps(s, limits);
    case FillingErr => FilledErrKeeps(s, limits);
    case FollowAdding => FollowAddedKeeps(s, limits);
    case FreezingOut => FrozenOutKeeps(s, limits);
    case FreezingErr => FrozenErrKeeps(s, limits);
    case LoadingRunning => RunningLoadedKeeps(s, live, limits);
    case LoadingFollowing => FollowingLoadedKeeps(s, following, limits);
    case Unlocking => UnlockedKeeps(s, limits);
    case Unfollowing => UnfollowedKeeps(s, limits);
    case ToolKilling => GroupKilledKeeps(s, limits);
    case ToolTakingOut => OutTakenKeeps(s, limits);
    case ToolTakingErr => ErrTakenKeeps(s, limits);
    case ToolReleasing => ToolReleasedKeeps(s, limits);
  }

  lemma {:induction false} WaitingKeeps(s: Session, e: Event, limits: Limits, live: int, following: int)
    requires limits.Valid() && ControlOk(s) && ResultOk(s, limits) && Enabled(s, e, true)
    requires e.TakeExit? || e.TakeTimer?
    ensures Keeps(s, e, After(s, e, limits, live, following), limits)
  {
    hide Keeps, ControlOk, ResultOk, ExitTaken, WaitOver, ToolEnded, ToolTimedOut, ToolJoined;
    if s.pc.ToolAwaiting? {
      ToolStopsKeep(s, limits);
    } else if s.pc.ToolJoining? {
      ToolJoinedKeeps(s, limits);
    } else if s.pc.Settling? {
      FlushOverKeeps(s, limits);
    } else if e.TakeExit? {
      ExitTakenKeeps(s, limits);
    } else {
      WaitOverKeeps(s, limits);
    }
  }

  lemma OutsideKeeps(s: Session, e: Event, limits: Limits)
    requires limits.Valid() && ControlOk(s) && ResultOk(s, limits) && s.program.Some? && EnabledOutside(s.ask, s.program.value, e)
    ensures Keeps(s, e, s.(program := Some(Outside(s.program.value, e))), limits)
  {
    var p := s.program.value;
    assert ProgramOk(s.ask.Tool?, p);
    hide ControlOk, ResultOk, Keeps, ProgramOk, LeftoverOf, Undisturbed;
    OutsideOk(s.ask, p, e);
    hide Outside, EnabledOutside;
    UndisturbedKeeps(s, e, Outside(p, e), limits);
  }

  /** So does every step but the writing of a line: whatever a handler does or waits for, and whatever its program does. */
  lemma {:induction false} EventKeeps(s: Session, e: Event, limits: Limits, live: int, following: int)
    requires limits.Valid() && ControlOk(s) && ResultOk(s, limits) && Enabled(s, e, true) && !(e.Go? && s.pc.Writing?)
    ensures Keeps(s, e, After(s, e, limits, live, following), limits)
  {
    hide Keeps, ControlOk, ResultOk, AfterGo, Outside, EnabledOutside, Locked, NotStarted, Started, EndedTaken, GoneTaken, ExitTaken,
      WaitOver, ToolEnded, ToolTimedOut, ToolJoined;
    match e
    case Go => GoKeeps(s, limits, live, following);
    case Lock => LockedKeeps(s, limits);
    case StartFail(reason) => NotStartedKeeps(s, reason, limits);
    case Start(group) => StartedKeeps(s, group, limits);
    case TakeExit | TakeTimer => WaitingKeeps(s, e, limits, live, following);
    case TakeEnded => EndedTakenKeeps(s, limits);
    case TakeGone => GoneTakenKeeps(s, limits);
    case _ => OutsideKeeps(s, e, limits);
  }

  /** Reports already written stay true while the program and what was seen of it only grow. */
  lemma ReportsStay(s: Session, t: Session, limits: Limits)
    requires limits.Valid() && ReportsOk(s, limits) && Grows(s, t) && WritesNothing(s, t)
    ensures ReportsOk(t, limits)
  {
    hide SnapshotOf, OneOutcome;
  }

  lemma WrittenKeepsControl(s: Session)
    requires ControlOk(s) && s.pc.Writing?
    ensures ControlOk(Written(s)) && Accounts(s, Go, Written(s)) && Advances(s, Go, Written(s))
  {
  }

  lemma WrittenKeepsResult(s: Session, limits: Limits)
    requires limits.Valid() && ControlOk(s) && ResultOk(s, limits) && s.pc.Writing?
    ensures ResultOk(Written(s), limits) && Grows(s, Written(s))
  {
    hide SnapshotOf, OneOutcome;
  }

  /** The line written is a true report, and a second one follows a first that said still running. */
  lemma {:induction false} WrittenKeepsReports(s: Session, limits: Limits)
    requires limits.Valid() && SessionOk(s, limits) && s.pc.Writing?
    ensures ReportsOk(Written(s), limits)
  {
    hide SnapshotOf, OneOutcome;
  }

  /** Every step of a session keeps what holds of it, and takes nothing back. */
  lemma {:induction false} StepKeeps(s: Session, e: Event, limits: Limits, live: int, following: int)
    requires limits.Valid() && SessionOk(s, limits) && Enabled(s, e, true)
    ensures var t := After(s, e, limits, live, following);
            SessionOk(t, limits) && Grows(s, t) && Accounts(s, e, t) && Advances(s, e, t)
  {
    hide ControlOk, ResultOk, ReportsOk, Grows, WritesNothing, Accounts, Advances, Enabled, Written;
    if e.Go? && s.pc.Writing? {
      WrittenKeepsControl(s);
      WrittenKeepsResult(s, limits);
      WrittenKeepsReports(s, limits);
    } else {
      EventKeeps(s, e, limits, live, following);
      ReportsStay(s, After(s, e, limits, live, following), limits);
    }
  }
}
