/**
 The runner's server as a step relation. Each connection has a handler goroutine; a handler starts at most
 one program, which the goroutines that drain its pipes, wait for it and reap it go on serving after the
 handler has answered. One `Session` is a handler with its program. A step is one goroutine's next access to
 what it shares: the mutex, an atomic counter, a buffer, a channel. Any enabled step of any session may come
 next, and where two cases of a `select` are ready either may be taken.
 */
module Runner {
  import opened Common
  import opened Utf8
  import opened Capped

  /** The server's limits, in milliseconds and bytes; `serve` refuses any that is not positive. */
  datatype Limits = Limits(response: int, maxOutput: int) {
    predicate Valid() {
      response > 0 && maxOutput > 0
    }
  }

  /** What `handle` makes of a request line. */
  datatype Ask =
    | Refused
    | Command(follow: bool, wait: Option<int>)
    | Tool(timeout: int)

  datatype Exit = Code(code: int) | Killed(signal: string)

  /** One pipe: all that was read from it, the buffer it goes into, and whether its end was reached. */
  datatype Pipe = Pipe(all: seq<byte>, held: Held, drained: bool) {
    function Read(p: seq<byte>): Pipe {
      Pipe(all + p, held.Write(p), drained)
    }
    function Freeze(): Pipe {
      this.(held := held.Freeze())
    }
    /** What the buffer kept is the beginning of what was read, and all of it until it is frozen. */
    predicate Sound() {
      held.written <= all && (!held.frozen ==> held.written == all)
    }
  }

  /**
   A program under way. `ended` is the closed channel of both pipes' ends; `counted` says it was added to
   `live`, `released` that it was taken off again, and `releases` how often.
   */
  datatype Program = Program(group: int, out: Pipe, err: Pipe, counted: bool, exit: Option<Exit>, ended: bool,
                             reaped: bool, released: bool, releases: nat) {
    /** liveCommand.release, behind its sync.Once. */
    function Release(): Program {
      if released then this else this.(released := true, releases := releases + 1)
    }
  }

  const EMPTY_PIPE := Pipe([], Held([], false), false)

  function NewProgram(group: int): Program {
    Program(group, EMPTY_PIPE, EMPTY_PIPE, false, None, false, false, false, 0)
  }

  datatype Result = Result(exitCode: Option<int>, signal: string, out: Output, err: Output, stillRunning: bool, timedOut: bool,
                           limitMs: int, waitedMs: int, group: int, running: int, following: int)

  const NOTHING := Output([], [], 0)

  function NewResult(limitMs: int): Result {
    Result(None, "", NOTHING, NOTHING, false, false, limitMs, 0, 0, 0, 0)
  }

  /** A line written on a connection; a report is kept with the bytes its two outputs were computed from. */
  datatype Line =
    | Refusal
    | Report(result: Result, started: bool, outSeen: seq<byte>, errSeen: seq<byte>)

  /** Where a handler is, named by the next thing it does. */
  datatype Pc =
    | Locking | Starting | Counting
    | Checking | Awaiting | Settling | FillingOut | FillingErr
    | FollowAdding | FreezingOut | FreezingErr
    | LoadingRunning | LoadingFollowing | Unlocking | Writing
    | Following | Unfollowing | Done
    | ToolAwaiting | ToolKilling | ToolJoining | ToolTakingOut | ToolTakingErr | ToolReleasing
  {
    /** Past the work: the counters are loaded, the mutex given back, the line written. */
    predicate Answering() {
      LoadingRunning? || LoadingFollowing? || Unlocking? || Writing?
    }
    predicate Freezing() {
      FreezingOut? || FreezingErr?
    }
    predicate Filling() {
      FillingOut? || FillingErr?
    }
    predicate OfTool() {
      ToolAwaiting? || ToolKilling? || ToolJoining? || ToolTakingOut? || ToolTakingErr? || ToolReleasing?
    }
    predicate OfCommand() {
      Checking? || Awaiting? || Settling? || Filling() || FollowAdding? || Freezing() || Following? || Unfollowing?
    }
    /** The handler has one thing to do and waits for nothing. */
    predicate Determined() {
      || Counting? || Checking? || Filling() || FollowAdding? || Freezing() || Answering() || Unfollowing?
      || ToolKilling? || ToolTakingOut? || ToolTakingErr? || ToolReleasing?
    }
  }

  /**
   A handler with its program. `direct` is a call of RunFor, which takes no lock and writes no line: what it
   returns is its one line here. `second` says the first line is written and the command is followed, `follows`
   that it is counted in `following`, `exitSeen` that the branch of the command's exit was taken, `overAtCheck`
   that the command was over before the handler began to wait, `gone` that the peer's branch was taken.
   */
  datatype Session = Session(ask: Ask, direct: bool, pc: Pc, program: Option<Program>, result: Result,
                             outSeen: seq<byte>, errSeen: seq<byte>, lines: seq<Line>,
                             second: bool, follows: bool, exitSeen: bool, overAtCheck: bool, gone: bool, killed: bool)

  function NewSession(ask: Ask, direct: bool, limits: Limits): Session {
    Session(ask, direct, if ask.Refused? then Writing else if direct then Starting else Locking, None,
            NewResult(if ask.Tool? then ToolTimeout(ask.timeout, limits) else limits.response),
            [], [], [], false, false, false, false, false, false)
  }

  datatype Event =
    // the handler
    | Lock
    | StartFail(reason: Output)
    | Start(group: int)
    | Go
    | TakeExit
    | TakeTimer
    | TakeEnded
    | TakeGone
    // the program, its drains, its waiter and its reaper
    | Read(toErr: bool, bytes: seq<byte>)
    | DrainEnd(ofErr: bool)
    | CloseEnded
    | ShellExit(exit: Exit)
    | Reap

  /** The wait of an answer: the request's own, kept within 0 and the response limit. */
  function Wait(wait: Option<int>, limits: Limits): int {
    if wait.None? then limits.response
    else
      var least := if wait.value < limits.response then wait.value else limits.response;
      if 0 > least then 0 else least
  }

  /** A tool's timeout: its own when it is positive and within the response limit. */
  function ToolTimeout(timeout: int, limits: Limits): int {
    if timeout <= 0 || timeout > limits.response then limits.response else timeout
  }

  function ShapeOf(s: Session, limits: Limits): Shape
    requires limits.Valid()
  {
    Shape(limits.maxOutput, s.ask.Tool?)
  }

  /** Whether a session can make the step, given whether the mutex is free. */
  predicate Enabled(s: Session, e: Event, free: bool) {
    match e
    case Lock => s.pc.Locking? && free
    case StartFail(_) => s.pc.Starting?
    case Start(_) => s.pc.Starting?
    case Go => s.pc.Determined() && (s.pc.Answering() || s.program.Some?)
    case TakeExit =>
      && (s.pc.Awaiting? || s.pc.Following? || s.pc.ToolAwaiting? || s.pc.ToolJoining?)
      && s.program.Some? && s.program.value.exit.Some?
    case TakeTimer => s.pc.Awaiting? || s.pc.Following? || s.pc.Settling? || s.pc.ToolAwaiting?
    case TakeEnded => s.pc.Settling? && s.program.Some? && s.program.value.ended
    case TakeGone => s.pc.Following?
    case _ => s.program.Some? && EnabledOutside(s.ask, s.program.value, e)
  }

  /**
   The steps outside the handler. A command's pipes outlive its shell; a tool's are read to their end, or given
   up, before the wait for it is over. Only what was counted is waited for.
   */
  predicate EnabledOutside(ask: Ask, p: Program, e: Event) {
    match e
    case Read(toErr, _) => !(if toErr then p.err else p.out).drained && (ask.Tool? ==> p.exit.None?)
    case DrainEnd(ofErr) => ask.Command? && !(if ofErr then p.err else p.out).drained
    case CloseEnded => ask.Command? && p.counted && p.out.drained && p.err.drained && !p.ended
    case ShellExit(exit) => p.counted && p.exit.None? && (exit.Killed? ==> exit.signal != "")
    case Reap => ask.Command? && p.exit.Some? && p.ended && !p.reaped
    case _ => false
  }

  function Outside(p: Program, e: Event): Program {
    match e
    case Read(toErr, bytes) => if toErr then p.(err := p.err.Read(bytes)) else p.(out := p.out.Read(bytes))
    case DrainEnd(ofErr) => if ofErr then p.(err := p.err.(drained := true)) else p.(out := p.out.(drained := true))
    case CloseEnded => p.(ended := true)
    case ShellExit(exit) => p.(exit := Some(exit))
    case Reap => p.Release().(reaped := true)
    case _ => p
  }

  /** The status part of a result: exit code or signal of a program that was seen to end. */
  function Status(result: Result, exit: Option<Exit>): Result {
    if exit.None? then result
    else if exit.value.Killed? then result.(signal := exit.value.signal)
    else result.(exitCode := Some(exit.value.code))
  }

  function Counted(s: Session): Session
    requires s.program.Some?
  {
    s.(pc := if s.ask.Tool? then ToolAwaiting else Checking, program := Some(s.program.value.(counted := true)))
  }

  /** answer begins: a command that is over already is settled, whatever the wait. */
  function Checked(s: Session, limits: Limits): Session
    requires s.program.Some?
  {
    var wait := Wait(if s.ask.Command? then s.ask.wait else None, limits);
    var over := s.program.value.exit.Some?;
    s.(pc := if over then Settling else Awaiting, exitSeen := over, overAtCheck := over,
       result := NewResult(limits.response).(waitedMs := wait, group := s.program.value.group))
  }

  function FilledOut(s: Session, limits: Limits): Session
    requires s.program.Some? && limits.Valid()
  {
    var out := s.program.value.out;
    s.(pc := FillingErr, result := s.result.(out := SnapshotOf(out.held, ShapeOf(s, limits))), outSeen := out.all)
  }

  function FilledErr(s: Session, limits: Limits): Session
    requires s.program.Some? && limits.Valid()
  {
    var err := s.program.value.err;
    var filled := s.result.(err := SnapshotOf(err.held, ShapeOf(s, limits)));
    s.(pc := if s.second then LoadingRunning
             else if s.ask.Command? && s.ask.follow && !s.exitSeen then FollowAdding
             else FreezingOut,
       result := if s.exitSeen then Status(filled, s.program.value.exit) else filled.(stillRunning := true),
       errSeen := err.all)
  }

  function FollowAdded(s: Session): Session {
    s.(pc := LoadingRunning, follows := true)
  }

  function FrozenOut(s: Session): Session
    requires s.program.Some?
  {
    s.(pc := FreezingErr, program := Some(s.program.value.(out := s.program.value.out.Freeze())))
  }

  function FrozenErr(s: Session): Session
    requires s.program.Some?
  {
    s.(pc := if s.second then Unfollowing else LoadingRunning, program := Some(s.program.value.(err := s.program.value.err.Freeze())))
  }

  /** A tool loads `live` while it is itself counted, and takes itself off; it does not load `following`. */
  function RunningLoaded(s: Session, live: int): Session {
    var tool := s.ask.Tool? && s.program.Some?;
    s.(pc := if tool then ToolReleasing else LoadingFollowing, result := s.result.(running := if tool then live - 1 else live))
  }

  function FollowingLoaded(s: Session, following: int): Session {
    s.(pc := if s.second || s.direct then Writing else Unlocking, result := s.result.(following := following))
  }

  function Unlocked(s: Session): Session {
    s.(pc := Writing)
  }

  /** The line is written; a followed command's handler goes on to follow, with a new result. */
  function Written(s: Session): Session {
    var line := if s.ask.Refused? then Refusal else Report(s.result, s.program.Some?, s.outSeen, s.errSeen);
    var follow := !s.second && s.follows && s.program.Some?;
    s.(lines := s.lines + [line],
       pc := if s.second then FreezingOut else if follow then Following else Done,
       second := s.second || follow,
       result := if follow then NewResult(s.result.limitMs).(group := s.program.value.group) else s.result)
  }

  function Unfollowed(s: Session): Session {
    s.(pc := Done, follows := false)
  }

  function GroupKilled(s: Session): Session {
    s.(pc := ToolJoining, killed := true)
  }

  function OutTaken(s: Session, limits: Limits): Session
    requires s.program.Some? && limits.Valid()
  {
    var out := s.program.value.out;
    s.(pc := ToolTakingErr, program := Some(s.program.value.(out := out.Freeze())), outSeen := out.all,
       result := s.result.(out := SnapshotOf(out.held, ShapeOf(s, limits))))
  }

  function ErrTaken(s: Session, limits: Limits): Session
    requires s.program.Some? && limits.Valid()
  {
    var err := s.program.value.err;
    var result := s.result.(err := SnapshotOf(err.held, ShapeOf(s, limits)));
    s.(pc := LoadingRunning, program := Some(s.program.value.(err := err.Freeze())), errSeen := err.all,
       result := if s.result.timedOut then result else Status(result, s.program.value.exit))
  }

  function ToolReleased(s: Session): Session
    requires s.program.Some?
  {
    s.(pc := Unlocking, program := Some(s.program.value.Release()))
  }

  /** The handler's next step where it has no choice. */
  function AfterGo(s: Session, limits: Limits, live: int, following: int): Session
    requires Enabled(s, Go, false) && limits.Valid()
  {
    match s.pc
    case Counting => Counted(s)
    case Checking => Checked(s, limits)
    case FillingOut => FilledOut(s, limits)
    case FillingErr => FilledErr(s, limits)
    case FollowAdding => FollowAdded(s)
    case FreezingOut => FrozenOut(s)
    case FreezingErr => FrozenErr(s)
    case LoadingRunning => RunningLoaded(s, live)
    case LoadingFollowing => FollowingLoaded(s, following)
    case Unlocking => Unlocked(s)
    case Writing => Written(s)
    case Unfollowing => Unfollowed(s)
    case ToolKilling => GroupKilled(s)
    case ToolTakingOut => OutTaken(s, limits)
    case ToolTakingErr => ErrTaken(s, limits)
    case ToolReleasing => ToolReleased(s)
  }

  function Locked(s: Session): Session {
    s.(pc := Starting)
  }

  function NotStarted(s: Session, reason: Output): Session {
    s.(pc := LoadingRunning, result := s.result.(exitCode := Some(127), err := reason))
  }

  function Started(s: Session, group: int): Session {
    s.(pc := Counting, program := Some(NewProgram(group)))
  }

  function ExitTaken(s: Session): Session {
    s.(pc := Settling, exitSeen := true)
  }

  /** The wait is over: of the answer, of the flush after an exit, or of the follow. */
  function WaitOver(s: Session): Session {
    s.(pc := FillingOut)
  }

  function ToolEnded(s: Session): Session {
    s.(pc := ToolKilling)
  }

  function ToolTimedOut(s: Session): Session {
    s.(pc := ToolKilling, result := s.result.(timedOut := true))
  }

  function ToolJoined(s: Session): Session {
    s.(pc := ToolTakingOut)
  }

  function EndedTaken(s: Session): Session
    requires s.program.Some?
  {
    s.(pc := FillingOut, program := Some(s.program.value.Release()))
  }

  function GoneTaken(s: Session): Session {
    s.(pc := FreezingOut, gone := true)
  }

  function After(s: Session, e: Event, limits: Limits, live: int, following: int): Session
    requires Enabled(s, e, true) && limits.Valid()
  {
    match e
    case Lock => Locked(s)
    case StartFail(reason) => NotStarted(s, reason)
    case Start(group) => Started(s, group)
    case Go => AfterGo(s, limits, live, following)
    case TakeExit => if s.pc.ToolAwaiting? then ToolEnded(s) else if s.pc.ToolJoining? then ToolJoined(s) else ExitTaken(s)
    case TakeTimer => if s.pc.ToolAwaiting? then ToolTimedOut(s) else WaitOver(s)
    case TakeEnded => EndedTaken(s)
    case TakeGone => GoneTaken(s)
    case _ => s.(program := Some(Outside(s.program.value, e)))
  }

  /** Counted as running: added to `live` and not yet taken off. */
  predicate Alive(s: Session) {
    s.program.Some? && s.program.value.counted && !s.program.value.released
  }

  predicate Follows(s: Session) {
    s.follows
  }

  predicate AliveCommand(s: Session) {
    Alive(s) && s.ask.Command?
  }

  predicate AliveTool(s: Session) {
    Alive(s) && s.ask.Tool?
  }

  /** What the step does to `live`: counting adds one, the first release takes one off. */
  function LiveChange(s: Session, e: Event): int {
    if e.Go? && s.pc.Counting? then 1
    else if (e.TakeEnded? || e.Reap? || (e.Go? && s.pc.ToolReleasing?)) && s.program.Some? && !s.program.value.released then -1
    else 0
  }

  function FollowingChange(s: Session, e: Event): int {
    if e.Go? && s.pc.FollowAdding? then 1 else if e.Go? && s.pc.Unfollowing? then -1 else 0
  }

  datatype State = State(limits: Limits, sessions: seq<Session>, lock: Option<nat>, live: int, following: int)

  function Init(limits: Limits): State {
    State(limits, [], None, 0, 0)
  }

  /** One step of the whole server: a new connection (or a direct call), or a step of session `i`. */
  datatype Step = Connect(ask: Ask, direct: bool) | At(i: nat, event: Event)

  predicate CanStep(st: State, step: Step) {
    match step
    case Connect(ask, direct) => direct ==> ask.Command? && !ask.follow
    case At(i, e) => i < |st.sessions| && Enabled(st.sessions[i], e, st.lock.None?)
  }

  lemma EnabledWhenFree(s: Session, e: Event, free: bool)
    requires Enabled(s, e, free)
    ensures Enabled(s, e, true)
  {
  }

  function Next(st: State, step: Step): State
    requires CanStep(st, step) && st.limits.Valid()
  {
    match step
    case Connect(ask, direct) => st.(sessions := st.sessions + [NewSession(ask, direct, st.limits)])
    case At(i, e) =>
      var s := st.sessions[i];
      EnabledWhenFree(s, e, st.lock.None?);
      st.(sessions := st.sessions[i := After(s, e, st.limits, st.live, st.following)],
          lock := if e.Lock? then Some(i) else if e.Go? && s.pc.Unlocking? then None else st.lock,
          live := st.live + LiveChange(s, e),
          following := st.following + FollowingChange(s, e))
  }

  /** A step changes one session, the one that makes it or the new one. */
  lemma OthersStay(st: State, step: Step)
    requires CanStep(st, step) && st.limits.Valid()
    ensures var sessions, i := Next(st, step).sessions, if step.At? then step.i else |st.sessions|;
            && i < |sessions| && (step.At? ==> i < |st.sessions|)
            && (step.Connect? ==> sessions[i] == NewSession(step.ask, step.direct, st.limits))
            && forall k :: 0 <= k < |sessions| && k != i ==> k < |st.sessions| && sessions[k] == st.sessions[k]
  {
    hide After, Enabled, LiveChange, FollowingChange, NewSession;
  }

  lemma NextLimits(st: State, step: Step)
    requires CanStep(st, step) && st.limits.Valid()
    ensures Next(st, step).limits == st.limits
  {
  }

  /** A run: any sequence of steps, each of which can be made where it is made. */
  predicate CanRun(st: State, steps: seq<Step>)
    requires st.limits.Valid()
    decreases |steps|
  {
    steps == [] || (CanStep(st, steps[0]) && CanRun(Next(st, steps[0]), steps[1..]))
  }

  function Run(st: State, steps: seq<Step>): State
    requires st.limits.Valid() && CanRun(st, steps)
    decreases |steps|
  {
    if steps == [] then st else Run(Next(st, steps[0]), steps[1..])
  }

  /** A run's last step is made where the steps before it lead. */
  lemma {:induction false} RunLast(st: State, steps: seq<Step>)
    requires st.limits.Valid() && CanRun(st, steps) && steps != []
    ensures var n := |steps| - 1;
            && CanRun(st, steps[..n]) && Run(st, steps[..n]).limits == st.limits
            && CanStep(Run(st, steps[..n]), steps[n]) && Run(st, steps) == Next(Run(st, steps[..n]), steps[n])
    decreases |steps|
  {
    hide CanStep, Next;
    var n := |steps| - 1;
    if n == 0 {
      assert steps[..0] == [] && steps[1..] == [];
    } else {
      NextLimits(st, steps[0]);
      RunLast(Next(st, steps[0]), steps[1..]);
      assert steps[1..][..n - 1] == steps[..n][1..];
    }
  }
}
