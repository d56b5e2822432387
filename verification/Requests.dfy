/** What the runner makes of a request line (`handle` in `runner.go`, `argvRequest` in `argv.go`). */
module Requests {
  import opened Common
  import opened Runner

  const MAX_REQUEST_BYTES := 65536

  /** A request line as JSON gives it; durations in milliseconds. */
  datatype Request = Request(command: string, argv: Option<seq<string>>, stdin: Option<string>, timeout: int, wait: Option<int>,
                             follow: bool)

  const NUL := 0 as char

  /** What is run of argv: a program by its absolute path, and arguments the system can be given. */
  predicate MayRun(argv: seq<string>) {
    argv != [] && "/" <= argv[0] && forall arg <- argv :: NUL !in arg
  }

  /** The space that is trimmed off a command. */
  predicate Space(c: char) {
    var n := c as int;
    || 9 <= n <= 13 || n == 32 || n == 0x85 || n == 0xA0 || n == 0x1680 || 0x2000 <= n <= 0x200A
    || n == 0x2028 || n == 0x2029 || n == 0x202F || n == 0x205F || n == 0x3000
  }

  predicate Blank(s: string) {
    forall c <- s :: Space(c)
  }

  /** Why argv may not be run; empty when it may. */
  method ArgvRequest(argv: seq<string>) returns (reason: string)
    ensures reason == "" <==> MayRun(argv)
  {
    if |argv| == 0 {
      return "argv is empty";
    }
    if !("/" <= argv[0]) {
      return "the program must be an absolute path";
    }
    for i := 0 to |argv|
      invariant forall arg <- argv[..i] :: NUL !in arg
    {
      if NUL in argv[i] {
        return "argv must not contain a NUL character";
      }
    }
    assert argv[..|argv|] == argv;
    return "";
  }

  predicate IsBlank(s: string)
    ensures IsBlank(s) <==> Blank(s)
  {
    s == "" || (Space(s[0]) && IsBlank(s[1..]))
  }

  /**
   What a line asks for: a tool, when argv alone is given and may be run; a command, when there is no argv, no input and a
   command that is not blank; anything else is refused, with a reason.
   */
  method Handle(length: nat, endsInNewline: bool, request: Option<Request>) returns (ask: Ask, reason: string)
    ensures var read := length <= MAX_REQUEST_BYTES && endsInNewline && request.Some?;
            && (ask.Refused? <==> reason != "")
            && (ask.Tool? <==> read && request.value.argv.Some? && request.value.command == "" && MayRun(request.value.argv.value))
            && (ask.Command? <==> read && request.value.argv.None? && request.value.stdin.None? && !Blank(request.value.command))
            && (ask.Tool? ==> ask.timeout == request.value.timeout)
            && (ask.Command? ==> ask.follow == request.value.follow && ask.wait == request.value.wait)
  {
    ask := Refused;
    if length > MAX_REQUEST_BYTES {
      return Refused, "request too large";
    }
    if !endsInNewline {
      return Refused, "request must be one JSON line";
    }
    if request.None? {
      return Refused, "request is not JSON";
    }
    var r := request.value;
    if r.argv.Some? && r.command != "" {
      return Refused, "request must have either command or argv";
    }
    if r.argv.Some? {
      reason := ArgvRequest(r.argv.value);
      if reason == "" {
        ask := Tool(r.timeout);
      }
      return;
    }
    if r.stdin.Some? {
      return Refused, "stdin is only for argv";
    }
    if IsBlank(r.command) {
      return Refused, "command is empty";
    }
    return Command(r.follow, r.wait), "";
  }

  function Apart(a: int, b: int): nat {
    if a < b then b - a else a - b
  }

  /**
   However long a request asks for, the runner is held no longer than its response limit. A wait is the one nearest to what
   was asked, or the longest there is; a timeout is what was asked when that is within the limit, or the longest there is.
   */
  lemma {:induction false} ClampsHold(wait: Option<int>, timeout: int, limits: Limits)
    requires limits.Valid()
    ensures 0 <= Wait(wait, limits) <= limits.response && 0 < ToolTimeout(timeout, limits) <= limits.response
    ensures wait.None? ==> forall other :: Wait(other, limits) <= Wait(wait, limits)
    ensures wait.Some? ==> forall w: int :: 0 <= w <= limits.response ==> Apart(Wait(wait, limits), wait.value) <= Apart(w, wait.value)
    ensures 0 < timeout <= limits.response ==> ToolTimeout(timeout, limits) == timeout
    ensures !(0 < timeout <= limits.response) ==> forall other :: ToolTimeout(other, limits) <= ToolTimeout(timeout, limits)
  {
  }
}
