# natsumi: a verified model of its runner, its evaluation runs and its release decision

This project models, in Dafny, the parts of natsumi whose correctness rests on more than one function, and proves what
they are for.

**The workspace runner** (`runner/`). `Utf8.dfy` holds UTF-8 as section 4 of RFC 3629 has it, and the two cuts that keep
characters whole; `Scalars.dfy` holds that syntax against the encoding of section 3. `Capped.dfy` is the bounded output buffer as a class, proved against a definition over the whole
stream, whatever the sizes of the writes. `Runner.dfy` is the server as a step relation: a step is one goroutine's next
access to something shared (the mutex, a counter, a buffer, a channel), any enabled step of any connection may come next,
and where two cases of a `select` are ready either may be taken. Timers may fire at any time. `RunnerInvariant.dfy` shows
what each step keeps, `RunnerRuns.dfy` what therefore holds in every state any run reaches, `RunnerRest.dfy` that no run
is ever stuck and each is bounded, `RunnerTold.dfy` what a report says of the program's end and shows of its output,
`RunnerTrace.dfy` that a program is what the run made it, `RunnerWhole.dfy` which reports show all there is, `RunnerTimes.dfy`
and `RunnerCounts.dfy` which limits, waits and counts a report carries. `Requests.dfy` is what is made of a request line.

**The evaluation** (`src/eval/`). `Scene.dfy`: the conditions of a scene, built in place as objects. `Directories.dfy`:
where a run's files go. `Jobs.dfy`: the rounds of jobs, and the pool of workers as a step relation. `Stage.dfy`: the
actors as a class, and the loop that follows their replies. `Turns.dfy`: the message log replayed into calls and tools.
`Checks.dfy`: where a counted rule was first met. `Framing.dfy`: lines cut from chunks, and asks matched with answers.
`Relay.dfy`: the relay's decision on a header. `Stats.dfy`: Wilson's and Newcombe's intervals and the quantile, over the
reals (`Reals.dfy` has the laws of products and squares they use).

**The release** (`scripts/weekly-release.ts`). `Release.dfy`: version tags, their order, and when a release is made.
`Decimal.dfy` is how numbers are printed and read.

A class or a method stands where the source changes things step by step, each proved against a function; what the source
promises is proved about that function, or about every run.

## Where the obvious claim is false

Each has an input or a run at which it fails, and the exact condition under which it holds.

- The comments of `runner/runner.go:160-161` and `213` promise that a character cut where the tail begins is left out. A
  tail of only continuation bytes is returned as it is (`Capped.NarrowTailShowsReplacement`). Valid text is shown faithfully
  for every stream just when the limit is 0 or at least 7 (`Capped.FaithfulIffRoomForACharacter`). A head-only buffer makes no
  character whole (`Capped.HeadOnlyCutsACharacter`): it is faithful just when its limit is a character boundary
  (`Capped.HeadOnlyFaithfulIffBoundary`).
- `runner/runner.go:91` calls the followed commands some of the running ones. A followed command may be released before its
  follower is taken off (`RunnerRest.FollowingMayExceedLive`). `following` stays within `live` in every run just when no
  request asks for a command to be followed (`RunnerRest.FollowingWithinLiveIff`).
- A reply's call number counts memo answers too (`Turns.MemoShiftsReplyNumber`): it is that of the call that showed the reply
  just when no memo was answered before (`Turns.ReplyNumberIsRightIff`), and the sums up to it are that call's just when
  that holds or the call is the last (`Checks.ReplyReachesItsCallIff`).
- Distinct conditions can share a directory (`Directories.NamesWithPlusCollide`, `Directories.SpecialNamesCollide`): two runs
  do just when their numbers are the same and their choices share a place (`Directories.DirectoriesMeetIff`). Distinct
  directories can lie one in the other (`Directories.EmptyNameHoldsAnother`), so that beginning one run removes another's files:
  just when a choice leads out and the other's scene is named `run-` and its number, or it leads nowhere and the other's one
  name is that (`Directories.DirectoriesNestIff`).
- In `RemoteRunner` an ask that finds an empty line first among the early answers throws it away; then answers and asks can
  both be queued, and a later line overtakes an earlier one (`Framing.EmptyLineBreaksTheOrder`). Lines and asks are matched
  first to first just when that never happened (`Framing.MatchedIffNothingThrown`), so always while no line is empty
  (`Framing.ClientMatchesNonEmptyLines`).
- The relay's verdict depends on the chunks when a header's end comes past the limit (`Relay.LateEndInTwo`), and only then
  (`Relay.ChunksDoNotMatterIff`).

## Model

| member | source | states |
|---|---|---|
| Utf8.ToValidIsValid | runner/runner.go:173-180 | whatever a command wrote, the text handed out is valid UTF-8 |
| Utf8.ToValidKeepsValid | runner/runner.go:173-180 | text is handed out unchanged just when it was valid |
| Utf8.ToValidMendsPieces | runner/runner.go:172-180 | any bytes are pieces of text and runs of bytes at which no character starts; what is handed out is just those in order, text as it is and each run as one U+FFFD |
| Scalars.CharsAreScalars | runner/runner.go:204-216 | what is taken for a character is the UTF-8 of a scalar value, and of one only |
| Scalars.ValidIsEncoded | runner/runner.go:116-122 | valid text is what some scalar values are encoded as |
| Utf8.FullRuneIff | runner/runner.go:204-206 | what begins with no full rune is just what more bytes can make a character of |
| Utf8.WholeHead | runner/runner.go:199-211 | the loop cuts where the definition over the last rune start says |
| Utf8.WholeTail | runner/runner.go:214-221 | the loop cuts at the first rune start among four bytes, or not at all |
| Utf8.HeadCutIsLastBoundary | runner/runner.go:198-211 | of valid text the head ends at the last character boundary that fits, at most three bytes back |
| Utf8.HeadCutGivesUpUnfinished | runner/runner.go:198-211 | of any bytes the head gives up just the unfinished character they end with, if there is one |
| Utf8.TailCutIsFirstBoundary | runner/runner.go:213-221 | of valid text the tail begins at the first boundary, at most three bytes on, when four bytes are there |
| Utf8.TailCutSkipsContinuations | runner/runner.go:213-221 | of any bytes the tail gives up just the continuation bytes before the first rune start among its first four, if there is one |
| Capped.Capped.constructor | runner/runner.go:105-114 | a new buffer was written nothing and is not frozen |
| Capped.Capped.Write | runner/runner.go:138-158 | the stream seen grows by the write unless frozen; the lazily trimmed head and tail still determine what it shows, and the tail holds at most twice its room |
| Capped.Capped.Snapshot | runner/runner.go:162-181 | shows what the definition over the whole stream shows |
| Capped.Capped.Take | runner/runner.go:184-188 | shows what was held, and freezes |
| Capped.Capped.Freeze | runner/runner.go:190-196 | frozen, with the stream that was seen until then |
| Capped.Capped.Drain | runner/runner.go:442-454 | reads of any sizes add up to their concatenation |
| Capped.KeepStream | runner/runner.go:138-181 | what is shown depends on the concatenation of the writes alone |
| Capped.SnapshotIsValid | runner/runner.go:116-122 | both pieces shown are valid UTF-8, whatever was written |
| Capped.SnapshotConserves | runner/runner.go:160-181 | for any bytes and either kind of buffer, what is shown and what is counted is the stream: all of it when it fits, else its first and last halves of the limit, less an unfinished character and leading continuation bytes; every character in what is kept is shown as it is, and each run of other bytes as one U+FFFD |
| Capped.RunningStreamCuts | runner/runner.go:160-181 | of a stream stopped anywhere, whatever follows: both cuts fall on characters, lose at most three bytes, and give up no character there was room for |
| Capped.ValidStreamSplits | runner/runner.go:160-181 | a valid stream is its shown head, a middle of the counted length, and its shown tail, all three valid UTF-8, for a limit of at least 7 |
| Capped.NarrowTailShowsReplacement | runner/runner.go:213-221 | for limits 1 to 6 a valid stream whose tail is shown as a replacement character |
| Capped.FaithfulIffRoomForACharacter | runner/runner.go:160-181 | every valid stream is shown faithfully just when the limit is 0 or at least 7 |
| Capped.HeadOnlyCutsACharacter | runner/runner.go:174-176 | a head-only buffer that cuts a character of four bytes |
| Capped.HeadOnlyFaithfulIffBoundary | runner/runner.go:174-176 | a head-only buffer is faithful just when its limit falls between characters |
| Capped.LaterSnapshot | runner/runner.go:138-181 | as the stream grows the raw head grows, the omitted count never falls, and text before a gap stays |
| RunnerInvariant.GoKeeps | runner/runner.go:568-589 | each step a handler has no choice in keeps the session's invariant and accounts for every change of `live`, `following` and the mutex |
| RunnerInvariant.WaitingKeeps | runner/runner.go:328-363 | so does the end of a wait by the program's exit or by the timer |
| RunnerInvariant.EventKeeps | runner/runner.go:282-417 | so does every other step: taking the mutex, starting or failing to, taking the end of output or the peer's leaving, and whatever the program, its drains and its reaper do |
| RunnerInvariant.OutsideOk | runner/runner.go:307-322 | reads, ends of output, exits and the reaper keep a program's bookkeeping: released once, after exit and end of output |
| RunnerInvariant.WrittenKeepsReports | runner/runner.go:585-588 | the line written says one true thing, with outputs computed from what was read |
| RunnerInvariant.StepKeeps | runner/runner.go:519-589 | every step of a session keeps all of its invariant, takes nothing back, and brings its handler or its program nearer the end |
| RunnerRuns.RunKeeps | runner/runner.go:506-589 | every interleaving of any number of connections keeps the invariant of the server |
| RunnerRuns.LiveCountsWhatRuns | runner/runner.go:232-241 | `live` is the number of commands not released plus tools under way; nothing is released twice, nor before its exit and the end of its output |
| RunnerRuns.QuietMeansZero | runner/runner.go:312-322 | once everything is over both counters are 0 and the mutex is free |
| RunnerRuns.OneInTheLock | runner/runner.go:223-230 | one command or tool is waited for at a time |
| RunnerRuns.LinesOfARequest | runner/runner.go:519-589 | one first line; a second at most once, only when asked for, after a first that said still running, never once the peer's branch was taken; each line says exactly one true outcome; once the handler is done nothing more is kept of the output |
| RunnerRuns.ReportsAreTrue | runner/runner.go:373-417 | every output reported is what the buffer's definition shows of a true beginning of the program's output, a tool's from its head alone, as valid UTF-8; a second line's extends the first's |
| RunnerRuns.ReportsCutCharacters | runner/runner.go:160-181 | of a command whose whole output is valid, each report with an omission is cut between characters of the whole, for a limit of at least 7 |
| RunnerRuns.FillsFromAll | runner/runner.go:373-386 | a result is filled from a buffer not frozen, which holds all that was read |
| RunnerRuns.NothingIsTakenBack | runner/runner.go:388-417 | lines stay written, frozen buffers keep nothing more, releases are not repeated, however a run goes on |
| RunnerRuns.LoadsTheRunning | runner/runner.go:415 | the running count a report carries is the number of running programs then; a tool leaves itself out |
| RunnerRuns.LoadsTheFollowing | runner/runner.go:416 | the following count a report carries is the number of followers then, its own included |
| RunnerRuns.ToolIsOverWhenAnswered | runner/argv.go:14-17 | when a tool's answer is written its group was killed, its program joined and it is counted no more |
| RunnerRest.HandlerAdvances | runner/runner.go:519-589 | a handler takes at most 26 steps, whatever else happens |
| RunnerRest.WhateverIsReadyIsOpen | runner/runner.go:328-417 | in every reached state each branch of a wait is open just when what it waits for is there, and a program may write until its pipes end, and end in any way |
| RunnerRest.EveryRunIsBounded | runner/runner.go:506-589 | however they interleave, a run makes at most 156 steps for each connection, reads aside |
| RunnerRest.StopsOnlyAtRest | runner/runner.go:312-322 | a run can go no further, reads and new connections aside, just when every session is over; then every request is answered, both counters are 0 and the mutex is free |
| RunnerRest.CanComeToRest | runner/runner.go:312-322 | from every reachable state the server can come to rest: every request answered, nothing counted, the mutex free |
| RunnerRest.FollowingMayExceedLive | runner/runner.go:388-417 | for a followed command of any wait, a run in which `live` is 0 and `following` is 1 |
| RunnerRest.FollowingWithinLiveIff | runner/runner.go:573-575 | over all runs of connections that ask only from a given set, `following` stays within `live` just when nothing in the set asks for a command to be followed |
| RunnerRest.ReleasedFollowersAreOver | runner/runner.go:356-362 | a follower whose command is not counted follows one that has exited and whose output has ended; without those, `following` is within `live` |
| RunnerWhole.EndedReportsAreWhole | runner/runner.go:356-371 | a command whose handler took the end of its output: the report it is settled for shows all that was ever written, however the run goes on, and it is counted as running no more |
| RunnerWhole.ToolReportsAreWhole | runner/argv.go:45-69 | a tool's answer, timed out or not, shows all that was read of it, and nothing more is read |
| RunnerTold.TakenExitIsTold | runner/runner.go:328-371 | a program whose exit its handler took, awaited, followed, or over before the wait began: the next line is neither still running nor timed out and has just the program's exit code or signal |
| RunnerTold.TakenTimerIsTold | runner/runner.go:341-352 | when the wait was over first, the next line of a command says still running, that of a tool timed out, and neither an exit code nor a signal |
| RunnerTold.FailureIsTold | runner/runner.go:298-301 | a program that could not be started: exit code 127, the reason as its error output, and nothing else |
| RunnerTold.FillIsShown | runner/runner.go:373-386 | the next line shows of each output just what had been read of it when the handler filled it in |
| RunnerTold.FollowedIsToldAgain | runner/runner.go:388-417 | a request whose handler is done has a second line just when it asked to follow, its first said still running, and the peer's branch was not taken |
| RunnerTrace.ProgramsAreTraced | runner/runner.go:282-322 | in every reached state a program has the group it was started with, its outputs are what was read of its two pipes in order, and it exited as it was seen to, once; a follower is gone just when the peer left |
| RunnerTimes.ReportsNameTheirTimes | runner/runner.go:328-333 | every report names the limit it was held to, and a first one of a command the wait it was given |
| RunnerTimes.WhatIsLoadedIsWritten | runner/runner.go:579-588 | no step between loading the counts and writing the line changes what was loaded |
| RunnerCounts.ReportsCarryCounts | runner/runner.go:415-416 | each report written in a run carries the number of running programs, and of followers, as they were when its own handler loaded each of them for it |
| Requests.ArgvRequest | runner/argv.go:97-110 | no reason is given just when argv is not empty, starts with an absolute path and holds no NUL |
| Requests.Handle | runner/runner.go:519-584 | exactly which lines start a tool, which a command, and that all others are refused with a reason |
| Requests.ClampsHold | runner/runner.go:328-332 | a wait lies within 0 and the response limit, a tool's timeout is positive and within it, and what was within is kept |
| Turns.ReadResults | src/eval/run.ts:360-363 | the loop's map is the one defined message by message |
| Turns.LastResultWins | src/eval/run.ts:360-363 | the result kept of a tool call is that of the last message with its id |
| Turns.ReadParts | src/eval/run.ts:386-395 | thinking, text and tool calls of a message, each in order |
| Turns.PartsAreGathered | src/eval/run.ts:386-395 | thinking adds up over the parts, texts follow one another, and nothing else counts |
| Turns.ReadTurns | src/eval/run.ts:355-403 | the assistant messages outside memos are the calls 1 to n, each with its own stop reason, usage, thinking and text and the time of its own place among all answers; the tools of a number are that message's own, once each; numbers never fall |
| Turns.MemoIsAskedFor | src/eval/run.ts:366-380 | a turn is in its memo just when the last user message asked for it |
| Turns.AnswersAreMessages | src/eval/run.ts:366-380 | the answers are the assistant messages, each in its place |
| Turns.PromptIsFirst | src/eval/run.ts:366-380 | the prompt is the first user message that asks for no memo |
| Turns.EventsFollow | src/eval/run.ts:366-380 | the events are those of all such messages, in order |
| Turns.EveryToolCallOnce | src/eval/run.ts:388-395 | every tool call of a message has one record, in order, with its own name, arguments and result, and there are no others |
| Turns.ReplyNumberIsRightIff | src/eval/run.ts:262-268 | a reply shown in an answer carries that answer's number among the calls just when no memo was answered before; never an earlier one |
| Turns.MemoShiftsReplyNumber | src/eval/run.ts:262-268 | the log of a followed run with one memo, whose second call's reply is numbered 3 |
| Checks.BoundedReachesFirstMet | src/eval/checks.ts:53-65 | when a counted rule passes, and where: at the least call by which min matches were made, with what was spent by then; nowhere just when it fails, asks for nothing, or too few matches have a call |
| Checks.ReachedIsSpent | src/eval/checks.ts:112-116 | the tokens at a call are running totals, 0 at first and more by just each call's own, past the end those of all; the time is when the last call ended, or the running total of the calls' own |
| Checks.FirstMetIsUniqueAndGrows | src/eval/checks.ts:53-65 | that call does not depend on the order of the matches, and grows with min |
| Checks.TokensGrow | src/eval/checks.ts:112-116 | the tokens spent up to a call grow with it |
| Checks.ToolReachesItsCall | src/eval/checks.ts:112-116 | for every tool, the calls summed up to its number are that many and end with the answer it was made in |
| Checks.RuleOverReplay | src/eval/checks.ts:57-66 | a counted rule over a replayed log: passes on the number of matching tools, reached at the least call by which enough were made, in which one was made, with the running totals of tokens and time at that call |
| Checks.ReplyReachesItsCallIff | src/eval/checks.ts:98-100 | the sums at a reply's number are those up to its own call just when no memo was answered before it or its call is the last |
| Scene.Condition.constructor | src/eval/scene.ts:222 | a condition starts with copies of the base's parts, none of them shared |
| Scene.Condition.Lay | src/eval/scene.ts:223-233 | laying a layer in place gives the overlaid content |
| Scene.Conditions | src/eval/scene.ts:215-236 | one condition for each place of the product, laid over the base by its own layers; no part is shared with another condition, and the scene's base is as it was |
| Scene.ProductAt | src/eval/scene.ts:217-220 | each choice of one value per axis stands at its rank, with its names and layers |
| Scene.EveryPlaceIsAChoice | src/eval/scene.ts:217-220 | nothing else stands there |
| Scene.RanksAreLexicographic | src/eval/scene.ts:215-220 | ranks are distinct and follow the lexicographic order of the axes |
| Scene.LastEventWins | src/eval/scene.ts:224 | the last layer that defines the event has it, else the scene |
| Scene.LastPlaceWins | src/eval/scene.ts:225-226 | the last layer that defines a file or a copy has it, else the scene |
| Scene.EditsInOrder | src/eval/scene.ts:227-228 | edits and prompt edits are the scene's, then each layer's in order |
| Scene.ChecksOfCondition | src/eval/scene.ts:229-232 | check ids stay unique, the scene's first and in its order, and the last definition of an id stands |
| Directories.NamesAreReadBackIff | src/eval/run.ts:79 | splitting the segment gives the names back just when none holds a `/` or a `+` |
| Directories.NamesWithPlusCollide | src/eval/run.ts:79 | two choices of one scene with one segment |
| Directories.SpecialNamesCollide | src/eval/run.ts:79 | an empty name and a dot give one directory |
| Directories.SegmentsMeetIff | src/eval/run.ts:79 | two choices of a scene have one segment just when their names are made of the same pieces |
| Directories.SpecialSegments | src/eval/run.ts:79 | the segment is empty or dots just when the choice is that one name |
| Directories.DirectoriesMeetIff | src/eval/run.ts:77-81 | two runs share a directory just when they have one number and their choices share a place: both lead out of their scenes, or lead nowhere in one scene, or are made of the same pieces in one scene |
| Directories.DirectoriesNestIff | src/eval/run.ts:79-80 | one run's directory, removed with all below it when that run begins, holds another's just when its choice leads out and the other's scene is named as its number's segment, or it leads nowhere and the other's only name, in the same scene, is that |
| Directories.EmptyNameHoldsAnother | src/eval/run.ts:79-80 | the directory of an empty name's run holds every run of the choice whose one name is `run-` and its number |
| Directories.OrdinaryNeverNest | src/eval/run.ts:79-80 | the directory of a choice whose segment is not special never holds another run's |
| Directories.DirectoriesDiffer | src/eval/run.ts:77-81 | so runs of different scenes, choices or numbers never do, for plain names and segments that are not special |
| Directories.NormalizedIsPlain | src/eval/run.ts:79 | a joined path has nothing special in it, and one without anything special is left as it is |
| Directories.OrdinaryDirectory | src/eval/run.ts:79 | an ordinary choice's run is under the work directory, the scene, the segment and its number |
| Jobs.MostRuns | src/eval/run.ts:488 | the number of rounds is the greatest number of runs, at least 0 |
| Jobs.LayOut | src/eval/run.ts:487-494 | the nested loops lay the jobs out round by round |
| Jobs.JobsInOrder | src/eval/run.ts:487-494 | the jobs come by round, in a round by scene, in a scene by condition |
| Jobs.EveryRunOnce | src/eval/run.ts:487-494 | each run of each condition is a job exactly once, and nothing else is |
| Jobs.RoundsAreFair | src/eval/run.ts:465-468 | in any prefix no condition is more than one run ahead of one that still has runs |
| Pool.AllJobsAreMade | src/eval/run.ts:495-517 | for any number of workers and any interleaving, once all stopped each index was run exactly once and the records stand in the order of the jobs, each of its own job |
| Pool.EverySchedulesLength | src/eval/run.ts:498-515 | every schedule that ends takes two steps per job and one per worker |
| Pool.NoOneIsStuck | src/eval/run.ts:498-514 | a worker that has not stopped can always go on |
| Stage.Stage.constructor | src/eval/actors.ts:62-84 | nothing asked, nothing answered, the first turn |
| Stage.Stage.Send | src/eval/actors.ts:97-104 | a new task waits; an agent that is no actor is refused and nothing changes |
| Stage.Stage.GetTask | src/eval/actors.ts:105-111 | an answered task completes once, with its text; waiting and unknown tasks are told apart |
| Stage.Stage.Ask | src/eval/actors.ts:124-141 | a request to the dove waits just when it is in shape and there is a place for its result |
| Stage.Stage.Forget | src/eval/actors.ts:147-150 | nothing waits any more and the exchanges are gone; the partition of tasks starts anew |
| Stage.Stage.Answer | src/eval/actors.ts:184-200 | who answers, and just when; the k-th answer of an actor with n written replies is the min(k, n)-th |
| Stage.Stage.AnswerOne | src/eval/actors.ts:161-180 | one exchange closed, its task answered, or its result told |
| Stage.Stage.AnswerPending | src/eval/actors.ts:152-182 | every waiting request is closed by its own answer's text, result and author in order, no other is touched, each dove's result is told once; waiting, answered and delivered stay apart and complete |
| Stage.KthRequestGetsKthReply | src/eval/actors.ts:152-190 | an actor's k-th answered request gets the k-th written reply, the last one again once they run out, in its exchange and for its task |
| Stage.NoneAwaited | src/eval/actors.ts:152-182 | once all that waited is answered every request taken has its reply |
| Stage.FirstAnswered | src/eval/actors.ts:161-169 | answering the first waiting request moves its task from waiting to answered, and no other |
| Stage.GivenNext | src/eval/actors.ts:185-190 | giving an actor's next reply keeps all of its replies in order |
| Stage.Follow | src/eval/run.ts:280-287 | the loop ends, within as many rounds as turns were left; with turns to spare every request taken has its reply; each round's requests are recorded in order, in the turn it makes |
| Framing.LinesReassemble | src/eval/isolation.ts:168-172 | lines and rest are the text, and hold no newline |
| Framing.LinesOfPieces | src/eval/isolation.ts:168-172 | text may come in any pieces: what is left of one is put before the next |
| Framing.Cut | src/eval/isolation.ts:206-210 | cutting at newlines gives the lines and the rest |
| Framing.Service.Data | src/eval/isolation.ts:168-189 | the lines handled are those of all that was received, in order |
| Framing.Client.constructor | src/eval/isolation.ts:203-205 | nothing received, nothing asked |
| Framing.Client.Data | src/eval/isolation.ts:206-214 | each line of the chunk goes to the longest waiting ask, or is kept; what the client did stays a run of the lines of all it received |
| Framing.Client.Ask | src/eval/isolation.ts:217-223 | an ask takes the first early answer, or waits |
| Framing.Client.Close | src/eval/isolation.ts:216 | every waiting ask is resolved, in order |
| Framing.ChunksDoNotMatter | src/eval/isolation.ts:206-214 | two chunks leave the client as one would |
| Framing.RunLines | src/eval/isolation.ts:206-214 | the lines of a chunk are events of the run one by one, in order |
| Framing.AsksAreResolvedInTurn | src/eval/isolation.ts:203-223 | in every run each ask is resolved at most once and in turn, and a close resolves all that are left |
| Framing.MatchedIffNothingThrown | src/eval/isolation.ts:203-223 | the i-th line goes to the i-th ask just when no ask found an empty line first among the early answers |
| Framing.ClientMatchesNonEmptyLines | src/eval/isolation.ts:203-223 | as long as no line it received is empty, an open client has given the i-th line of its stream to its i-th ask |
| Framing.MatchedQueuesAreApart | src/eval/isolation.ts:203-223 | then answers and asks are never both queued |
| Framing.EmptyLineBreaksTheOrder | src/eval/isolation.ts:220-221 | a run in which both are, and a later line overtakes |
| Relay.PrintedIsRead | src/eval/isolation.ts:73 | a CONNECT request line as printed, with a name, an address or a bracketed IPv6 address, is read as its target |
| Relay.ReadIsPrinted | src/eval/isolation.ts:73 | whatever is read as a target starts with the request line for it |
| Relay.PassedIsAllowed | src/eval/isolation.ts:73-80 | a header passes as a name just when its bytes start with a request line for a target of that name, the host without its brackets and the port in lower case, and the name is allowed; no target has two names |
| Relay.PlainHostIsNamed | src/eval/isolation.ts:74 | a host without brackets is named by itself and its port in lower case, letter by letter |
| Relay.RefusedTells | src/eval/isolation.ts:75-76 | what is told of a header turned back: its target's name, which is not allowed, or all of its first line within 200 bytes |
| Relay.Relay.constructor | src/eval/isolation.ts:59-62 | the allowed entries in lower case, no connection yet |
| Relay.Relay.Connect | src/eval/isolation.ts:63-67 | a new connection's header is read from its start |
| Relay.Relay.Data | src/eval/isolation.ts:68-81 | each decided connection adds exactly one entry, to `passed` or `refused`; what passed is allowed |
| Relay.HeaderAndRest | src/eval/isolation.ts:69-81 | what came of a decided connection is its header, up to its first end, and what is passed on after it |
| Relay.LateEndInTwo | src/eval/isolation.ts:68-72 | every stream whose header ends too late is given up in some two chunks |
| Relay.ChunksDoNotMatterIff | src/eval/isolation.ts:68-72 | the chunks make no difference to any stream's verdict just when its header, less its last byte, fits the limit |
| Relay.SplitUndoesJoin | src/eval/isolation.ts:101-104 | splitting undoes joining any host with a port |
| Relay.NamedTargetSplits | src/eval/isolation.ts:74-82 | every target that passes is split into its host without brackets, in lower case, and its port's number |
| Relay.BracketsAreTakenOff | src/eval/isolation.ts:73-74 | a bracketed address is asked for by the address itself |
| Stats.ScoreFactors | src/eval/stats.ts:7-15 | the score is a product of the distances from the interval's ends |
| Stats.WilsonIsTheScoreInterval | src/eval/stats.ts:6-15 | the bounds are the two roots of the score equation, 0 <= low <= rate <= high <= 1 before clamping, 0 and 1 reached only by none and all, the rate itself likewise |
| Stats.WilsonMirrors | src/eval/stats.ts:6-15 | counting failures mirrors the interval |
| Stats.WilsonRises | src/eval/stats.ts:6-15 | more passes raise both bounds strictly |
| Stats.NewcombeLiesWithin | src/eval/stats.ts:19-31 | its distances below and above, squared, are the sums of the squares of both rates' own; it lies within the extreme differences so the clamps never act, goes strictly further than either side alone, leaves 0 out when the intervals do not meet |
| Stats.NewcombeOfCounts | src/eval/stats.ts:19-31 | the same from the counts, strictly further below unless none or all passed on the sides used, and above likewise |
| Stats.NewcombeTurns | src/eval/stats.ts:19-31 | swapping the counts negates and swaps the bounds |
| Stats.ApartRatesDiffer | src/eval/stats.ts:19-31 | from the counts: disjoint Wilson intervals give a difference above 0 |
| Stats.BetweenGrows | src/eval/stats.ts:37-40 | interpolation stays between its neighbours, grows with the position, and meets each value |
| Stats.QuantileGrows | src/eval/stats.ts:33-41 | between the least and the greatest value, and growing with q |
| Stats.QuantileOfAnyOrder | src/eval/stats.ts:33-41 | the same for any order of the values |
| Stats.QuantileInterpolates | src/eval/stats.ts:33-41 | the quantile at a place between two values in order is their mean weighted by the place |
| Release.VersionOfTag | scripts/weekly-release.ts:30-33 | a printed version is read back |
| Release.VersionOfForm | scripts/weekly-release.ts:28-33 | what is read as a version is a v and three numerals with dots between |
| Release.FormIsRead | scripts/weekly-release.ts:28-33 | and whatever has that form is read |
| Release.CompareIsOrder | scripts/weekly-release.ts:37 | the comparison is a total order on versions, by major, then minor, then patch |
| Release.LatestVersionTag | scripts/weekly-release.ts:35-44 | the loop finds the first tag with the highest version, and none just when there is no version tag |
| Release.NextIsAboveAll | scripts/weekly-release.ts:46-50 | the next patch version is the highest with its patch one more, above every version there was and none of the tags |
| Release.AuthorsAreHeld | scripts/weekly-release.ts:58-71 | the authors told of are those of commits by anyone but the bots |
| Release.AuthorsNamePeople | scripts/weekly-release.ts:58-71 | each once, in the order of their first commits |
| Release.DecidedAfter | scripts/weekly-release.ts:56-66 | for any tag, or none, which decision is made, just when; one held by people names them |
| Release.ReleasedIff | scripts/weekly-release.ts:56-66 | released just when there is a version tag, only bots committed and a release file changed; the version is new |

## Left out

- Real sockets, pipes, processes, signals, file modes and JSON: they appear as events, bytes and parsed values. A value's
  JSON that does not parse, and the exception `JSON.parse` would throw in `RemoteRunner`, are not modelled.
- Time: a timer may fire at any step once it is set, the write deadline and the flush delay included; only the clamps on waits
  and timeouts are kept, in whole units.
- Integer widths: Go's `int64` totals and JavaScript's numbers past 2^53 do not wrap or round here. Floating-point rounding
  in `stats.ts` is left out: the statistics are over the reals, and `Quantile` takes a `q` within 0 and 1, as its callers give.
- The runner takes a response limit and an output limit that are positive; the runner's own environment, time zones and
  error texts are left out. `Run` and `RunFor` are sessions that take no lock and write no line: what they return is their line.
- A handler serves one request, as the source's do; a tool's pipes are read up to its exit, the wait for what it left
  behind included, as one stretch.
- The pattern of an event line in a message, and the redaction of error texts, in `readTurns`: messages come with their
  event lines and error texts already taken out.
- Of the rule checks only the counted ones' verdict; which tool calls match a rule (patterns, paths, dove targets) is given.
  `judgeChecks`, the rules that count nothing, and judging by a function or an LLM would only add easy members.
- `loadScene` and its validation; a condition's records and lists are objects, but what stands in them, a check or an
  edit, is a value.
- `path.join` is modelled on segments without separators in them; the work directory is given as its segments.
- `runCondition` that rejects, which would end all workers, and the log lines of the pool.
- The exchanges of a stage are values named by their place, not objects shared with the waiting requests; `Stage.Ask` is one
  step, though the source waits for a file between recording and queueing a request; how the dove's request is read, and
  what is written for it, is given.
- The turns of the followed loop are given as rounds, with the assumption that requests arise only in turns that leave a row.
- In `serveRunner`, starting and closing workspaces, and answers that overtake each other: each line is handled by a call of
  its own. A workspace whose start finishes after its socket closed is not closed by the source, and nothing is claimed of it.
- The relay's `connectTo`, its upstream connection and the bytes piped after the decision; `toLowerCase` and `\s` within
  latin1 only.
- `readHistory`, `releaseMessage` and `heldSummary`: git and text.
