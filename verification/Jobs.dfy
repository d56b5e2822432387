/** The jobs of an evaluation, laid out a round of every condition at a time (`runEvaluation` in `run.ts`). */
module Jobs {
  import opened Common

  /** A chosen scene: how many of its conditions were picked, and how many runs each gets. */
  datatype Chosen = Chosen(conditions: nat, runs: int)

  /** Run `run` of a condition, which is named by its scene's place and its own in it. */
  datatype Job = Job(scene: nat, condition: nat, run: nat)

  predicate IsCondition(chosen: seq<Chosen>, scene: nat, condition: nat) {
    scene < |chosen| && condition < chosen[scene].conditions
  }

  /** The runs a condition gets: none when the number asked for is not positive. */
  function Runs(chosen: seq<Chosen>, scene: nat): nat
    requires scene < |chosen|
  {
    if chosen[scene].runs > 0 then chosen[scene].runs else 0
  }

  predicate IsJob(chosen: seq<Chosen>, job: Job) {
    IsCondition(chosen, job.scene, job.condition) && 1 <= job.run <= Runs(chosen, job.scene)
  }

  /** The greatest number of runs of any scene. */
  function Rounds(chosen: seq<Chosen>): nat {
    if chosen == [] then 0
    else
      var before, last := Rounds(chosen[..|chosen| - 1]), chosen[|chosen| - 1].runs;
      if last > before then last else before
  }

  /** The jobs laid out before condition `c` of scene `s` has its turn in round `r`. */
  function Before(chosen: seq<Chosen>, r: nat, s: nat, c: nat): seq<Job>
    requires s <= |chosen| && (s < |chosen| ==> c <= chosen[s].conditions) && (s == |chosen| ==> c == 0)
    decreases r, s, c
  {
    if c > 0 then Before(chosen, r, s, c - 1) + if r <= chosen[s].runs then [Job(s, c - 1, r)] else []
    else if s > 0 then Before(chosen, r, s - 1, chosen[s - 1].conditions)
    else if r > 1 then Before(chosen, r - 1, |chosen|, 0)
    else []
  }

  /** All the jobs: what is laid out before the round after the last. */
  function All(chosen: seq<Chosen>): seq<Job> {
    Before(chosen, Rounds(chosen) + 1, 0, 0)
  }

  lemma {:induction false} SkippedScene(chosen: seq<Chosen>, r: nat, s: nat, c: nat)
    requires s < |chosen| && c <= chosen[s].conditions && r > chosen[s].runs
    ensures Before(chosen, r, s, c) == Before(chosen, r, s, 0)
  {
    if c > 0 {
      SkippedScene(chosen, r, s, c - 1);
    }
  }

  method MostRuns(chosen: seq<Chosen>) returns (rounds: nat)
    ensures rounds == Rounds(chosen)
  {
    rounds := 0;
    for s := 0 to |chosen|
      invariant rounds == Rounds(chosen[..s])
    {
      assert chosen[..s + 1][..s] == chosen[..s];
      if chosen[s].runs > rounds {
        rounds := chosen[s].runs;
      }
    }
    assert chosen[..|chosen|] == chosen;
  }

  method LayOut(chosen: seq<Chosen>) returns (jobs: seq<Job>)
    ensures jobs == All(chosen)
  {
    jobs := [];
    var rounds := MostRuns(chosen);
    var run := 1;
    while run <= rounds
      invariant 1 <= run <= rounds + 1
      invariant jobs == Before(chosen, run, 0, 0)
    {
      for s := 0 to |chosen|
        invariant jobs == Before(chosen, run, s, 0)
      {
        if run > chosen[s].runs {
          SkippedScene(chosen, run, s, chosen[s].conditions);
          continue;
        }
        for c := 0 to chosen[s].conditions
          invariant jobs == Before(chosen, run, s, c)
        {
          jobs := jobs + [Job(s, c, run)];
        }
      }
      run := run + 1;
    }
  }

  // Every run of every condition, once.

  function Is(job: Job): Job -> bool {
    (j: Job) => j == job
  }

  function Of(scene: nat, condition: nat): Job -> bool {
    (j: Job) => j.scene == scene && j.condition == condition
  }

  /** Whether a condition had its turn in the round before condition `c` of scene `s`. */
  predicate HadTurn(scene: nat, condition: nat, s: nat, c: nat) {
    scene < s || (scene == s && condition < c)
  }

  lemma NoneLaid(p: Job -> bool)
    ensures Count([], p) == 0
  {
  }

  lemma {:induction false} LaidOnce(chosen: seq<Chosen>, r: nat, s: nat, c: nat, job: Job)
    requires r >= 1 && s <= |chosen| && (s < |chosen| ==> c <= chosen[s].conditions) && (s == |chosen| ==> c == 0)
    ensures Count(Before(chosen, r, s, c), Is(job)) ==
            if IsJob(chosen, job) && (job.run < r || (job.run == r && HadTurn(job.scene, job.condition, s, c))) then 1 else 0
    decreases r, s, c
  {
    hide Count;
    NoneLaid(Is(job));
    if c > 0 {
      LaidOnce(chosen, r, s, c - 1, job);
      if r <= chosen[s].runs {
        CountPush(Before(chosen, r, s, c - 1), Job(s, c - 1, r), Is(job));
      } else {
        assert Before(chosen, r, s, c) == Before(chosen, r, s, c - 1);
      }
    } else if s > 0 {
      LaidOnce(chosen, r, s - 1, chosen[s - 1].conditions, job);
    } else if r > 1 {
      LaidOnce(chosen, r - 1, |chosen|, 0, job);
    }
  }

  lemma {:induction false} RoundsAreEnough(chosen: seq<Chosen>, s: nat)
    requires s < |chosen|
    ensures Runs(chosen, s) <= Rounds(chosen)
  {
    if s < |chosen| - 1 {
      RoundsAreEnough(chosen[..|chosen| - 1], s);
    }
  }

  /** The jobs hold run 1 to n of every condition exactly once, and nothing else. */
  lemma {:induction false} EveryRunOnce(chosen: seq<Chosen>, job: Job)
    ensures Count(All(chosen), Is(job)) == if IsJob(chosen, job) then 1 else 0
  {
    LaidOnce(chosen, Rounds(chosen) + 1, 0, 0, job);
    if IsJob(chosen, job) {
      RoundsAreEnough(chosen, job.scene);
    }
  }

  /** A job of an earlier round; in one round, of an earlier scene; in one scene, of an earlier condition. */
  predicate Earlier(job: Job, other: Job) {
    || job.run < other.run
    || (job.run == other.run && (job.scene < other.scene || (job.scene == other.scene && job.condition < other.condition)))
  }

  lemma {:induction false} LaidInOrder(chosen: seq<Chosen>, r: nat, s: nat, c: nat)
    requires r >= 1 && s <= |chosen| && (s < |chosen| ==> c <= chosen[s].conditions) && (s == |chosen| ==> c == 0)
    ensures forall p, q :: 0 <= p < q < |Before(chosen, r, s, c)| ==> Earlier(Before(chosen, r, s, c)[p], Before(chosen, r, s, c)[q])
    ensures forall job <- Before(chosen, r, s, c) :: job.run < r || (job.run == r && HadTurn(job.scene, job.condition, s, c))
    decreases r, s, c
  {
    if c > 0 {
      LaidInOrder(chosen, r, s, c - 1);
    } else if s > 0 {
      LaidInOrder(chosen, r, s - 1, chosen[s - 1].conditions);
    } else if r > 1 {
      LaidInOrder(chosen, r - 1, |chosen|, 0);
    }
  }

  /** The jobs come round by round, and in a round by the order of the scenes and of their conditions. */
  lemma {:induction false} JobsInOrder(chosen: seq<Chosen>, p: nat, q: nat)
    requires p < q < |All(chosen)|
    ensures Earlier(All(chosen)[p], All(chosen)[q])
  {
    LaidInOrder(chosen, Rounds(chosen) + 1, 0, 0);
  }

  // Fairness.

  function Min(a: nat, b: nat): nat {
    if a < b then a else b
  }

  lemma {:induction false} LaidRuns(chosen: seq<Chosen>, r: nat, s: nat, c: nat, scene: nat, condition: nat)
    requires r >= 1 && s <= |chosen| && (s < |chosen| ==> c <= chosen[s].conditions) && (s == |chosen| ==> c == 0)
    requires IsCondition(chosen, scene, condition)
    ensures Count(Before(chosen, r, s, c), Of(scene, condition)) ==
            Min(Runs(chosen, scene), if HadTurn(scene, condition, s, c) then r else r - 1)
    decreases r, s, c
  {
    hide Count;
    NoneLaid(Of(scene, condition));
    if c > 0 {
      LaidRuns(chosen, r, s, c - 1, scene, condition);
      if r <= chosen[s].runs {
        CountPush(Before(chosen, r, s, c - 1), Job(s, c - 1, r), Of(scene, condition));
      } else {
        assert Before(chosen, r, s, c) == Before(chosen, r, s, c - 1);
      }
    } else if s > 0 {
      LaidRuns(chosen, r, s - 1, chosen[s - 1].conditions, scene, condition);
    } else if r > 1 {
      LaidRuns(chosen, r - 1, |chosen|, 0, scene, condition);
    }
  }

  /** Where in the rounds a prefix of the jobs ends. */
  lemma {:induction false} PrefixEnds(chosen: seq<Chosen>, r: nat, s: nat, c: nat, p: nat) returns (r': nat, s': nat, c': nat)
    requires r >= 1 && s <= |chosen| && (s < |chosen| ==> c <= chosen[s].conditions) && (s == |chosen| ==> c == 0)
    requires p <= |Before(chosen, r, s, c)|
    ensures r' >= 1 && s' <= |chosen| && (s' < |chosen| ==> c' <= chosen[s'].conditions) && (s' == |chosen| ==> c' == 0)
    ensures Before(chosen, r', s', c') == Before(chosen, r, s, c)[..p]
    decreases r, s, c
  {
    if p == |Before(chosen, r, s, c)| {
      r', s', c' := r, s, c;
    } else if c > 0 {
      assert Before(chosen, r, s, c)[..p] == Before(chosen, r, s, c - 1)[..p];
      r', s', c' := PrefixEnds(chosen, r, s, c - 1, p);
    } else if s > 0 {
      r', s', c' := PrefixEnds(chosen, r, s - 1, chosen[s - 1].conditions, p);
    } else {
      r', s', c' := PrefixEnds(chosen, r - 1, |chosen|, 0, p);
    }
  }

  /** However far the jobs have gone, no condition is more than one run ahead of another that still has runs to make. */
  lemma {:induction false} RoundsAreFair(chosen: seq<Chosen>, p: nat, scene: nat, condition: nat, scene': nat, condition': nat)
    requires p <= |All(chosen)| && IsCondition(chosen, scene, condition) && IsCondition(chosen, scene', condition')
    ensures var made, made' := Count(All(chosen)[..p], Of(scene, condition)), Count(All(chosen)[..p], Of(scene', condition'));
            made == Runs(chosen, scene) || made' <= made + 1
  {
    var r, s, c := PrefixEnds(chosen, Rounds(chosen) + 1, 0, 0, p);
    LaidRuns(chosen, r, s, c, scene, condition);
    LaidRuns(chosen, r, s, c, scene', condition');
  }
}

/** The workers that drain the jobs. A step is a worker's run between two awaits; any worker may make the next one. */
module Pool {
  import opened Common
  import opened Jobs

  datatype Worker = Idle | Running(index: nat) | Stopped

  /** What a run leaves; it names its job. */
  datatype Record<T> = Record(job: Job, outcome: T)

  /** The shared `next` and `done`, the records by index, and the indices logged, in the order they were done. */
  datatype State<T> = State(jobs: seq<Job>, next: nat, done: nat, records: seq<Option<Record<T>>>, workers: seq<Worker>, log: seq<nat>)

  datatype Step<T> = Claim(worker: nat) | Finish(worker: nat, outcome: T)

  function Nones<T>(n: nat): seq<Option<Record<T>>> {
    if n == 0 then [] else Nones(n - 1) + [None]
  }

  function Idles(n: nat): seq<Worker> {
    if n == 0 then [] else Idles(n - 1) + [Idle]
  }

  /** At least one worker, whatever concurrency was asked for. */
  function Init<T>(jobs: seq<Job>, concurrency: int): State<T> {
    State(jobs, 0, 0, Nones(|jobs|), Idles(if concurrency > 1 then concurrency else 1), [])
  }

  predicate CanStep<T>(st: State<T>, step: Step<T>) {
    && step.worker < |st.workers|
    && match step
       case Claim(w) => st.workers[w].Idle?
       case Finish(w, _) => st.workers[w].Running? && st.workers[w].index < |st.jobs| && st.workers[w].index < |st.records|
  }

  function Next<T>(st: State<T>, step: Step<T>): State<T>
    requires CanStep(st, step)
  {
    match step
    case Claim(w) =>
      st.(next := st.next + 1, workers := st.workers[w := if st.next < |st.jobs| then Running(st.next) else Stopped])
    case Finish(w, outcome) =>
      var index := st.workers[w].index;
      st.(records := st.records[index := Some(Record(st.jobs[index], outcome))], done := st.done + 1,
          workers := st.workers[w := Idle], log := st.log + [index])
  }

  predicate CanRun<T>(st: State<T>, steps: seq<Step<T>>)
    decreases |steps|
  {
    steps == [] || (CanStep(st, steps[0]) && CanRun(Next(st, steps[0]), steps[1..]))
  }

  function Run<T>(st: State<T>, steps: seq<Step<T>>): State<T>
    requires CanRun(st, steps)
    decreases |steps|
  {
    if steps == [] then st else Run(Next(st, steps[0]), steps[1..])
  }

  /** A worker at an index is at one that was claimed and has no record, and no other worker is at it. */
  ghost predicate WorkersOk<T>(st: State<T>) {
    && (forall w :: 0 <= w < |st.workers| && st.workers[w].Running? ==>
          var i := st.workers[w].index; i < st.next && i < |st.records| && st.records[i].None?)
    && (forall w, v :: 0 <= w < v < |st.workers| && st.workers[w].Running? ==> st.workers[w] != st.workers[v])
    && (forall w :: 0 <= w < |st.workers| && st.workers[w].Stopped? ==> st.next > |st.jobs|)
  }

  ghost predicate AtWork<T>(st: State<T>, i: nat) {
    exists w :: 0 <= w < |st.workers| && st.workers[w] == Running(i)
  }

  /** An index has a record once it was logged, of its own job; one that was claimed and has none is at work. */
  ghost predicate RecordsOk<T>(st: State<T>) {
    && |st.records| == |st.jobs|
    && (forall i :: 0 <= i < |st.records| ==> (st.records[i].Some? <==> i in st.log))
    && (forall i :: 0 <= i < |st.records| && st.records[i].Some? ==> i < st.next && st.records[i].value.job == st.jobs[i])
    && (forall i :: 0 <= i < |st.records| && i < st.next && st.records[i].None? ==> AtWork(st, i))
  }

  ghost predicate LogOk<T>(st: State<T>) {
    && st.done == |st.log|
    && (forall k :: 0 <= k < |st.log| ==> st.log[k] < |st.jobs|)
    && (forall k, l :: 0 <= k < l < |st.log| ==> st.log[k] != st.log[l])
  }

  ghost predicate Inv<T>(st: State<T>) {
    WorkersOk(st) && RecordsOk(st) && LogOk(st)
  }

  lemma {:induction false} NonesAreNone<T>(n: nat)
    ensures |Nones<T>(n)| == n && forall i :: 0 <= i < n ==> Nones<T>(n)[i] == None
  {
    if n > 0 {
      NonesAreNone<T>(n - 1);
    }
  }

  lemma {:induction false} IdlesAreIdle(n: nat)
    ensures |Idles(n)| == n && forall w :: 0 <= w < n ==> Idles(n)[w] == Idle
  {
    if n > 0 {
      IdlesAreIdle(n - 1);
    }
  }

  lemma InitIsInv<T>(jobs: seq<Job>, concurrency: int)
    ensures Inv(Init<T>(jobs, concurrency)) && |Init<T>(jobs, concurrency).workers| >= 1
  {
    NonesAreNone<T>(|jobs|);
    IdlesAreIdle(if concurrency > 1 then concurrency else 1);
  }

  lemma ClaimKeeps<T>(st: State<T>, w: nat)
    requires Inv(st) && CanStep(st, Claim(w))
    ensures Inv(Next(st, Claim(w)))
  {
    var after := Next(st, Claim(w));
    assert RecordsOk(after) by {
      forall i | 0 <= i < |after.records| && i < after.next && after.records[i].None? ensures AtWork(after, i) {
        if i == st.next {
          assert after.workers[w] == Running(i);
        } else {
          var v :| 0 <= v < |st.workers| && st.workers[v] == Running(i);
          assert after.workers[v] == Running(i);
        }
      }
    }
  }

  lemma FinishKeeps<T>(st: State<T>, w: nat, outcome: T)
    requires Inv(st) && CanStep(st, Finish(w, outcome))
    ensures Inv(Next(st, Finish(w, outcome)))
  {
    var after := Next(st, Finish(w, outcome));
    var index := st.workers[w].index;
    assert RecordsOk(after) by {
      assert after.log[|st.log|] == index;
      assert forall i :: i in after.log <==> i in st.log || i == index;
      forall i | 0 <= i < |after.records| && i < after.next && after.records[i].None? ensures AtWork(after, i) {
        var v :| 0 <= v < |st.workers| && st.workers[v] == Running(i);
        assert after.workers[v] == Running(i);
      }
    }
  }

  lemma StepKeeps<T>(st: State<T>, step: Step<T>)
    requires Inv(st) && CanStep(st, step)
    ensures Inv(Next(st, step)) && Next(st, step).jobs == st.jobs && |Next(st, step).workers| == |st.workers|
  {
    hide Inv;
    match step {
      case Claim(w) => ClaimKeeps(st, w);
      case Finish(w, outcome) => FinishKeeps(st, w, outcome);
    }
  }

  lemma {:induction false} RunKeeps<T>(st: State<T>, steps: seq<Step<T>>)
    requires Inv(st) && CanRun(st, steps)
    ensures Inv(Run(st, steps)) && Run(st, steps).jobs == st.jobs && |Run(st, steps).workers| == |st.workers|
    decreases |steps|
  {
    if steps != [] {
      StepKeeps(st, steps[0]);
      hide Inv;
      RunKeeps(Next(st, steps[0]), steps[1..]);
    }
  }

  predicate AllStopped<T>(st: State<T>) {
    forall w :: 0 <= w < |st.workers| ==> st.workers[w].Stopped?
  }

  /**
   However many workers there are and whoever goes next, once all have stopped every job was made exactly once, and the
   records stand in the order of the jobs, each that of its own job.
   */
  lemma {:induction false} AllJobsAreMade<T>(jobs: seq<Job>, concurrency: int, steps: seq<Step<T>>)
    requires CanRun(Init<T>(jobs, concurrency), steps) && AllStopped(Run(Init<T>(jobs, concurrency), steps))
    ensures var st := Run(Init<T>(jobs, concurrency), steps);
            && |st.records| == |jobs| == st.done
            && (forall i :: 0 <= i < |jobs| ==> st.records[i].Some? && st.records[i].value.job == jobs[i])
            && (forall i :: 0 <= i < |jobs| ==> Count(st.log, At(i)) == 1)
  {
    var st := Run(Init<T>(jobs, concurrency), steps);
    InitIsInv<T>(jobs, concurrency);
    RunKeeps(Init<T>(jobs, concurrency), steps);
    assert st.workers[0].Stopped?;
    forall i | 0 <= i < |jobs| ensures i in st.log {
      assert !AtWork(st, i);
    }
    Permutes(st.log, |jobs|);
  }

  function At(i: nat): nat -> bool {
    (k: nat) => k == i
  }

  lemma {:induction false} OnceIn(log: seq<nat>, i: nat)
    requires forall k, l :: 0 <= k < l < |log| ==> log[k] != log[l]
    ensures Count(log, At(i)) == if i in log then 1 else 0
  {
    if log != [] {
      OnceIn(log[..|log| - 1], i);
      assert log == log[..|log| - 1] + [log[|log| - 1]];
    }
  }

  /** Distinct indices below `n`, all of them: there are `n`, each once. */
  lemma Permutes(log: seq<nat>, n: nat)
    requires forall k, l :: 0 <= k < l < |log| ==> log[k] != log[l]
    requires forall k :: 0 <= k < |log| ==> log[k] < n
    requires forall i :: 0 <= i < n ==> i in log
    ensures |log| == n && forall i :: 0 <= i < n ==> Count(log, At(i)) == 1
  {
    forall i: nat | i < n ensures Count(log, At(i)) == 1 {
      OnceIn(log, i);
    }
    LengthIs(log, n);
  }

  lemma {:induction false} LengthIs(log: seq<nat>, n: nat)
    requires forall k, l :: 0 <= k < l < |log| ==> log[k] != log[l]
    requires forall k :: 0 <= k < |log| ==> log[k] < n
    requires forall i :: 0 <= i < n ==> i in log
    ensures |log| == n
  {
    if n > 0 {
      assert n - 1 in log;
      var k :| 0 <= k < |log| && log[k] == n - 1;
      var rest := log[..k] + log[k + 1..];
      forall i | 0 <= i < n - 1 ensures i in rest {
        assert i in log;
        var j :| 0 <= j < |log| && log[j] == i;
        assert rest[if j < k then j else j - 1] == i;
      }
      LengthIs(rest, n - 1);
    }
  }

  // Every schedule comes to its end.

  predicate IsRunning(w: Worker) {
    w.Running?
  }

  predicate IsGoing(w: Worker) {
    !w.Stopped?
  }

  function Left<T>(st: State<T>): int {
    2 * (|st.jobs| - st.done) - Count(st.workers, IsRunning) + Count(st.workers, IsGoing)
  }

  lemma StepTakesOne<T>(st: State<T>, step: Step<T>)
    requires CanStep(st, step)
    ensures Left(Next(st, step)) == Left(st) - 1
  {
    var w := step.worker;
    var now := Next(st, step).workers[w];
    CountUpdate(st.workers, w, now, IsRunning);
    CountUpdate(st.workers, w, now, IsGoing);
  }

  lemma {:induction false} StepsCountDown<T>(st: State<T>, steps: seq<Step<T>>)
    requires CanRun(st, steps)
    ensures Left(Run(st, steps)) == Left(st) - |steps|
    decreases |steps|
  {
    if steps != [] {
      StepTakesOne(st, steps[0]);
      StepsCountDown(Next(st, steps[0]), steps[1..]);
    }
  }

  /** Every schedule that ends takes the same number of steps: a claim and a finish for each job, and a last claim for each worker. */
  lemma {:induction false} EverySchedulesLength<T>(jobs: seq<Job>, concurrency: int, steps: seq<Step<T>>)
    requires CanRun(Init<T>(jobs, concurrency), steps) && AllStopped(Run(Init<T>(jobs, concurrency), steps))
    ensures |steps| == 2 * |jobs| + if concurrency > 1 then concurrency else 1
  {
    var init := Init<T>(jobs, concurrency);
    AllJobsAreMade(jobs, concurrency, steps);
    StepsCountDown(init, steps);
    InitIsInv<T>(jobs, concurrency);
    RunKeeps(init, steps);
    hide Inv, WorkersOk, RecordsOk, LogOk, CanRun, Run, Init, Left, AllStopped;
    LeftAtFirst<T>(jobs, concurrency);
    LeftAtLast(Run(init, steps));
  }

  lemma LeftAtFirst<T>(jobs: seq<Job>, concurrency: int)
    ensures Left(Init<T>(jobs, concurrency)) == 2 * |jobs| + if concurrency > 1 then concurrency else 1
    ensures Init<T>(jobs, concurrency).jobs == jobs
  {
    var init := Init<T>(jobs, concurrency);
    IdlesAreIdle(if concurrency > 1 then concurrency else 1);
    CountNone(init.workers, IsRunning);
    CountAll(init.workers, IsGoing);
  }

  lemma LeftAtLast<T>(st: State<T>)
    requires AllStopped(st) && st.done == |st.jobs|
    ensures Left(st) == 0
  {
    CountNone(st.workers, IsRunning);
    CountNone(st.workers, IsGoing);
  }

  /** Nothing waits for ever: until all have stopped, every worker that has not can go on. */
  lemma {:induction false} NoOneIsStuck<T>(jobs: seq<Job>, concurrency: int, steps: seq<Step<T>>, w: nat, outcome: T)
    requires CanRun(Init<T>(jobs, concurrency), steps)
    requires w < |Run(Init<T>(jobs, concurrency), steps).workers| && !Run(Init<T>(jobs, concurrency), steps).workers[w].Stopped?
    ensures var st := Run(Init<T>(jobs, concurrency), steps); CanStep(st, Claim(w)) || CanStep(st, Finish(w, outcome))
  {
    InitIsInv<T>(jobs, concurrency);
    RunKeeps(Init<T>(jobs, concurrency), steps);
  }
}
