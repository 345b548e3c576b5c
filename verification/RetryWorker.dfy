/** Failed jobs run again with exponential backoff until they succeed or go to the dead letter queue
    (retry.py). */
module RetryWorkers {
  function Pow2(n: nat): nat { if n == 0 then 1 else 2 * Pow2(n - 1) }

  function Max(a: int, b: int): int { if a >= b then a else b }

  /** A job, with the place in which it was submitted for its identity. */
  datatype Job = Job(number: nat, retries: nat, limit: int)

  /** One run of a job: how long it slept first and whether it succeeded. */
  datatype Run = Run(number: nat, slept: int, ok: bool)

  /** The queue and the counters; the jobs that rounds under way have taken and not yet run; and what an
      observer sees: every run, and every job handed to the dead letter queue. */
  datatype Worker = Worker(
    queue: seq<Job>, flying: seq<Job>, log: seq<Run>, dead: seq<Job>,
    submitted: nat, succeeded: nat, retried: nat, failed: nat, moved: nat)

  const IDLE := Worker([], [], [], [], 0, 0, 0, 0, 0)

  /** `get_backoff_seconds`. */
  function Backoff(base: int, retries: int): int { if retries <= 0 then 0 else base * Pow2(retries - 1) }

  function Slept(base: int, retries: nat): int {
    if Backoff(base, retries) > 0 && retries > 0 then Backoff(base, retries) else 0
  }

  function Submitted(w: Worker, limit: int): Worker {
    w.(queue := w.queue + [Job(w.submitted, 0, limit)], submitted := w.submitted + 1)
  }

  /** `process_queue` takes the whole queue. */
  function Taken(w: Worker): Worker { w.(queue := [], flying := w.flying + w.queue) }

  /** `_process_job`. */
  function Processed(w: Worker, base: int, i: nat, ok: bool): Worker
    requires i < |w.flying|
  {
    var job := w.flying[i];
    var run := Run(job.number, Slept(base, job.retries), ok);
    var w' := w.(flying := w.flying[..i] + w.flying[i + 1..], log := w.log + [run]);
    var job' := job.(retries := job.retries + 1);
    if ok then w'.(succeeded := w.succeeded + 1)
    else if job'.retries < job.limit then w'.(queue := w.queue + [job'], retried := w.retried + 1)
    else w'.(failed := w.failed + 1, moved := w.moved + 1, dead := w.dead + [job'])
  }

  datatype Event = Submit | Take | Process(i: nat, ok: bool)

  function Next(w: Worker, base: int, limit: int, e: Event): Worker {
    match e
    case Submit => Submitted(w, limit)
    case Take => Taken(w)
    case Process(i, ok) => if i < |w.flying| then Processed(w, base, i, ok) else w
  }

  // ------------------------------------------------------------------ conservation

  function RunsOf(log: seq<Run>, n: nat): nat {
    if log == [] then 0 else RunsOf(log[..|log|-1], n) + if log[|log|-1].number == n then 1 else 0
  }

  function SleptBy(log: seq<Run>, n: nat): int {
    if log == [] then 0 else SleptBy(log[..|log|-1], n) + if log[|log|-1].number == n then log[|log|-1].slept else 0
  }

  /** What a job has slept in all before its run number `retries`, counted from zero. */
  function TotalBackoff(base: int, retries: nat): int {
    if retries == 0 then 0 else Max(base, 0) * (Pow2(retries - 1) - 1)
  }

  lemma SleptIsScaled(base: int, p: int)
    requires p >= 1
    ensures (if base * p > 0 then base * p else 0) == Max(base, 0) * p
  {
    if base > 0 {
      assert base * p >= base;
    } else {
      assert base * p <= 0;
    }
  }

  lemma Doubling(m: int, p: int)
    ensures m * (2 * p - 1) == m * (p - 1) + m * p
  {
  }

  lemma BackoffAddsUp(base: int, retries: nat)
    ensures TotalBackoff(base, retries + 1) == TotalBackoff(base, retries) + Slept(base, retries)
  {
    if retries > 0 {
      var p := Pow2(retries - 1);
      PowIsPositive(retries - 1);
      SleptIsScaled(base, p);
      Doubling(Max(base, 0), p);
      assert Pow2(retries) == 2 * p;
    }
  }

  lemma {:induction false} PowIsPositive(n: nat)
    ensures Pow2(n) >= 1
  {
    if n > 0 {
      PowIsPositive(n - 1);
    }
  }

  /** The record of a job agrees with the log: its retries are its runs so far, below its limit. */
  predicate Recorded(w: Worker, base: int, limit: int, job: Job) {
    && job.number < w.submitted && job.limit == limit && job.retries < Max(1, limit)
    && RunsOf(w.log, job.number) == job.retries && SleptBy(w.log, job.number) == TotalBackoff(base, job.retries)
  }

  /** A dead job ran as often as it may. */
  predicate Exhausted(w: Worker, base: int, limit: int, job: Job) {
    && job.number < w.submitted && RunsOf(w.log, job.number) == job.retries == Max(1, limit)
    && SleptBy(w.log, job.number) == TotalBackoff(base, Max(1, limit))
  }

  ghost predicate Apart(a: seq<Job>, b: seq<Job>) { forall j <- a, k <- b :: j.number != k.number }

  ghost predicate Unique(a: seq<Job>) { forall i, j | 0 <= i < j < |a| :: a[i].number != a[j].number }

  ghost predicate AllDistinct(w: Worker) {
    Unique(w.queue) && Unique(w.flying) && Apart(w.queue, w.flying) && Apart(w.queue, w.dead) && Apart(w.flying, w.dead)
  }

  ghost predicate Accounted(w: Worker) {
    && w.submitted == w.succeeded + w.failed + |w.queue| + |w.flying|
    && w.failed == w.moved == |w.dead|
    && |w.log| == w.succeeded + w.failed + w.retried
  }

  ghost predicate AllRecorded(w: Worker, base: int, limit: int) {
    && (forall job <- w.queue :: Recorded(w, base, limit, job))
    && (forall job <- w.flying :: Recorded(w, base, limit, job))
    && (forall job <- w.dead :: Exhausted(w, base, limit, job))
    && (forall n: nat :: RunsOf(w.log, n) <= Max(1, limit))
    && (forall n: nat | n >= w.submitted :: RunsOf(w.log, n) == 0 && SleptBy(w.log, n) == 0)
  }

  ghost predicate Inv(w: Worker, base: int, limit: int) {
    AllDistinct(w) && Accounted(w) && AllRecorded(w, base, limit)
  }

  lemma {:induction false} LogGrows(log: seq<Run>, run: Run, n: nat)
    ensures RunsOf(log + [run], n) == RunsOf(log, n) + if run.number == n then 1 else 0
    ensures SleptBy(log + [run], n) == SleptBy(log, n) + if run.number == n then run.slept else 0
  {
    assert (log + [run])[..|log|] == log;
  }

  lemma RemovedFrom(s: seq<Job>, i: nat)
    requires i < |s| && Unique(s)
    ensures var r := s[..i] + s[i + 1..]; Unique(r) && (forall j <- r :: j in s && j.number != s[i].number)
  {
    var r := s[..i] + s[i + 1..];
    forall k | 0 <= k < |r| ensures r[k] in s && r[k].number != s[i].number {
      assert r[k] == if k < i then s[k] else s[k + 1];
    }
    forall k, l | 0 <= k < l < |r| ensures r[k].number != r[l].number {
      assert r[k] == if k < i then s[k] else s[k + 1];
      assert r[l] == if l < i then s[l] else s[l + 1];
    }
  }

  lemma ProcessedKeepsDistinct(w: Worker, base: int, i: nat, ok: bool)
    requires AllDistinct(w) && i < |w.flying|
    ensures AllDistinct(Processed(w, base, i, ok))
  {
    RemovedFrom(w.flying, i);
    assert w.flying[i] in w.flying;
  }

  lemma ProcessedKeepsRecords(w: Worker, base: int, limit: int, i: nat, ok: bool)
    requires AllDistinct(w) && AllRecorded(w, base, limit) && i < |w.flying|
    ensures AllRecorded(Processed(w, base, i, ok), base, limit)
  {
    var w', job := Processed(w, base, i, ok), w.flying[i];
    var run := Run(job.number, Slept(base, job.retries), ok);
    assert job in w.flying && Recorded(w, base, limit, job);
    forall n: nat ensures RunsOf(w'.log, n) == RunsOf(w.log, n) + if job.number == n then 1 else 0
                  ensures SleptBy(w'.log, n) == SleptBy(w.log, n) + if job.number == n then run.slept else 0 {
      LogGrows(w.log, run, n);
    }
    BackoffAddsUp(base, job.retries);
    RemovedFrom(w.flying, i);
    forall other <- w'.flying ensures Recorded(w', base, limit, other) {
      assert Recorded(w, base, limit, other);
    }
    forall other <- w'.queue ensures Recorded(w', base, limit, other) {
      assert other in w.queue || other == job.(retries := job.retries + 1);
    }
    forall other <- w'.dead ensures Exhausted(w', base, limit, other) {
      assert other in w.dead || other == job.(retries := job.retries + 1);
    }
  }

  /** The numbers given so far are all below the next one. */
  lemma NextNumberIsNew(w: Worker, base: int, limit: int)
    requires AllRecorded(w, base, limit)
    ensures forall job | job in w.queue || job in w.flying || job in w.dead :: job.number < w.submitted
    ensures RunsOf(w.log, w.submitted) == 0 && SleptBy(w.log, w.submitted) == 0
  {
    forall job | job in w.queue || job in w.flying || job in w.dead ensures job.number < w.submitted {
      if job in w.dead {
        assert Exhausted(w, base, limit, job);
      } else {
        assert Recorded(w, base, limit, job);
      }
    }
  }

  lemma SubmittedKeepsRecords(w: Worker, base: int, limit: int)
    requires AllRecorded(w, base, limit)
    ensures AllRecorded(Submitted(w, limit), base, limit)
  {
    var w' := Submitted(w, limit);
    NextNumberIsNew(w, base, limit);
    forall job <- w'.queue ensures Recorded(w', base, limit, job) {
      assert job in w.queue ==> Recorded(w, base, limit, job);
      assert job in w.queue || job == Job(w.submitted, 0, limit);
    }
    forall job <- w'.flying ensures Recorded(w', base, limit, job) {
      assert Recorded(w, base, limit, job);
    }
    forall job <- w'.dead ensures Exhausted(w', base, limit, job) {
      assert Exhausted(w, base, limit, job);
    }
  }

  lemma SubmittedKeepsInv(w: Worker, base: int, limit: int)
    requires Inv(w, base, limit)
    ensures Inv(Submitted(w, limit), base, limit)
  {
    SubmittedKeepsRecords(w, base, limit);
    NextNumberIsNew(w, base, limit);
    var queue := Submitted(w, limit).queue;
    assert forall job <- queue :: job in w.queue || job.number == w.submitted;
    forall i, j | 0 <= i < j < |queue| ensures queue[i].number != queue[j].number {
      assert queue[i] in w.queue;
    }
  }

  lemma NextKeepsInv(w: Worker, base: int, limit: int, e: Event)
    requires Inv(w, base, limit)
    ensures Inv(Next(w, base, limit, e), base, limit)
  {
    match e
    case Submit => SubmittedKeepsInv(w, base, limit);
    case Take => assert forall job <- w.queue + w.flying :: job in w.queue || job in w.flying;
    case Process(i, ok) =>
      if i < |w.flying| {
        ProcessedKeepsDistinct(w, base, i, ok);
        ProcessedKeepsRecords(w, base, limit, i, ok);
      }
  }

  function After(base: int, limit: int, events: seq<Event>): Worker {
    if events == [] then IDLE else Next(After(base, limit, events[..|events|-1]), base, limit, events[|events|-1])
  }

  lemma {:induction false} RunKeepsInv(base: int, limit: int, events: seq<Event>)
    ensures Inv(After(base, limit, events), base, limit)
  {
    if events != [] {
      RunKeepsInv(base, limit, events[..|events|-1]);
      NextKeepsInv(After(base, limit, events[..|events|-1]), base, limit, events[|events|-1]);
    }
  }

  function SubmitsOf(events: seq<Event>): nat {
    if events == [] then 0 else SubmitsOf(events[..|events|-1]) + if events[|events|-1].Submit? then 1 else 0
  }

  /** The jobs counted are those that were submitted. */
  lemma {:induction false} SubmissionsCounted(base: int, limit: int, events: seq<Event>)
    ensures After(base, limit, events).submitted == SubmitsOf(events)
  {
    if events != [] {
      SubmissionsCounted(base, limit, events[..|events|-1]);
    }
  }

  /** However submissions and any number of overlapping rounds interleave, no job is lost or counted twice,
      failures are what went to the dead letter queue, and no job runs more than max(1, max_retries) times. */
  lemma {:induction false} JobsAreConserved(base: int, limit: int, events: seq<Event>, n: nat)
    ensures var w := After(base, limit, events);
      && w.submitted == w.succeeded + w.failed + |w.queue| + |w.flying|
      && w.failed == w.moved == |w.dead|
      && |w.log| == w.succeeded + w.failed + w.retried
      && RunsOf(w.log, n) <= Max(1, limit)
  {
    RunKeepsInv(base, limit, events);
  }

  /** An exhausted job ran max(1, max_retries) times and slept base·(2^(max_retries - 1) - 1) in all. */
  lemma {:induction false} ExhaustedBackoff(base: int, limit: int, events: seq<Event>, job: Job)
    requires limit >= 1 && job in After(base, limit, events).dead
    ensures var w := After(base, limit, events);
      RunsOf(w.log, job.number) == limit && SleptBy(w.log, job.number) == TotalBackoff(base, limit)
  {
    RunKeepsInv(base, limit, events);
    assert Exhausted(After(base, limit, events), base, limit, job);
    assert Max(1, limit) == limit;
  }

  // ------------------------------------------------------------------ rounds, one after the other

  function Outcome(outcomes: seq<bool>, k: nat): bool { k < |outcomes| && outcomes[k] }

  /** The jobs that a round has taken, run in their order; jobs beyond the listed outcomes fail. */
  function Drained(w: Worker, base: int, outcomes: seq<bool>, k: nat): Worker
    decreases |w.flying|
  {
    if w.flying == [] then w else Drained(Processed(w, base, 0, Outcome(outcomes, k)), base, outcomes, k + 1)
  }

  function Round(w: Worker, base: int, outcomes: seq<bool>): Worker { Drained(Taken(w), base, outcomes, 0) }

  /** Those who failed with retries left, in their order. */
  function Survivors(jobs: seq<Job>, outcomes: seq<bool>, k: nat): seq<Job> {
    if jobs == [] then []
    else
      var rest, j := Survivors(jobs[1..], outcomes, k + 1), jobs[0];
      if Outcome(outcomes, k) || j.retries + 1 >= j.limit then rest else [j.(retries := j.retries + 1)] + rest
  }

  lemma {:induction false} DrainedKeepsInv(w: Worker, base: int, limit: int, outcomes: seq<bool>, k: nat)
    requires Inv(w, base, limit)
    ensures Inv(Drained(w, base, outcomes, k), base, limit)
    decreases |w.flying|
  {
    if w.flying != [] {
      NextKeepsInv(w, base, limit, Process(0, Outcome(outcomes, k)));
      DrainedKeepsInv(Processed(w, base, 0, Outcome(outcomes, k)), base, limit, outcomes, k + 1);
    }
  }

  lemma {:induction false} DrainedQueue(w: Worker, base: int, outcomes: seq<bool>, k: nat)
    ensures var w' := Drained(w, base, outcomes, k);
      w'.flying == [] && w'.queue == w.queue + Survivors(w.flying, outcomes, k) && w'.submitted == w.submitted
    decreases |w.flying|
  {
    if w.flying != [] {
      var next := Processed(w, base, 0, Outcome(outcomes, k));
      assert next.flying == w.flying[1..];
      DrainedQueue(next, base, outcomes, k + 1);
    }
  }

  /** After a round the queue is what survived it, and the survivors keep their relative order. */
  lemma {:induction false} RoundKeepsOrder(w: Worker, base: int, limit: int, outcomes: seq<bool>)
    requires Inv(w, base, limit) && w.flying == []
    ensures var w' := Round(w, base, outcomes);
      Inv(w', base, limit) && w'.flying == [] && w'.queue == Survivors(w.queue, outcomes, 0)
        && InOrder(w'.queue, w.queue)
      && w'.submitted == w.submitted
  {
    NextKeepsInv(w, base, limit, Take);
    assert Taken(w).flying == w.queue;
    DrainedKeepsInv(Taken(w), base, limit, outcomes, 0);
    DrainedQueue(Taken(w), base, outcomes, 0);
    SurvivorsInOrder(w.queue, outcomes, 0);
  }

  predicate RunAgain(after: Job, before: Job) { after == before.(retries := before.retries + 1) }

  /** `a` is a subsequence of `b`, each job run once more. */
  ghost predicate InOrder(a: seq<Job>, b: seq<Job>) {
    a == [] || (b != [] && ((RunAgain(a[0], b[0]) && InOrder(a[1..], b[1..])) || InOrder(a, b[1..])))
  }

  lemma {:induction false} SurvivorsInOrder(jobs: seq<Job>, outcomes: seq<bool>, k: nat)
    ensures InOrder(Survivors(jobs, outcomes, k), jobs)
  {
    if jobs != [] {
      var rest, all := Survivors(jobs[1..], outcomes, k + 1), Survivors(jobs, outcomes, k);
      SurvivorsInOrder(jobs[1..], outcomes, k + 1);
      if all != rest {
        assert RunAgain(all[0], jobs[0]) && all[1..] == rest;
      }
    }
  }

  lemma {:induction false} SelectedFrom(a: seq<Job>, b: seq<Job>, job: Job)
    requires InOrder(a, b) && job in a
    ensures exists before :: before in b && RunAgain(job, before)
  {
    if RunAgain(a[0], b[0]) && InOrder(a[1..], b[1..]) {
      if job == a[0] {
        assert b[0] in b;
      } else {
        SelectedFrom(a[1..], b[1..], job);
      }
    } else {
      SelectedFrom(a, b[1..], job);
    }
  }

  function Rounds(w: Worker, base: int, plan: seq<seq<bool>>): Worker {
    if plan == [] then w else Round(Rounds(w, base, plan[..|plan|-1]), base, plan[|plan|-1])
  }

  lemma {:induction false} RoundsAddUp(w: Worker, base: int, limit: int, plan: seq<seq<bool>>)
    requires Inv(w, base, limit) && w.flying == []
    ensures var w' := Rounds(w, base, plan);
      Inv(w', base, limit) && w'.flying == [] && (forall job <- w'.queue :: job.retries >= |plan|)
        && w'.submitted == w.submitted
  {
    if plan != [] {
      var before := Rounds(w, base, plan[..|plan|-1]);
      RoundsAddUp(w, base, limit, plan[..|plan|-1]);
      RoundKeepsOrder(before, base, limit, plan[|plan|-1]);
      var after := Rounds(w, base, plan);
      forall job <- after.queue ensures job.retries >= |plan| {
        SelectedFrom(after.queue, before.queue, job);
      }
    }
  }

  /** Without new submissions the queue is empty after max(1, max_retries) rounds, whatever the outcomes,
      and every job has succeeded or failed for good. */
  lemma {:induction false} QueueEmpties(w: Worker, base: int, limit: int, plan: seq<seq<bool>>)
    requires Inv(w, base, limit) && w.flying == [] && |plan| >= Max(1, limit)
    ensures var w' := Rounds(w, base, plan); w'.queue == [] && w.submitted == w'.succeeded + w'.failed
  {
    RoundsAddUp(w, base, limit, plan);
    LimitOutlasts(Rounds(w, base, plan), base, limit, |plan|);
  }

  lemma LimitOutlasts(w: Worker, base: int, limit: int, n: nat)
    requires Inv(w, base, limit) && forall job <- w.queue :: job.retries >= n
    ensures w.queue == [] || n < Max(1, limit)
  {
    if w.queue != [] {
      var job := w.queue[0];
      assert Recorded(w, base, limit, job);
    }
  }

  // ------------------------------------------------------------------ backoff

  /** The sleeps before runs 0 to `n - 1` of a job, added up one by one. */
  function SleptBefore(base: int, n: nat): int { if n == 0 then 0 else SleptBefore(base, n - 1) + Slept(base, n - 1) }

  /** A job that has not run yet does not sleep. */
  lemma NoBackoffYet(base: int, retries: int)
    requires retries <= 0
    ensures Backoff(base, retries) == Slept(base, 0) == 0
  {
  }

  /** They double from run to run, so together they come to one less than the next, counted in bases. */
  lemma {:induction false} BackoffsDouble(base: int, n: nat)
    requires base >= 0
    ensures SleptBefore(base, n) == TotalBackoff(base, n)
    ensures n >= 1 ==>
      && Backoff(base, n + 1) == 2 * Backoff(base, n)
      && SleptBefore(base, n + 1) == Backoff(base, n + 1) - base
  {
    if n > 0 {
      BackoffsDouble(base, n - 1);
      BackoffAddsUp(base, n - 1);
      BackoffAddsUp(base, n);
      assert Pow2(n) == 2 * Pow2(n - 1);
    }
  }

  // ------------------------------------------------------------------ the worker

  datatype Verdict = Success | Retry | Failure

  /** What a run is reported as: the job, what became of it, and how often it has run. */
  datatype Report = Report(number: nat, verdict: Verdict, attempts: nat)

  function ReportOf(job: Job, ok: bool): Report {
    Report(job.number, if ok then Success else if job.retries + 1 < job.limit then Retry else Failure, job.retries + 1)
  }

  /** A report says how often its job has run by then, and what became of it: counted as succeeded, back at the
      end of the queue, or in the dead letter queue. */
  lemma ReportTells(w: Worker, base: int, limit: int, i: nat, ok: bool)
    requires Inv(w, base, limit) && i < |w.flying|
    ensures var job, w', report := w.flying[i], Processed(w, base, i, ok), ReportOf(w.flying[i], ok);
      var job' := job.(retries := report.attempts);
      && report.number == job.number && report.attempts == RunsOf(w'.log, job.number)
      && (report.verdict == Success <==> w'.succeeded == w.succeeded + 1)
      && (report.verdict == Retry <==> w'.queue == w.queue + [job'])
      && (report.verdict == Failure <==> w'.dead == w.dead + [job'])
  {
    assert Recorded(w, base, limit, w.flying[i]);
  }

  ghost predicate Reported(reports: seq<Report>, jobs: seq<Job>, outcomes: seq<bool>) {
    |reports| <= |jobs| && forall k | 0 <= k < |reports| :: reports[k] == ReportOf(jobs[k], Outcome(outcomes, k))
  }

  lemma DrainedOnce(w: Worker, base: int, outcomes: seq<bool>, k: nat)
    requires w.flying != []
    ensures Drained(w, base, outcomes, k) == Drained(Processed(w, base, 0, Outcome(outcomes, k)), base, outcomes, k + 1)
  {
  }

  lemma ReportsGrow(reports: seq<Report>, jobs: seq<Job>, outcomes: seq<bool>)
    requires Reported(reports, jobs, outcomes) && |reports| < |jobs|
    ensures var k := |reports|; Reported(reports + [ReportOf(jobs[k], Outcome(outcomes, k))], jobs, outcomes)
  {
  }

  class RetryWorker {
    const limit: int
    const base: int
    var queue: seq<Job>
    var submitted: nat
    var succeeded: nat
    var retried: nat
    var failed: nat
    var moved: nat
    ghost var log: seq<Run>
    ghost var dead: seq<Job>

    /** The state while a round still has these jobs to run. */
    ghost function View(flying: seq<Job>): Worker
      reads this
    {
      Worker(queue, flying, log, dead, submitted, succeeded, retried, failed, moved)
    }

    constructor (maxRetries: int, backoffBase: int)
      ensures limit == maxRetries && base == backoffBase && View([]) == IDLE
    {
      limit, base := maxRetries, backoffBase;
      queue, log, dead := [], [], [];
      submitted, succeeded, retried, failed, moved := 0, 0, 0, 0, 0;
    }

    method Submit()
      modifies this
      ensures View([]) == Submitted(old(View([])), limit)
    {
      queue := queue + [Job(submitted, 0, limit)];
      submitted := submitted + 1;
    }

    method GetBackoffSeconds(retries: int) returns (seconds: int)
      ensures seconds == Backoff(base, retries)
    {
      if retries <= 0 {
        return 0;
      }
      return base * Pow2(retries - 1);
    }

    /** `rest` are the jobs after this one. */
    method ProcessJob(job: Job, ok: bool, ghost rest: seq<Job>) returns (report: Report)
      modifies this
      ensures report == ReportOf(job, ok)
      ensures View(rest) == Processed(old(View([job] + rest)), base, 0, ok)
    {
      var backoff := GetBackoffSeconds(job.retries);
      ghost var slept := if backoff > 0 && job.retries > 0 then backoff else 0;
      log := log + [Run(job.number, slept, ok)];
      assert ([job] + rest)[..0] + ([job] + rest)[1..] == rest;
      if ok {
        succeeded := succeeded + 1;
        return Report(job.number, Success, job.retries + 1);
      }
      var job' := job.(retries := job.retries + 1);
      if job'.retries < job'.limit {
        queue := queue + [job'];
        retried := retried + 1;
        return Report(job.number, Retry, job'.retries);
      } else {
        failed := failed + 1;
        moved := moved + 1;
        dead := dead + [job'];
        return Report(job.number, Failure, job'.retries);
      }
    }

    /** One round with nothing submitted meanwhile: one report for each job taken, in their order. */
    method ProcessQueue(outcomes: seq<bool>) returns (reports: seq<Report>)
      modifies this
      ensures |reports| == |old(queue)|
      ensures Reported(reports, old(queue), outcomes)
      ensures View([]) == Round(old(View([])), base, outcomes)
    {
      ghost var was := View([]);
      var jobs := queue;
      queue := [];
      assert was.flying + was.queue == jobs;
      var k := 0;
      reports := [];
      while k < |jobs|
        invariant k == |reports| <= |jobs|
        invariant Reported(reports, jobs, outcomes)
        invariant Drained(View(jobs[k..]), base, outcomes, k) == Round(was, base, outcomes)
      {
        assert jobs[k..] == [jobs[k]] + jobs[k + 1..];
        DrainedOnce(View(jobs[k..]), base, outcomes, k);
        var report := ProcessJob(jobs[k], Outcome(outcomes, k), jobs[k + 1..]);
        ReportsGrow(reports, jobs, outcomes);
        reports := reports + [report];
        k := k + 1;
      }
    }
  }
}
