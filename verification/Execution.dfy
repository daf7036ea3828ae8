// One attempt: claim, handler, finalizer (backend/app/services/job_execution_service.py,
// backend/app/domain/job_catalog.py), with every other process free to act between any two transactions.
module Execution {
  import opened Domain
  import opened JobRows
  import opened Lifecycle
  import opened Invariants
  import opened Safety
  import opened Backoff
  import opened Store
  import opened Evolution

  // ---------- one running `execute`

  /** Its local variables: the job, the attempt row's id and number, and the snapshot of the job. */
  datatype Ticket = Ticket(id: JobId, attempt: nat, number: nat, worker: WorkerId, spec: JobSpec)

  ghost predicate Holds(s: JobState, t: Ticket, phase: Phase) {
    && t.attempt in s.live
    && s.live[t.attempt].number == t.number
    && s.live[t.attempt].worker == t.worker
    && s.live[t.attempt].phase == phase
    && s.job.spec == t.spec
  }

  /** The tables are sound and the coroutine is in the given phase. */
  ghost predicate Owned(cfg: Settings, rows: Table, t: Ticket, phase: Phase) {
    Tables(cfg, rows) && t.id in rows && Holds(rows[t.id], t, phase)
  }

  /** A step of anyone else, or a beat of the coroutine's own heartbeat task. */
  predicate Foreign(a: Action, attempt: nat) { a.Run? && a.attempt == attempt ==> a.move.Heartbeat? }

  lemma FinalizedLeaves(s: JobState, k: nat, now: Time)
    requires k in s.live && s.live[k].phase.Ending?
    ensures Finalized(s, k, now).live == s.live - {k}
  {
  }

  lemma RunHolds(cfg: Settings, s: JobState, now: Time, k: nat, move: Move, t: Ticket, phase: Phase)
    requires k in s.live && Holds(s, t, phase) && (k == t.attempt ==> move.Heartbeat?)
    ensures t.attempt in RunStep(cfg, s, now, k, move).live
    ensures var l := RunStep(cfg, s, now, k, move).live[t.attempt];
            l.number == t.number && l.worker == t.worker && l.phase == phase
  {
    if move.Finalize? && s.live[k].phase.Ending? {
      FinalizedLeaves(s, k, now);
    }
  }

  lemma ForeignHolds(cfg: Settings, s: JobState, s': JobState, now: Time, a: Action, t: Ticket, phase: Phase)
    requires Inv(cfg, s) && Holds(s, t, phase) && Foreign(a, t.attempt) && s' == Step(cfg, s, now, a)
    ensures Holds(s', t, phase)
  {
    SpecStep(cfg, s, now, a);
    match a
    case Run(k, move) => if k in s.live { RunHolds(cfg, s, now, k, move, t, phase); }
    case Claim(_) => assert LiveShape(s, t.attempt);
    case _ =>
  }

  lemma ForeignOwned(cfg: Settings, rows: Table, id: JobId, now: Time, a: Action, t: Ticket, phase: Phase)
    requires Owned(cfg, rows, t, phase) && id in rows && (id == t.id ==> Foreign(a, t.attempt))
    ensures var rows' := rows[id := Step(cfg, rows[id], now, a)];
            Owned(cfg, rows', t, phase) && Evolved(cfg, rows, rows')
  {
    var s' := Step(cfg, rows[id], now, a);
    SoundStep(cfg, rows, id, s', now, a);
    EvolvedStep(cfg, rows, id, s', now, a);
    if id == t.id {
      assert RowSound(cfg, rows, id);
      ForeignHolds(cfg, rows[id], s', now, a, t, phase);
    }
  }

  /** The moves that commit nothing. */
  predicate Local(move: Move) {
    move.Return? || move.Raise? || move.RaiseFatal? || move.ObserveCancel? || move.Decide?
  }

  lemma MoveHolds(cfg: Settings, s: JobState, s': JobState, now: Time, t: Ticket, phase: Phase, move: Move, next: Phase)
    requires Holds(s, t, phase) && Local(move) && next == NextPhase(s.job, s.live[t.attempt], move, now)
    requires s' == InPhase(s, t.attempt, next)
    ensures s' == Step(cfg, s, now, Run(t.attempt, move)) && Holds(s', t, next)
  {
  }

  /** A move of the coroutine itself that commits nothing. */
  lemma OwnMove(cfg: Settings, rows: Table, now: Time, t: Ticket, phase: Phase, move: Move, next: Phase)
    requires Owned(cfg, rows, t, phase) && Local(move)
    requires next == NextPhase(rows[t.id].job, rows[t.id].live[t.attempt], move, now)
    ensures var rows' := rows[t.id := InPhase(rows[t.id], t.attempt, next)];
            Owned(cfg, rows', t, next) && Evolved(cfg, rows, rows')
  {
    var s' := InPhase(rows[t.id], t.attempt, next);
    MoveHolds(cfg, rows[t.id], s', now, t, phase, move, next);
    SoundStep(cfg, rows, t.id, s', now, Run(t.attempt, move));
    EvolvedStep(cfg, rows, t.id, s', now, Run(t.attempt, move));
  }

  // ---------- the handlers

  const TRANSIENT_CODE := "TRANSIENT_FAILURE"
  const RATE_LIMIT_CODE := "PROVIDER_RATE_LIMIT"
  const INVALID_CODE := "INVALID_INPUT"
  const UNEXPECTED_CODE := "UNEXPECTED_ERROR"

  /** How a handler ended: with a result or with one of the exceptions `execute` tells apart. */
  datatype Handled = Returned(result: Result) | Retryable(code: string) | Fatal(code: string) | CancelObserved

  /** What the handler of an attempt does when nothing interrupts it. */
  function Intended(cfg: Settings, t: Ticket): Handled {
    match t.spec.payload
    case Sleep(duration, steps) => if steps == 0 then Retryable(UNEXPECTED_CODE) else Returned(Slept(duration, steps))
    case Report(pages) => Returned(Reported(t.id, pages))
    case Flaky(failTimes) =>
      if t.number <= failTimes then Retryable(TRANSIENT_CODE) else Returned(SucceededOnAttempt(t.number))
    case AlwaysFail => Fatal(INVALID_CODE)
    case LlmSummary(prompt, tokens, simulateRateLimit) =>
      if simulateRateLimit && t.number == 1 then Retryable(RATE_LIMIT_CODE)
      else Returned(Summarized(|prompt|, tokens))
  }

  /** The handler of the job's attempt `id`, if that runs, ends as it intends. */
  predicate Intends(cfg: Settings, job: JobId, s: JobState, id: nat, handled: Handled) {
    id in s.live ==> Intended(cfg, Ticket(job, id, s.live[id].number, s.live[id].worker, s.job.spec)) == handled
  }

  /** How many times the handler of an attempt checks for a cancel. */
  function Checks(cfg: Settings, t: Ticket): nat {
    match t.spec.payload
    case Sleep(_, steps) => steps
    case Report(pages) => pages
    case Flaky(_) => 1
    case AlwaysFail => 0
    case LlmSummary(_, _, simulateRateLimit) =>
      if simulateRateLimit && t.number == 1 then 0 else cfg.handlerProgressSteps
  }

  /** A handler does what it intends, unless one of its checks or reports interrupts it. */
  predicate Allowed(cfg: Settings, t: Ticket, handled: Handled) {
    || handled == Intended(cfg, t)
    || (Checks(cfg, t) > 0 && (handled == CancelObserved || handled == Retryable(UNEXPECTED_CODE)))
  }

  /** An uninterrupted handler makes all of its calls in order, an interrupted one the first of them. */
  predicate Called(cfg: Settings, t: Ticket, handled: Handled, before: seq<Call>, after: seq<Call>) {
    && before <= after <= before + HandlerCalls(cfg, t)
    && (handled == Intended(cfg, t) ==> after == before + HandlerCalls(cfg, t))
  }

  function Percent(done: nat, steps: nat): int
    requires steps > 0
  {
    (done as real / steps as real * 100.0).Floor
  }

  function Percents(steps: nat): seq<int> { seq(steps, i requires 0 <= i < steps => Percent(i + 1, steps)) }

  /** What a handler asks of its context. */
  datatype Call = CheckCall | ReportCall(percent: int)

  /** The calls of the first `done` rounds of `_run_steps`. */
  function StepCalls(done: nat, steps: nat): seq<Call>
    requires done <= steps
  {
    if done == 0 then [] else StepCalls(done - 1, steps) + [CheckCall, ReportCall(Percents(steps)[done - 1])]
  }

  lemma {:induction false} StepCallsGrow(done: nat, steps: nat)
    requires done <= steps
    ensures StepCalls(done, steps) <= StepCalls(steps, steps)
    decreases steps - done
  {
    if done < steps {
      StepCallsGrow(done + 1, steps);
    }
  }

  /** The calls of some rounds and a part of the next one are the first calls of all rounds. */
  lemma PartOfRounds(was: seq<Call>, now: seq<Call>, index: nat, steps: nat)
    requires index < steps
    requires was + StepCalls(index, steps) <= now <= was + StepCalls(index + 1, steps)
    ensures was <= now <= was + StepCalls(steps, steps)
  {
    StepCallsGrow(index + 1, steps);
  }

  /** The calls of a handler that nothing interrupts. */
  function HandlerCalls(cfg: Settings, t: Ticket): seq<Call> {
    if t.spec.payload.Flaky? then [CheckCall] else StepCalls(Checks(cfg, t), Checks(cfg, t))
  }

  lemma FractionGrows(a: real, b: real, n: real)
    requires n > 0.0 && a <= b
    ensures a / n <= b / n
  {
  }

  /** The reported percentages satisfy the column's check constraint, never fall and end at 100. */
  lemma PercentsGrow(steps: nat, i: nat, j: nat)
    requires i <= j < steps
    ensures 0 <= Percents(steps)[i] <= Percents(steps)[j] <= 100 && Percents(steps)[steps - 1] == 100
  {
    var n := steps as real;
    FractionGrows(0.0, (i + 1) as real, n);
    FractionGrows((i + 1) as real, (j + 1) as real, n);
    FractionGrows((j + 1) as real, n, n);
    assert n / n == 1.0;
  }

  /** What can make a context operation raise. */
  predicate Interruption(raised: Option<Handled>) {
    raised.Some? ==> raised.value.CancelObserved? || raised.value == Retryable(UNEXPECTED_CODE)
  }

  /** The phase a coroutine is in when its handler has ended this way. */
  function PhaseAfter(interrupted: Option<Handled>): Phase {
    if interrupted == Some(CancelObserved) then Ending(CommitCancel) else Executing
  }

  // ---------- from the handler's end to the committed outcome

  /** What `execute` commits for each way the handler can end. */
  ghost predicate Settles(cfg: Settings, t: Ticket, handled: Handled, from: Time, to: Time, outcome: Outcome) {
    match handled
    case Returned(result) => outcome == CommitResult(result)
    case Fatal(code) => outcome == CommitFailure(code, false)
    case CancelObserved => outcome == CommitCancel
    case Retryable(code) =>
      || outcome == CommitCancel
      || (t.number >= t.spec.maxAttempts && outcome == CommitFailure(code, true))
      || (t.number < t.spec.maxAttempts && outcome.CommitRetry? && outcome.code == code
          && BackedOff(cfg, t.number, from, to, outcome.at))
  }

  lemma ClaimIs(cfg: Settings, rows: Table, id: JobId, worker: WorkerId, now: Time, t: Ticket)
    requires Tables(cfg, rows) && id in rows && Claimable(rows[id].job)
    requires t == Ticket(id, |rows[id].attempts|, rows[id].job.attempts + 1, worker, rows[id].job.spec)
    ensures var rows' := rows[id := ClaimedBy(cfg, rows[id], worker, now)];
            Owned(cfg, rows', t, Executing) && Evolved(cfg, rows, rows')
  {
    var s' := ClaimedBy(cfg, rows[id], worker, now);
    SoundStep(cfg, rows, id, s', now, Claim(worker));
    EvolvedStep(cfg, rows, id, s', now, Claim(worker));
  }

  lemma ProgressIs(cfg: Settings, rows: Table, t: Ticket, percent: int, now: Time)
    requires Owned(cfg, rows, t, Executing) && 0 <= percent <= 100
    ensures var rows' := rows[t.id := ProgressBy(cfg, rows[t.id], t.attempt, percent, now)];
            Owned(cfg, rows', t, Executing) && Evolved(cfg, rows, rows')
  {
    var s' := ProgressBy(cfg, rows[t.id], t.attempt, percent, now);
    SoundStep(cfg, rows, t.id, s', now, Run(t.attempt, Progress(percent)));
    EvolvedStep(cfg, rows, t.id, s', now, Run(t.attempt, Progress(percent)));
  }

  lemma FinalizeIs(cfg: Settings, rows: Table, t: Ticket, outcome: Outcome, now: Time)
    requires Owned(cfg, rows, t, Ending(outcome))
    ensures var rows' := rows[t.id := Finalized(rows[t.id], t.attempt, now)];
            Tables(cfg, rows') && Evolved(cfg, rows, rows')
  {
    var s' := Finalized(rows[t.id], t.attempt, now);
    SoundStep(cfg, rows, t.id, s', now, Run(t.attempt, Finalize));
    EvolvedStep(cfg, rows, t.id, s', now, Run(t.attempt, Finalize));
  }

  /** A record of one finished attempt: how the handler ended, the outcome, and the tables it was committed to. */
  datatype AttemptRun = AttemptRun(
    t: Ticket, handled: Handled, from: Time, to: Time, outcome: Outcome, before: Table, now: Time)
  {
    ghost function After(): Table
      requires t.id in before && t.attempt in before[t.id].live && before[t.id].live[t.attempt].phase.Ending?
    {
      before[t.id := Finalized(before[t.id], t.attempt, now)]
    }

    /** The finalizer committed a dead-lettered failure. */
    predicate DeadLetters()
      requires t.id in before
    {
      outcome.CommitFailure? && outcome.deadLettered && Finalizable(before[t.id].job, t.worker)
    }
  }

  ghost predicate Ran(cfg: Settings, rows: Table, run: AttemptRun) {
    && Allowed(cfg, run.t, run.handled)
    && Settles(cfg, run.t, run.handled, run.from, run.to, run.outcome)
    && Evolved(cfg, rows, run.before)
    && Owned(cfg, run.before, run.t, Ending(run.outcome))
  }

  lemma FinalizedRow(s: JobState, k: nat, now: Time)
    requires k in s.live && s.live[k].phase.Ending? && k < |s.attempts|
    ensures var s' := Finalized(s, k, now);
            && k !in s'.live && |s'.attempts| == |s.attempts| && s'.attempts[k].number == s.attempts[k].number
            && !s'.attempts[k].status.Running?
            && (s'.attempts[k].status.Succeeded? <==>
                  s.live[k].phase.outcome.CommitResult? && Finalizable(s.job, s.live[k].worker))
            && (s'.attempts[k].status.Succeeded? ==>
                  s'.job.status.Succeeded? && s'.job.result == Some(s.live[k].phase.outcome.result))
            && (!Finalizable(s.job, s.live[k].worker) ==> s' == s.(attempts := s'.attempts, live := s'.live))
            && (forall i :: 0 <= i < |s.attempts| && i != k ==> s'.attempts[i] == s.attempts[i])
  {
  }

  /** From the commit to the end of `execute`: the others act before a dead letter is pushed, if one is. */
  ghost predicate PushedLast(cfg: Settings, run: AttemptRun, committed: World, resumed: World, end: World)
    requires run.t.id in run.before && run.t.attempt in run.before[run.t.id].live
    requires run.before[run.t.id].live[run.t.attempt].phase.Ending?
  {
    && committed.rows == run.After()
    && Acted(cfg, committed, resumed) && (!run.DeadLetters() ==> resumed == committed)
    && end.rows == resumed.rows && (forall p :: end.lists(p) == resumed.lists(p))
    && end.dead == (if run.DeadLetters() then [run.t.id] else []) + resumed.dead
  }

  /**
   * What a finished attempt means for its job. The attempt's row is always finished. It succeeded exactly
   * when the handler returned its intended result to a worker that still held the row, and then the job
   * has that result; an attempt that lost the row changes nothing but its own row.
   */
  lemma AttemptOutcome(cfg: Settings, rows: Table, run: AttemptRun)
    requires Ran(cfg, rows, run)
    ensures var before, s, k := run.before[run.t.id], run.After()[run.t.id], run.t.attempt;
            && k !in s.live && k < |s.attempts| && s.attempts[k].number == run.t.number
            && !s.attempts[k].status.Running?
            && (s.attempts[k].status.Succeeded? <==> run.handled.Returned? && Finalizable(before.job, run.t.worker))
            && (s.attempts[k].status.Succeeded? ==>
                  run.handled == Intended(cfg, run.t)
                  && s.job.status.Succeeded? && s.job.result == Some(run.handled.result))
            && (!Finalizable(before.job, run.t.worker) ==> s == before.(attempts := s.attempts, live := s.live))
            && (forall i :: 0 <= i < |s.attempts| && i != k ==> s.attempts[i] == before.attempts[i])
  {
    assert RowSound(cfg, run.before, run.t.id);
    assert LiveShape(run.before[run.t.id], run.t.attempt);
    FinalizedRow(run.before[run.t.id], run.t.attempt, run.now);
  }

  /**
   * A retry is scheduled exactly when the handler raised a retryable error with attempts left and the row is
   * still RUNNING for this worker, which excludes a stored cancel; its time is a legal backoff. A dead letter
   * stands for a job that failed on its last attempt.
   */
  lemma RetryOutcome(cfg: Settings, rows: Table, run: AttemptRun)
    requires Ran(cfg, rows, run)
    ensures var before, s := run.before[run.t.id], run.After()[run.t.id];
            && (s.job.status.Retrying? && !before.job.status.Retrying? <==>
                  run.handled.Retryable? && run.t.number < run.t.spec.maxAttempts
                  && OwnedRunning(before.job, run.t.worker))
            && (OwnedRunning(before.job, run.t.worker) ==> before.job.cancellationRequestedAt.None?)
            && (s.job.status.Retrying? && !before.job.status.Retrying? ==>
                  s.job.nextAttemptAt.Some?
                  && BackedOff(cfg, run.t.number, run.from, run.to, s.job.nextAttemptAt.value))
            && (run.DeadLetters() ==>
                  run.handled.Retryable? && run.t.number >= run.t.spec.maxAttempts
                  && s.job.status.Failed? && s.job.deadLetteredAt == Some(run.now))
  {
    assert RowSound(cfg, run.before, run.t.id);
    assert LiveShape(run.before[run.t.id], run.t.attempt);
  }

  /** Attempt k puts its retry off by the base doubled k - 1 times, or the cap, within the spread of the jitter. */
  lemma RetryTime(cfg: Settings, rows: Table, run: AttemptRun)
    requires Sensible(cfg) && Ran(cfg, rows, run)
    requires run.After()[run.t.id].job.status.Retrying? && !run.before[run.t.id].job.status.Retrying?
    ensures run.t.number >= 1 && run.After()[run.t.id].job.nextAttemptAt.Some?
    ensures var k, at := run.t.number, run.After()[run.t.id].job.nextAttemptAt.value;
            run.from + Doubled(cfg, k) - Spread(cfg, k) <= at <= run.to + Doubled(cfg, k) + Spread(cfg, k)
  {
    RetryOutcome(cfg, rows, run);
    assert RowSound(cfg, run.before, run.t.id);
    assert LiveShape(run.before[run.t.id], run.t.attempt);
    BackedOffIs(cfg, run.t.number, run.from, run.to, run.After()[run.t.id].job.nextAttemptAt.value);
  }

  /** What a successful attempt stores: the numbers of the job's own payload and the attempt's number. */
  lemma StoredResult(cfg: Settings, rows: Table, run: AttemptRun)
    requires Ran(cfg, rows, run) && run.t.attempt < |run.After()[run.t.id].attempts|
    requires run.After()[run.t.id].attempts[run.t.attempt].status.Succeeded?
    ensures var j := run.After()[run.t.id].job;
            && j.spec == run.t.spec && j.status.Succeeded?
            && match j.spec.payload
               case Sleep(duration, steps) => steps > 0 && j.result == Some(Slept(duration, steps))
               case Report(pages) => j.result == Some(Reported(run.t.id, pages))
               case Flaky(failTimes) => run.t.number > failTimes && j.result == Some(SucceededOnAttempt(run.t.number))
               case AlwaysFail => false
               case LlmSummary(prompt, tokens, limited) =>
                 (limited ==> run.t.number > 1) && j.result == Some(Summarized(|prompt|, tokens))
  {
    AttemptOutcome(cfg, rows, run);
    assert RowSound(cfg, run.before, run.t.id);
    assert LiveShape(run.before[run.t.id], run.t.attempt);
    SpecStep(cfg, run.before[run.t.id], run.now, Run(run.t.attempt, Finalize));
  }

  /** What a failed attempt that held the row stores: the error of the job's own type, or an unexpected one. */
  lemma StoredError(cfg: Settings, rows: Table, run: AttemptRun)
    requires Ran(cfg, rows, run) && Finalizable(run.before[run.t.id].job, run.t.worker)
    requires run.After()[run.t.id].job.status.Failed? || run.After()[run.t.id].job.status.Retrying?
    ensures var j := run.After()[run.t.id].job;
            && j.spec == run.t.spec
            && match j.spec.payload
               case Flaky(failTimes) =>
                 || j.errorCode == Some("UNEXPECTED_ERROR")
                 || (run.t.number <= failTimes && j.errorCode == Some("TRANSIENT_FAILURE"))
               case AlwaysFail => j.errorCode == Some("INVALID_INPUT") && j.status.Failed? && j.deadLetteredAt.None?
               case LlmSummary(_, _, limited) =>
                 || j.errorCode == Some("UNEXPECTED_ERROR")
                 || (limited && run.t.number == 1 && j.errorCode == Some("PROVIDER_RATE_LIMIT"))
               case _ => j.errorCode == Some("UNEXPECTED_ERROR")
  {
    assert RowSound(cfg, run.before, run.t.id);
    assert LiveShape(run.before[run.t.id], run.t.attempt);
    SpecStep(cfg, run.before[run.t.id], run.now, Run(run.t.attempt, Finalize));
  }

  /** The percentage after `done` of `steps` rounds is a hundred times their ratio, rounded down. */
  lemma PercentIs(done: nat, steps: nat)
    requires steps > 0
    ensures var p := Percent(done, steps); p * steps <= 100 * done < (p + 1) * steps
  {
    var p, d, n := Percent(done, steps), done as real, steps as real;
    var x := d / n * 100.0;
    var low, high := p as real, (p + 1) as real;
    assert low <= x < high;
    Rescaled(d, n, x);
    Bracketed(low, x, high, n, d);
    Ordered(p, steps, done, low, high, n);
  }

  lemma Ordered(p: int, steps: nat, done: nat, low: real, high: real, n: real)
    requires low == p as real && high == (p + 1) as real && n == steps as real
    requires low * n <= 100.0 * done as real < high * n
    ensures p * steps <= 100 * done < (p + 1) * steps
  {
    assert (p * steps) as real == low * n;
    assert ((p + 1) * steps) as real == high * n;
    assert (100 * done) as real == 100.0 * done as real;
  }

  lemma Rescaled(d: real, n: real, x: real)
    requires n > 0.0 && x == d / n * 100.0
    ensures x * n == 100.0 * d
  {
    assert d / n * n == d;
  }

  lemma Bracketed(low: real, x: real, high: real, n: real, d: real)
    requires n > 0.0 && low <= x < high && x * n == 100.0 * d
    ensures low * n <= 100.0 * d < high * n
  {
    ScaleDown(low, x, n);
    ScaleDown(x, high, n);
  }

  lemma ScaleDown(x: real, y: real, n: real)
    requires n > 0.0
    ensures x <= y ==> x * n <= y * n
    ensures x < y ==> x * n < y * n
  {
  }

  class JobExecutionService {
    const db: Database
    const queue: JobQueue
    const clock: Clock
    const worker: WorkerId
    const others: Others
    /** What handlers have asked of their contexts; only CheckCancelled and ReportProgress add to it. */
    ghost var calls: seq<Call>

    constructor (db: Database, queue: JobQueue, clock: Clock, worker: WorkerId)
      ensures this.db == db && this.queue == queue && this.clock == clock && this.worker == worker && Wired()
    {
      this.db, this.queue, this.clock, this.worker := db, queue, clock, worker;
      this.others := new Others(db, queue, clock);
      calls := [];
    }

    predicate Wired() { others.db == db && others.queue == queue && others.clock == clock }

    /** One step of another process on any job, or one submission. */
    method ForeignStep(t: Ticket, ghost phase: Phase)
      requires Owned(db.cfg, db.rows, t, phase)
      modifies db, clock
      ensures Owned(db.cfg, db.rows, t, phase) && Evolved(db.cfg, old(db.rows), db.rows)
      ensures old(clock.time) <= clock.time
    {
      var at := clock.Now();
      var id: JobId := *;
      var a: Action := *;
      var spec: JobSpec := *;
      if id in db.rows && (id == t.id ==> Foreign(a, t.attempt)) {
        ForeignOwned(db.cfg, db.rows, id, at, a, t, phase);
        db.rows := db.rows[id := Step(db.cfg, db.rows[id], at, a)];
      } else if Fresh(db.rows, id, spec) {
        Inserted(db.cfg, db.rows, id, spec);
        db.rows := db.rows[id := Submitted(spec)];
      } else {
        EvolvedItself(db.cfg, db.rows);
      }
    }

    /** Between two transactions of a coroutine, every other process takes any steps on any jobs. */
    method Interfere(t: Ticket, ghost phase: Phase)
      requires Owned(db.cfg, db.rows, t, phase)
      modifies db, clock
      ensures Owned(db.cfg, db.rows, t, phase) && Evolved(db.cfg, old(db.rows), db.rows)
      ensures old(clock.time) <= clock.time
    {
      ghost var start := db.rows;
      EvolvedItself(db.cfg, start);
      var steps: nat := *;
      var i := 0;
      while i < steps
        invariant old(clock.time) <= clock.time
        invariant Owned(db.cfg, db.rows, t, phase) && Evolved(db.cfg, start, db.rows)
      {
        ghost var before := db.rows;
        ForeignStep(t, phase);
        EvolvedOn(db.cfg, start, before, db.rows);
        i := i + 1;
      }
    }

    /** The coroutine goes on to its next phase; the move says why. */
    method Enter(t: Ticket, ghost phase: Phase, ghost move: Move, next: Phase, ghost now: Time)
      requires Owned(db.cfg, db.rows, t, phase) && Local(move)
      requires next == NextPhase(db.rows[t.id].job, db.rows[t.id].live[t.attempt], move, now)
      modifies db
      ensures Owned(db.cfg, db.rows, t, next) && Evolved(db.cfg, old(db.rows), db.rows)
      ensures db.rows == old(db.rows)[t.id := InPhase(old(db.rows)[t.id], t.attempt, next)]
    {
      OwnMove(db.cfg, db.rows, now, t, phase, move, next);
      db.Join(t.id, t.attempt, db.rows[t.id].live[t.attempt].(phase := next));
    }

    method Claim(id: JobId) returns (claim: Option<Ticket>, ghost now: Time)
      requires db.Valid()
      modifies db, clock
      ensures old(clock.time) <= now == clock.time && Evolved(db.cfg, old(db.rows), db.rows)
      ensures claim.Some? <==> id in old(db.rows) && Claimable(old(db.rows)[id].job)
      ensures claim.None? ==> db.rows == old(db.rows)
      ensures claim.Some? ==>
                && db.rows == old(db.rows)[id := ClaimedBy(db.cfg, old(db.rows)[id], worker, now)]
                && claim.value == Ticket(id, |old(db.rows)[id].attempts|, old(db.rows)[id].job.attempts + 1, worker,
                                         old(db.rows)[id].job.spec)
                && Owned(db.cfg, db.rows, claim.value, Executing)
    {
      ghost var rows := db.rows;
      EvolvedItself(db.cfg, rows);
      var at := clock.Now();
      now := at;
      if id !in db.rows {
        return None, now;
      }
      var me, lease := worker, db.cfg.leaseSeconds;
      var claimed := db.Update(id, (j: Job) => Claimable(j), (j: Job) => Claimed(j, me, lease, at));
      if !claimed {
        return None, now;
      }
      var number := db.rows[id].job.attempts;
      var attempt := db.StartAttempt(id, number, me);
      db.RecordEvent(id, StartedEvent, Running);
      db.Join(id, attempt, Live(number, me, at, Executing));
      var t := Ticket(id, attempt, number, me, db.rows[id].job.spec);
      claim := Some(t);
      assert db.rows == rows[id := ClaimedBy(db.cfg, rows[id], worker, now)];
      ClaimIs(db.cfg, rows, id, worker, now, t);
    }

    /** One beat of the heartbeat task, which other steps of the coroutine may surround. */
    method Heartbeat(t: Ticket) returns (ghost now: Time)
      requires t.id in db.rows && t.attempt in db.rows[t.id].live && db.rows[t.id].live[t.attempt].worker == worker
      modifies db, clock
      ensures old(clock.time) <= now == clock.time
      ensures db.rows == old(db.rows)[t.id := HeartbeatBy(db.cfg, old(db.rows)[t.id], t.attempt, now)]
    {
      var at := clock.Now();
      now := at;
      var me, lease := worker, db.cfg.leaseSeconds;
      var _ := db.Update(t.id, (j: Job) => OwnedRunning(j, me), (j: Job) => Renewed(j, lease, at));
      db.Join(t.id, t.attempt, db.rows[t.id].live[t.attempt].(beatAt := at));
    }

    // ---------- what handlers call

    /** `check_cancelled`: None to go on, which needs that no cancel is stored, or the exception it raises. */
    method CheckCancelled(t: Ticket) returns (raised: Option<Handled>)
      requires Owned(db.cfg, db.rows, t, Executing)
      modifies this, db, clock
      ensures calls == old(calls) + [CheckCall] && Interruption(raised)
      ensures Owned(db.cfg, db.rows, t, PhaseAfter(raised)) && Evolved(db.cfg, old(db.rows), db.rows)
      ensures raised.None? ==> db.rows[t.id].job.cancellationRequestedAt.None?
      ensures old(clock.time) <= clock.time
    {
      calls := calls + [CheckCall];
      ghost var start := db.rows;
      Interfere(t, Executing);
      var fault: bool := *;
      if fault {
        return Some(Retryable(UNEXPECTED_CODE));
      }
      if db.rows[t.id].job.cancellationRequestedAt.Some? {
        ghost var before := db.rows;
        Enter(t, Executing, ObserveCancel, Ending(CommitCancel), clock.time);
        EvolvedOn(db.cfg, start, before, db.rows);
        return Some(CancelObserved);
      }
      return None;
    }

    /** The job's progress and lease after a report, if the worker holds the row. */
    ghost predicate Stored(t: Ticket, percent: int)
      reads db, clock
      requires t.id in db.rows
    {
      Finalizable(db.rows[t.id].job, worker) ==>
        db.rows[t.id].job.progress == percent
        && db.rows[t.id].job.lockExpiresAt == Some(clock.time + db.cfg.leaseSeconds)
    }

    /** `report_progress`, which also renews the lease. */
    method ReportProgress(t: Ticket, percent: int) returns (raised: Option<Handled>)
      requires Owned(db.cfg, db.rows, t, Executing) && 0 <= percent <= 100 && t.worker == worker
      modifies this, db, clock
      ensures calls == old(calls) + [ReportCall(percent)]
      ensures raised.None? || raised == Some(Retryable(UNEXPECTED_CODE))
      ensures Owned(db.cfg, db.rows, t, Executing) && Evolved(db.cfg, old(db.rows), db.rows)
      ensures raised.None? ==> Stored(t, percent)
      ensures old(clock.time) <= clock.time
    {
      calls := calls + [ReportCall(percent)];
      ghost var start := db.rows;
      Interfere(t, Executing);
      var fault: bool := *;
      if fault {
        return Some(Retryable(UNEXPECTED_CODE));
      }
      ghost var before := db.rows;
      StoreProgress(t, percent);
      EvolvedOn(db.cfg, start, before, db.rows);
      return None;
    }

    method StoreProgress(t: Ticket, percent: int)
      requires Owned(db.cfg, db.rows, t, Executing) && 0 <= percent <= 100 && t.worker == worker
      modifies db, clock
      ensures Owned(db.cfg, db.rows, t, Executing) && Evolved(db.cfg, old(db.rows), db.rows)
      ensures Stored(t, percent)
      ensures old(clock.time) <= clock.time
    {
      ghost var before := db.rows;
      var at := clock.Now();
      UpdateProgress(t.id, t.attempt, percent, at);
      ProgressIs(db.cfg, before, t, percent, at);
    }

    method UpdateProgress(id: JobId, attempt: nat, percent: int, now: Time)
      requires id in db.rows && attempt in db.rows[id].live && db.rows[id].live[attempt].worker == worker
      modifies db
      ensures db.rows == old(db.rows)[id := ProgressBy(db.cfg, old(db.rows)[id], attempt, percent, now)]
    {
      var me, lease := worker, db.cfg.leaseSeconds;
      var _ := db.Update(id, (j: Job) => Finalizable(j, me), (j: Job) => Progressed(j, percent, lease, now));
      db.Join(id, attempt, db.rows[id].live[attempt].(beatAt := now));
    }

    /** One round of the loop of `_run_steps`. */
    method OneStep(t: Ticket, index: nat, steps: nat) returns (raised: Option<Handled>)
      requires Owned(db.cfg, db.rows, t, Executing) && t.worker == worker && index < steps
      modifies this, db, clock
      ensures Interruption(raised)
      ensures var round := [CheckCall, ReportCall(Percents(steps)[index])];
              if raised.None? then calls == old(calls) + round else old(calls) <= calls <= old(calls) + round
      ensures Owned(db.cfg, db.rows, t, PhaseAfter(raised)) && Evolved(db.cfg, old(db.rows), db.rows)
      ensures old(clock.time) <= clock.time
    {
      ghost var start := db.rows;
      raised := CheckCancelled(t);
      if raised.None? {
        PercentsGrow(steps, index, index);
        ghost var before := db.rows;
        raised := ReportProgress(t, Percent(index + 1, steps));
        EvolvedOn(db.cfg, start, before, db.rows);
      }
    }

    /** `_run_steps`: check for a cancel, sleep, report; returns what interrupted it. */
    method RunSteps(t: Ticket, steps: nat) returns (raised: Option<Handled>)
      requires Owned(db.cfg, db.rows, t, Executing) && t.worker == worker
      modifies this, db, clock
      ensures Interruption(raised) && (steps == 0 ==> raised.None?)
      ensures old(calls) <= calls <= old(calls) + StepCalls(steps, steps)
      ensures raised.None? ==> calls == old(calls) + StepCalls(steps, steps)
      ensures Owned(db.cfg, db.rows, t, PhaseAfter(raised)) && Evolved(db.cfg, old(db.rows), db.rows)
      ensures old(clock.time) <= clock.time
    {
      ghost var start, was := db.rows, calls;
      EvolvedItself(db.cfg, start);
      raised := None;
      var index := 0;
      while index < steps
        invariant 0 <= index <= steps && raised.None? && old(clock.time) <= clock.time
        invariant Owned(db.cfg, db.rows, t, Executing) && Evolved(db.cfg, start, db.rows)
        invariant calls == was + StepCalls(index, steps)
      {
        ghost var before := db.rows;
        raised := OneStep(t, index, steps);
        EvolvedOn(db.cfg, start, before, db.rows);
        PartOfRounds(was, calls, index, steps);
        if raised.Some? {
          return;
        }
        index := index + 1;
      }
    }

    /** The steps, then the result. */
    method Stepped(t: Ticket, steps: nat, result: Result) returns (handled: Handled)
      requires Owned(db.cfg, db.rows, t, Executing) && t.worker == worker && Intended(db.cfg, t) == Returned(result)
      requires Checks(db.cfg, t) == steps && !t.spec.payload.Flaky?
      modifies this, db, clock
      ensures Allowed(db.cfg, t, handled) && Called(db.cfg, t, handled, old(calls), calls)
      ensures Owned(db.cfg, db.rows, t, PhaseAfter(Some(handled))) && Evolved(db.cfg, old(db.rows), db.rows)
      ensures old(clock.time) <= clock.time
    {
      var raised := RunSteps(t, steps);
      handled := if raised.Some? then raised.value else Returned(result);
    }

    method HandleFlaky(t: Ticket, failTimes: nat) returns (handled: Handled)
      requires Owned(db.cfg, db.rows, t, Executing) && t.spec.payload == Flaky(failTimes)
      modifies this, db, clock
      ensures Allowed(db.cfg, t, handled) && Called(db.cfg, t, handled, old(calls), calls)
      ensures Owned(db.cfg, db.rows, t, PhaseAfter(Some(handled))) && Evolved(db.cfg, old(db.rows), db.rows)
      ensures old(clock.time) <= clock.time
    {
      var raised := CheckCancelled(t);
      if raised.Some? {
        return raised.value;
      }
      if t.number <= failTimes {
        return Retryable(TRANSIENT_CODE);
      }
      return Returned(SucceededOnAttempt(t.number));
    }

    /** The handler of the job's type. */
    method Handle(t: Ticket) returns (handled: Handled)
      requires Owned(db.cfg, db.rows, t, Executing) && t.worker == worker
      modifies this, db, clock
      ensures Allowed(db.cfg, t, handled) && Called(db.cfg, t, handled, old(calls), calls)
      ensures Owned(db.cfg, db.rows, t, PhaseAfter(Some(handled))) && Evolved(db.cfg, old(db.rows), db.rows)
      ensures old(clock.time) <= clock.time
    {
      EvolvedItself(db.cfg, db.rows);
      match t.spec.payload
      case Sleep(duration, steps) =>
        if steps == 0 {
          return Retryable(UNEXPECTED_CODE);
        }
        handled := Stepped(t, steps, Slept(duration, steps));
      case Report(pages) =>
        handled := Stepped(t, pages, Reported(t.id, pages));
      case Flaky(failTimes) =>
        handled := HandleFlaky(t, failTimes);
      case AlwaysFail =>
        handled := Fatal(INVALID_CODE);
      case LlmSummary(prompt, tokens, simulateRateLimit) =>
        if simulateRateLimit && t.number == 1 {
          return Retryable(RATE_LIMIT_CODE);
        }
        handled := Stepped(t, db.cfg.handlerProgressSteps, Summarized(|prompt|, tokens));
    }

    // ---------- the finalizers

    method MarkSuperseded(id: JobId, attempt: nat)
      requires id in db.rows
      modifies db
      ensures db.rows == old(db.rows)[id := Superseded(old(db.rows)[id], attempt)]
    {
      db.FinishAttempt(id, attempt, Failed, Some(SUPERSEDED_CODE));
      db.Leave(id, attempt);
    }

    method FinalizeSucceeded(id: JobId, attempt: nat, result: Result) returns (ghost now: Time)
      requires id in db.rows && attempt in db.rows[id].live && db.rows[id].live[attempt].worker == worker
      modifies db, clock
      ensures old(clock.time) <= now == clock.time
      ensures db.rows == old(db.rows)[id := CommittedResult(old(db.rows)[id], attempt, result, now)]
    {
      var at := clock.Now();
      now := at;
      var me := worker;
      var marked := db.Update(id, (j: Job) => Finalizable(j, me), (j: Job) => MarkedSucceeded(j, result, at));
      if !marked {
        MarkSuperseded(id, attempt);
        return;
      }
      db.FinishAttempt(id, attempt, Succeeded, None);
      db.RecordEvent(id, SucceededEvent, Succeeded);
      db.EnqueueNotice(id, SucceededEvent, Succeeded, Some(result), None, at);
      db.Leave(id, attempt);
    }

    method FinalizeFailed(id: JobId, attempt: nat, code: string, deadLettered: bool)
      returns (committed: bool, ghost now: Time)
      requires id in db.rows && attempt in db.rows[id].live && db.rows[id].live[attempt].worker == worker
      modifies db, clock
      ensures old(clock.time) <= now == clock.time
      ensures committed == Finalizable(old(db.rows)[id].job, worker)
      ensures db.rows == old(db.rows)[id := CommittedFailure(old(db.rows)[id], attempt, code, deadLettered, now)]
    {
      var at := clock.Now();
      now := at;
      var me := worker;
      committed := db.Update(id, (j: Job) => Finalizable(j, me), (j: Job) => MarkedFailed(j, code, at, deadLettered));
      if !committed {
        MarkSuperseded(id, attempt);
        return;
      }
      db.FinishAttempt(id, attempt, Failed, Some(code));
      db.RecordEvent(id, FailedEvent, Failed);
      db.EnqueueNotice(id, FailedEvent, Failed, None, Some(code), at);
      db.Leave(id, attempt);
    }

    method ScheduleRetry(id: JobId, attempt: nat, code: string, nextAttemptAt: Time) returns (ghost now: Time)
      requires id in db.rows && attempt in db.rows[id].live && db.rows[id].live[attempt].worker == worker
      modifies db, clock
      ensures old(clock.time) <= now == clock.time
      ensures db.rows == old(db.rows)[id := CommittedRetry(old(db.rows)[id], attempt, code, nextAttemptAt)]
    {
      now := clock.Now();
      var me := worker;
      var scheduled := db.Update(id, (j: Job) => OwnedRunning(j, me),
                                 (j: Job) => RetryScheduled(j, code, nextAttemptAt));
      if !scheduled {
        MarkSuperseded(id, attempt);
        return;
      }
      db.FinishAttempt(id, attempt, Failed, Some(code));
      db.RecordEvent(id, RetryScheduledEvent, Retrying);
      db.Leave(id, attempt);
    }

    method FinalizeCancelled(id: JobId, attempt: nat) returns (ghost now: Time)
      requires id in db.rows && attempt in db.rows[id].live && db.rows[id].live[attempt].worker == worker
      modifies db, clock
      ensures old(clock.time) <= now == clock.time
      ensures db.rows == old(db.rows)[id := CommittedCancel(old(db.rows)[id], attempt, now)]
    {
      var at := clock.Now();
      now := at;
      var me := worker;
      var marked := db.Update(id, (j: Job) => Finalizable(j, me), (j: Job) => CancelledByWorker(j, at));
      if !marked {
        MarkSuperseded(id, attempt);
        return;
      }
      db.FinishAttempt(id, attempt, Cancelled, None);
      db.RecordEvent(id, CancelledEvent, Cancelled);
      db.EnqueueNotice(id, CancelledEvent, Cancelled, None, None, at);
      db.Leave(id, attempt);
    }

    /** The finalizer for an outcome, after whatever the other processes did while it was being decided. */
    method Commit(t: Ticket, outcome: Outcome) returns (committed: bool, ghost before: Table, ghost now: Time)
      requires Owned(db.cfg, db.rows, t, Ending(outcome)) && t.worker == worker
      modifies db, clock
      ensures Evolved(db.cfg, old(db.rows), before) && Owned(db.cfg, before, t, Ending(outcome))
      ensures old(clock.time) <= now <= clock.time
      ensures db.rows == before[t.id := Finalized(before[t.id], t.attempt, now)]
      ensures db.Valid() && Evolved(db.cfg, before, db.rows)
      ensures committed == (outcome.CommitFailure? && Finalizable(before[t.id].job, worker))
    {
      Interfere(t, Ending(outcome));
      before := db.rows;
      committed := false;
      match outcome {
        case CommitResult(result) => now := FinalizeSucceeded(t.id, t.attempt, result);
        case CommitFailure(code, deadLettered) =>
          committed, now := FinalizeFailed(t.id, t.attempt, code, deadLettered);
        case CommitRetry(code, at) => now := ScheduleRetry(t.id, t.attempt, code, at);
        case CommitCancel => now := FinalizeCancelled(t.id, t.attempt);
      }
      FinalizeIs(db.cfg, before, t, outcome, now);
    }

    /** `_handle_retryable` up to the finalizer it picks. */
    method DecideRetry(t: Ticket, code: string) returns (outcome: Outcome)
      requires Owned(db.cfg, db.rows, t, Erring(code))
      modifies db, clock
      ensures Owned(db.cfg, db.rows, t, Ending(outcome)) && Evolved(db.cfg, old(db.rows), db.rows)
      ensures Settles(db.cfg, t, Retryable(code), old(clock.time), clock.time, outcome)
      ensures outcome == CommitCancel <==> db.rows[t.id].job.cancellationRequestedAt.Some?
      ensures old(clock.time) <= clock.time
    {
      ghost var start := db.rows;
      Interfere(t, Erring(code));
      ghost var before := db.rows;
      var read := clock.Now();
      var requested := db.rows[t.id].job.cancellationRequestedAt.Some?;
      ghost var delay := 0.0;
      if requested {
        outcome := CommitCancel;
      } else if t.number >= t.spec.maxAttempts {
        outcome := CommitFailure(code, true);
      } else {
        var at := clock.Now();
        assert Draw(db.cfg, t.number, 0.0);
        var jitter: real :| Draw(db.cfg, t.number, jitter);
        var next := at + Delay(db.cfg, t.number, jitter);
        outcome := CommitRetry(code, next);
        delay := next - read;
        assert at == next - Delay(db.cfg, t.number, jitter);
      }
      Enter(t, Erring(code), Decide(delay), Ending(outcome), read);
      EvolvedOn(db.cfg, start, before, db.rows);
    }

    /** From the handler's end to the outcome about to be committed. */
    method Settle(t: Ticket, handled: Handled) returns (outcome: Outcome)
      requires Owned(db.cfg, db.rows, t, PhaseAfter(Some(handled)))
      modifies db, clock
      ensures Owned(db.cfg, db.rows, t, Ending(outcome)) && Evolved(db.cfg, old(db.rows), db.rows)
      ensures Settles(db.cfg, t, handled, old(clock.time), clock.time, outcome)
      ensures old(clock.time) <= clock.time
    {
      match handled
      case Returned(result) =>
        outcome := CommitResult(result);
        Enter(t, Executing, Return(result), Ending(outcome), clock.time);
      case Fatal(code) =>
        outcome := CommitFailure(code, false);
        Enter(t, Executing, RaiseFatal(code), Ending(outcome), clock.time);
      case CancelObserved =>
        outcome := CommitCancel;
        EvolvedItself(db.cfg, db.rows);
      case Retryable(code) =>
        ghost var start := db.rows;
        Enter(t, Executing, Raise(code), Erring(code), clock.time);
        ghost var before := db.rows;
        outcome := DecideRetry(t, code);
        EvolvedOn(db.cfg, start, before, db.rows);
    }

    /** Handler, decision and finalizer of a claimed attempt. */
    method RunAttempt(t: Ticket) returns (deadLetters: bool, ghost run: AttemptRun)
      requires Owned(db.cfg, db.rows, t, Executing) && t.worker == worker
      modifies this, db, clock
      ensures run.t == t && Ran(db.cfg, old(db.rows), run) && db.rows == run.After()
      ensures deadLetters == run.DeadLetters()
      ensures Called(db.cfg, t, run.handled, old(calls), calls)
      ensures old(clock.time) <= run.from <= run.to <= clock.time
      ensures db.Valid() && Evolved(db.cfg, old(db.rows), db.rows)
    {
      ghost var start := db.rows;
      var handled := Handle(t);
      ghost var handledRows, from := db.rows, clock.time;
      var outcome := Settle(t, handled);
      EvolvedOn(db.cfg, start, handledRows, db.rows);
      ghost var settledRows, to := db.rows, clock.time;
      ghost var before, now;
      var committed;
      committed, before, now := Commit(t, outcome);
      deadLetters := committed && outcome.deadLettered;
      run := AttemptRun(t, handled, from, to, outcome, before, now);
      EvolvedOn(db.cfg, start, settledRows, before);
      EvolvedOn(db.cfg, start, before, db.rows);
    }

    /** The push of a dead letter, once the others have acted after the commit, or nothing. */
    method PushLast(id: JobId, deadLetters: bool, ghost claimed: Table, ghost run: AttemptRun)
      returns (ghost resumed: World)
      requires db.Valid() && Wired() && Ran(db.cfg, claimed, run) && deadLetters == run.DeadLetters()
      requires db.rows == run.After() && run.t.id == id
      modifies db, queue, clock
      ensures old(clock.time) <= clock.time
      ensures db.Valid() && Acted(db.cfg, old(State(db, queue)), State(db, queue))
      ensures PushedLast(db.cfg, run, old(State(db, queue)), resumed, State(db, queue))
    {
      ghost var committed := State(db, queue);
      EvolvedItself(db.cfg, committed.rows);
      if !deadLetters {
        return committed;
      }
      RetryOutcome(db.cfg, claimed, run);
      others.Act();
      resumed := State(db, queue);
      FailedStays(db.cfg, committed.rows, resumed.rows, id);
      queue.DeadLetter(id);
      SendingActs(db.cfg, resumed, State(db, queue));
      ActedOn(db.cfg, committed, resumed, State(db, queue));
    }

    /**
     * False if the job is missing or not claimable, and then nothing has changed. A dead letter is pushed after
     * the commit, and after what the others did in between: `resumed` is what they left.
     */
    method Execute(id: JobId) returns (ran: bool, ghost run: Option<AttemptRun>, ghost resumed: World)
      requires db.Valid() && Wired()
      modifies this, db, queue, clock
      ensures db.Valid() && Acted(db.cfg, old(State(db, queue)), State(db, queue))
      ensures ran == run.Some? == (id in old(db.rows) && Claimable(old(db.rows)[id].job))
      ensures !ran ==> State(db, queue) == old(State(db, queue))
      ensures ran ==>
                && run.value.t == Ticket(id, |old(db.rows)[id].attempts|, old(db.rows)[id].job.attempts + 1, worker,
                                         old(db.rows)[id].job.spec)
                && (exists now :: old(clock.time) <= now
                      && Ran(db.cfg, old(db.rows)[id := ClaimedBy(db.cfg, old(db.rows)[id], worker, now)], run.value))
                && old(clock.time) <= run.value.from <= run.value.to <= clock.time
                && Called(db.cfg, run.value.t, run.value.handled, old(calls), calls)
                && PushedLast(db.cfg, run.value, old(State(db, queue)).(rows := run.value.After()), resumed,
                              State(db, queue))
    {
      ghost var start, now := State(db, queue), clock.time;
      resumed := start;
      var claim;
      claim, now := Claim(id);
      if claim.None? {
        RowsAct(db.cfg, start, State(db, queue));
        return false, None, resumed;
      }
      ghost var claimed := db.rows;
      ghost var attempt;
      var deadLetters;
      deadLetters, attempt := RunAttempt(claim.value);
      ghost var committed := State(db, queue);
      EvolvedOn(db.cfg, start.rows, claimed, db.rows);
      RowsAct(db.cfg, start, committed);
      resumed := PushLast(id, deadLetters, claimed, attempt);
      ActedOn(db.cfg, start, committed, State(db, queue));
      ran, run := true, Some(attempt);
    }
  }
}
