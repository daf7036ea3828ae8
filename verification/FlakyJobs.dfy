// A flaky job from submission to its end (backend/app/domain/job_catalog.py), run through claim,
// retry and promotion without a cancel, an expiry or a lost lease.
module FlakyJobs {
  import opened Domain
  import opened JobRows
  import opened Traces
  import opened Lifecycle
  import opened Safety
  import opened Execution

  /**
   * A step that neither cancels, expires, reaps nor crashes, and whose handlers do what they intend; a flaky
   * handler does not look at the job's id.
   */
  predicate Calm(cfg: Settings, s: JobState, e: Stamped) {
    match e.action
    case RequestCancel => false
    case Scheduled(ExpireStale) => !Stale(s.job, StaleCutoff(cfg, e.now))
    case Scheduled(ReapLease) => !LeaseExpired(s.job, e.now)
    case Run(id, Drop) => false
    case Run(id, RaiseFatal(_)) => false
    case Run(id, Raise(code)) => Intends(cfg, 0, s, id, Retryable(code))
    case Run(id, Return(result)) => Intends(cfg, 0, s, id, Returned(result))
    case _ => true
  }

  predicate CalmRun(cfg: Settings, s: JobState, trace: seq<Stamped>) {
    forall i :: 0 <= i < |trace| ==> Calm(cfg, After(cfg, s, trace[..i]), trace[i])
  }

  /** The outcome the job ends with: the attempt after its failures, or failure when they use up all. */
  predicate FlakyEnd(f: nat, j: Job) {
    if f < j.spec.maxAttempts then
      j.status.Succeeded? && j.attempts == f + 1 && j.result == Some(SucceededOnAttempt(f + 1))
    else
      j.status.Failed? && j.attempts == j.spec.maxAttempts && j.deadLetteredAt.Some?
  }

  /** The phases a flaky attempt goes through. */
  predicate FlakyPhase(f: nat, j: Job, number: nat, phase: Phase) {
    match phase
    case Executing => true
    case Erring(_) => number <= f
    case Ending(CommitResult(result)) => number > f && result == SucceededOnAttempt(number)
    case Ending(CommitFailure(_, deadLettered)) => number <= f && number == j.spec.maxAttempts && deadLettered
    case Ending(CommitRetry(_, _)) => number <= f && number < j.spec.maxAttempts
    case Ending(CommitCancel) => false
  }

  /** Every attempt but a running one has failed, and the running one owns the row. */
  predicate Undisturbed(f: nat, s: JobState) {
    var j := s.job;
    && j.spec.payload == Flaky(f) && j.spec.maxAttempts >= 1 && j.cancellationRequestedAt.None?
    && |s.attempts| == j.attempts
    && match j.status
       case Pending => j.attempts == 0 && !s.published && s.live == map[]
       case Queued => s.published && j.attempts <= f && j.attempts < j.spec.maxAttempts && s.live == map[]
       case Retrying =>
         s.published && j.attempts <= f && j.attempts < j.spec.maxAttempts && s.live == map[] && j.nextAttemptAt.Some?
       case Running =>
         && s.published && 1 <= j.attempts <= f + 1 && j.attempts <= j.spec.maxAttempts
         && s.live.Keys == {j.attempts - 1}
         && s.live[j.attempts - 1].number == j.attempts
         && j.lockedBy == Some(s.live[j.attempts - 1].worker)
         && FlakyPhase(f, j, j.attempts, s.live[j.attempts - 1].phase)
       case _ => s.published && FlakyEnd(f, j) && s.live == map[]
  }

  lemma UndisturbedRun(cfg: Settings, f: nat, s: JobState, now: Time, id: nat, move: Move)
    requires Undisturbed(f, s) && id in s.live && Calm(cfg, s, At(now, Run(id, move)))
    ensures Undisturbed(f, RunStep(cfg, s, now, id, move))
  {
    assert s.live.Keys == {id};
  }

  lemma UndisturbedStep(cfg: Settings, f: nat, s: JobState, e: Stamped)
    requires Undisturbed(f, s) && Calm(cfg, s, e)
    ensures Undisturbed(f, Step(cfg, s, e.now, e.action))
  {
    match e.action
    case Run(id, move) => if id in s.live { UndisturbedRun(cfg, f, s, e.now, id, move); }
    case _ =>
  }

  lemma CalmPrefix(cfg: Settings, s: JobState, trace: seq<Stamped>, n: nat)
    requires n <= |trace| && CalmRun(cfg, s, trace)
    ensures CalmRun(cfg, s, trace[..n])
  {
    forall i | 0 <= i < n ensures Calm(cfg, After(cfg, s, trace[..n][..i]), trace[..n][i]) {
      assert trace[..n][..i] == trace[..i];
    }
  }

  lemma {:induction false} UndisturbedRuns(cfg: Settings, f: nat, s: JobState, trace: seq<Stamped>)
    requires Undisturbed(f, s) && CalmRun(cfg, s, trace)
    ensures Undisturbed(f, After(cfg, s, trace))
  {
    if trace != [] {
      var n := |trace| - 1;
      CalmPrefix(cfg, s, trace, n);
      UndisturbedRuns(cfg, f, s, trace[..n]);
      UndisturbedStep(cfg, f, After(cfg, s, trace[..n]), trace[n]);
    }
  }

  /** Whatever the interleaving and the delays, a calm run that ends the job ends it one way. */
  lemma FlakyOutcome(cfg: Settings, spec: JobSpec, f: nat, trace: seq<Stamped>)
    requires spec.payload == Flaky(f) && spec.maxAttempts >= 1 && CalmRun(cfg, Submitted(spec), trace)
    ensures var j := After(cfg, Submitted(spec), trace).job;
            && j.spec == spec && j.attempts <= f + 1 && j.attempts <= spec.maxAttempts
            && (j.status.Terminal() ==> FlakyEnd(f, j))
  {
    SpecForever(cfg, Submitted(spec), trace);
    UndisturbedRuns(cfg, f, Submitted(spec), trace);
  }

  // ---------- the job can always be brought to its end

  function Rank(phase: Phase): nat {
    match phase
    case Executing => 4
    case Erring(_) => 3
    case Ending(_) => 2
  }

  /** What is still to be done: attempts left, then the place in the current one. */
  function ToDo(f: nat, s: JobState): nat
    requires Undisturbed(f, s)
  {
    var left := 5 * (s.job.spec.maxAttempts - s.job.attempts);
    match s.job.status
    case Pending => left + 1
    case Queued => left
    case Retrying => left + 1
    case Running => left + Rank(s.live[s.job.attempts - 1].phase)
    case _ => 0
  }

  /** The step of the scheduler or of the worker that is next for the job, at `t` or when it is due. */
  function Next(f: nat, s: JobState, t: Time): Stamped
    requires Undisturbed(f, s)
  {
    match s.job.status
    case Pending => At(t, Scheduled(DispatchRow))
    case Queued => At(t, Claim(""))
    case Retrying => At(if t < s.job.nextAttemptAt.value then s.job.nextAttemptAt.value else t, Scheduled(PromoteRetry))
    case Running =>
      var k := s.job.attempts - 1;
      (match s.live[k].phase
       case Executing => At(t, Run(k, if k < f then Raise(TRANSIENT_CODE) else Return(SucceededOnAttempt(k + 1))))
       case Erring(_) => At(t, Run(k, Decide(0.0)))
       case Ending(_) => At(t, Run(k, Finalize)))
    case _ => At(t, RequestCancel)
  }

  lemma FlakyProgress(cfg: Settings, f: nat, s: JobState, t: Time)
    requires Undisturbed(f, s) && !s.job.status.Terminal()
    ensures var e := Next(f, s, t);
            var s' := Step(cfg, s, e.now, e.action);
            t <= e.now && Calm(cfg, s, e) && Undisturbed(f, s') && s'.job.spec == s.job.spec
            && ToDo(f, s') < ToDo(f, s)
  {
    UndisturbedStep(cfg, f, s, Next(f, s, t));
  }

  lemma AfterCons(cfg: Settings, s: JobState, e: Stamped, rest: seq<Stamped>)
    ensures After(cfg, s, [e] + rest) == After(cfg, Step(cfg, s, e.now, e.action), rest)
  {
    FoldSnoc(Stepper(cfg), s, [], e);
    assert [] + [e] == [e];
    FoldConcat(Stepper(cfg), s, [e], rest);
  }

  lemma CalmCons(cfg: Settings, s: JobState, e: Stamped, s': JobState, rest: seq<Stamped>)
    requires Calm(cfg, s, e) && s' == Step(cfg, s, e.now, e.action) && CalmRun(cfg, s', rest)
    ensures CalmRun(cfg, s, [e] + rest)
  {
    var trace := [e] + rest;
    forall i | 0 <= i < |trace| ensures Calm(cfg, After(cfg, s, trace[..i]), trace[i]) {
      if i > 0 {
        assert trace[..i] == [e] + rest[..i - 1];
        AfterCons(cfg, s, e, rest[..i - 1]);
      }
    }
  }

  /** From any undisturbed state, and so from any calm run, the job can be brought to its end. */
  lemma {:induction false} FlakyFinishes(cfg: Settings, f: nat, s: JobState, t: Time) returns (trace: seq<Stamped>)
    requires Undisturbed(f, s)
    ensures CalmRun(cfg, s, trace) && After(cfg, s, trace).job.status.Terminal()
    ensures After(cfg, s, trace).job.spec == s.job.spec && FlakyEnd(f, After(cfg, s, trace).job)
    ensures forall i :: 0 <= i < |trace| ==> t <= trace[i].now
    ensures forall i, j :: 0 <= i < j < |trace| ==> trace[i].now <= trace[j].now
    decreases ToDo(f, s)
  {
    trace := [];
    if !s.job.status.Terminal() {
      FlakyProgress(cfg, f, s, t);
      var e := Next(f, s, t);
      var s' := Step(cfg, s, e.now, e.action);
      var rest := FlakyFinishes(cfg, f, s', e.now);
      trace := [e] + rest;
      AfterCons(cfg, s, e, rest);
      CalmCons(cfg, s, e, s', rest);
    }
  }
}
