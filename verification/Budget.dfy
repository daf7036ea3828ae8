// How often a job can start, and how often its status can change, in any run.
module Budget {
  import opened Domain
  import opened JobRows
  import opened Traces
  import opened Lifecycle
  import opened Invariants
  import opened Safety
  import opened Flows

  function Below(ids: set<nat>, bound: int): set<nat> { set id | id in ids && id + 1 < bound }

  /** The running coroutines that may still schedule a retry: their number is below the limit. */
  function MayRetry(s: JobState): set<nat> { Below(s.live.Keys, s.job.spec.maxAttempts) }

  function Min(a: int, b: int): int { if a < b then a else b }

  /** Every start is paid for by the dispatch, a retry or a requeue, and both of those are limited. */
  predicate Budgeted(s: JobState) {
    var m, n := s.job.spec.maxAttempts, s.job.attempts;
    && m >= 1
    && Retries(s) + |MayRetry(s)| <= Min(n, m - 1)
    && Requeues(s) <= m - 1
    && Requeues(s) + (if s.job.status.Running? then 1 else 0) <= n
    && (if s.job.status.Pending? then n == 0
        else n + (if Waiting(s) then 1 else 0) <= 1 + Retries(s) + Requeues(s))
  }

  lemma BelowSubset(a: set<nat>, b: set<nat>, bound: int)
    requires a <= b
    ensures |Below(a, bound)| <= |Below(b, bound)|
  {
    assert Below(b, bound) == Below(a, bound) + (Below(b, bound) - Below(a, bound));
  }

  lemma BelowAdded(a: set<nat>, id: nat, bound: int)
    requires id !in a
    ensures |Below(a + {id}, bound)| == |Below(a, bound)| + (if id + 1 < bound then 1 else 0)
  {
    assert Below(a + {id}, bound) == Below(a, bound) + if id + 1 < bound then {id} else {};
  }

  lemma BelowRemoved(a: set<nat>, id: nat, bound: int)
    requires id in a && id + 1 < bound
    ensures |Below(a - {id}, bound)| == |Below(a, bound)| - 1
  {
    assert Below(a - {id}, bound) == Below(a, bound) - {id};
  }

  lemma BudgetedFlow(s: JobState, s': JobState, flow: Flow)
    requires Budgeted(s) && Follows(s, s', flow)
    ensures Budgeted(s')
  {
    var ids, m := s.live.Keys, s.job.spec.maxAttempts;
    match flow
    case Start => BelowAdded(ids, s.job.attempts, m);
    case RetryBy(id) => BelowRemoved(ids, id, m);
    case _ => BelowSubset(s'.live.Keys, ids, m);
  }

  lemma AlwaysBudgeted(cfg: Settings, s: JobState, trace: seq<Stamped>)
    requires Inv(cfg, s) && Budgeted(s)
    ensures Inv(cfg, After(cfg, s, trace)) && Budgeted(After(cfg, s, trace))
  {
    var f, inv := Stepper(cfg), (t: JobState) => Inv(cfg, t) && Budgeted(t);
    forall t: JobState, e: Stamped | inv(t) ensures inv(f(t, e)) {
      StepKeeps(cfg, t, e.now, e.action);
      var flow := StepFlow(cfg, t, e.now, e.action);
      BudgetedFlow(t, f(t, e), flow);
    }
    FoldInvariant(f, s, trace, inv);
  }

  lemma SubmittedBudgeted(spec: JobSpec)
    requires spec.maxAttempts >= 1
    ensures Budgeted(Submitted(spec))
  {
    assert Submitted(spec).events == [] + [Event(SubmittedEvent, Pending)];
    Appended([], Event(SubmittedEvent, Pending));
    assert MayRetry(Submitted(spec)) == {};
  }

  /** Lost leases and shared worker ids included, a job starts at most 2 * max_attempts - 1 times. */
  lemma AttemptBudget(cfg: Settings, spec: JobSpec, trace: seq<Stamped>)
    requires spec.maxAttempts >= 1
    ensures After(cfg, Submitted(spec), trace).job.attempts <= 2 * spec.maxAttempts - 1
  {
    SubmittedInv(cfg, spec);
    SubmittedBudgeted(spec);
    AlwaysBudgeted(cfg, Submitted(spec), trace);
    SpecForever(cfg, Submitted(spec), trace);
  }

  // ---------- termination

  /** An upper bound on the status changes still to come. */
  function Potential(s: JobState): int {
    var retries := s.job.spec.maxAttempts - 1 - Retries(s);
    var requeues := s.job.spec.maxAttempts - 1 - Requeues(s);
    match s.job.status
    case Pending => 3 * retries + 2 * requeues + 4
    case Queued => 3 * retries + 2 * requeues + 3
    case Running => 3 * retries + 2 * requeues + 2
    case Retrying => 3 * retries + 2 * requeues + 4
    case Cancelling => 1
    case _ => 0
  }

  /** The potential drops at every status change and never rises. */
  lemma PotentialFlow(s: JobState, s': JobState, flow: Flow)
    requires Budgeted(s) && Follows(s, s', flow)
    ensures if s'.job.status == s.job.status then Potential(s') == Potential(s) else Potential(s') < Potential(s)
  {
    assert Potential(s) >= 0;
  }

  function StatusOf(): JobState -> Status { (s: JobState) => s.job.status }

  /** The number of steps of a trace that change the status. */
  function Changes(cfg: Settings, s: JobState, trace: seq<Stamped>): nat {
    KeyChanges(Stepper(cfg), StatusOf(), s, trace)
  }

  lemma {:induction false} ChangesBounded(cfg: Settings, s: JobState, trace: seq<Stamped>)
    requires Inv(cfg, s) && Budgeted(s)
    ensures Changes(cfg, s, trace) + Potential(After(cfg, s, trace)) <= Potential(s)
    decreases |trace|
  {
    if trace != [] {
      var n := |trace| - 1;
      ChangesBounded(cfg, s, trace[..n]);
      AlwaysBudgeted(cfg, s, trace[..n]);
      var before := After(cfg, s, trace[..n]);
      var flow := StepFlow(cfg, before, trace[n].now, trace[n].action);
      PotentialFlow(before, After(cfg, s, trace), flow);
    }
  }

  /** In any run a job changes its status at most 5 * max_attempts - 1 times. */
  lemma StatusChangeBudget(cfg: Settings, spec: JobSpec, trace: seq<Stamped>)
    requires spec.maxAttempts >= 1
    ensures Changes(cfg, Submitted(spec), trace) <= 5 * spec.maxAttempts - 1
  {
    var s := Submitted(spec);
    SubmittedInv(cfg, spec);
    SubmittedBudgeted(spec);
    ChangesBounded(cfg, s, trace);
    AlwaysBudgeted(cfg, s, trace);
    assert s.events == [] + [Event(SubmittedEvent, Pending)];
    Appended([], Event(SubmittedEvent, Pending));
  }

  // ---------- worker ids that are not shared

  /** No worker id has two running coroutines of the job. */
  predicate Unshared(s: JobState) {
    forall i, j :: i in s.live && j in s.live && s.live[i].worker == s.live[j].worker ==> i == j
  }

  /** Starts stay within the limit, and only the newest coroutine carries the owner's id. */
  predicate Limited(s: JobState) {
    && s.job.attempts <= s.job.spec.maxAttempts
    && (s.job.status.Pending? || Waiting(s) ==> s.job.attempts < s.job.spec.maxAttempts)
    && (forall id :: id in s.live && s.job.lockedBy == Some(s.live[id].worker) ==> id + 1 == s.job.attempts)
  }

  lemma LimitedFinalizer(cfg: Settings, s: JobState, now: Time, id: nat)
    requires Inv(cfg, s) && Limited(s) && id in s.live && s.live[id].phase.Ending?
    ensures Limited(Finalized(s, id, now))
  {
    assert LiveShape(s, id);
  }

  lemma LimitedRun(cfg: Settings, s: JobState, now: Time, id: nat, move: Move)
    requires Inv(cfg, s) && Limited(s) && id in s.live
    ensures Limited(RunStep(cfg, s, now, id, move))
  {
    if move.Finalize? && s.live[id].phase.Ending? {
      LimitedFinalizer(cfg, s, now, id);
    }
  }

  lemma LimitedStep(cfg: Settings, s: JobState, now: Time, a: Action)
    requires Inv(cfg, s) && Limited(s) && Unshared(Step(cfg, s, now, a))
    ensures Limited(Step(cfg, s, now, a))
  {
    if a.Run? && a.attempt in s.live {
      LimitedRun(cfg, s, now, a.attempt, a.move);
    } else if a.Claim? {
      var s' := ClaimedBy(cfg, s, a.worker, now);
      assert Unshared(s');
      assert Claimable(s.job) ==> |s.attempts| in s'.live && s'.live[|s.attempts|].worker == a.worker;
    }
  }

  /** Every state along the run has unshared worker ids. */
  predicate AlwaysUnshared(cfg: Settings, s: JobState, trace: seq<Stamped>) {
    forall i :: 0 <= i <= |trace| ==> Unshared(After(cfg, s, trace[..i]))
  }

  lemma {:induction false} LimitedRuns(cfg: Settings, s: JobState, trace: seq<Stamped>)
    requires Inv(cfg, s) && Limited(s) && AlwaysUnshared(cfg, s, trace)
    ensures Limited(After(cfg, s, trace))
    decreases |trace|
  {
    if trace != [] {
      var n := |trace| - 1;
      assert forall i :: 0 <= i <= n ==> trace[..n][..i] == trace[..i];
      LimitedRuns(cfg, s, trace[..n]);
      AlwaysInv(cfg, s, trace[..n]);
      assert trace[..|trace|] == trace;
      LimitedStep(cfg, After(cfg, s, trace[..n]), trace[n].now, trace[n].action);
    }
  }

  /** A job starts at most max_attempts times when no worker id ever has two of its attempts live. */
  lemma AttemptLimit(cfg: Settings, spec: JobSpec, trace: seq<Stamped>)
    requires spec.maxAttempts >= 1 && AlwaysUnshared(cfg, Submitted(spec), trace)
    ensures After(cfg, Submitted(spec), trace).job.attempts <= spec.maxAttempts
  {
    SubmittedInv(cfg, spec);
    LimitedRuns(cfg, Submitted(spec), trace);
    SpecForever(cfg, Submitted(spec), trace);
  }

  // ---------- a limited number of coroutines

  /** Never more than `c` coroutines of the job alive at once. */
  predicate NeverMore(cfg: Settings, s: JobState, trace: seq<Stamped>, c: nat) {
    forall i :: 0 <= i <= |trace| ==> |After(cfg, s, trace[..i]).live| <= c
  }

  /** From the limit on, every further start uses up a coroutine that was alive when it was reached. */
  predicate Spent(s: JobState, c: nat) {
    var m, n := s.job.spec.maxAttempts, s.job.attempts;
    n >= m ==> n + |MayRetry(s)| + (if Waiting(s) then 1 else 0) <= m + c - 1
  }

  lemma BelowAllButNewest(ids: set<nat>, newest: nat, bound: int)
    requires newest in ids && newest + 1 >= bound
    ensures |Below(ids, bound)| <= |ids| - 1
  {
    var others := ids - {newest};
    assert others == Below(ids, bound) + (others - Below(ids, bound));
  }

  lemma SpentFlow(s: JobState, s': JobState, flow: Flow, c: nat)
    requires Follows(s, s', flow) && Spent(s, c) && |s'.live| <= c && s.job.spec.maxAttempts >= 1
    requires s.job.status.Pending? ==> s.job.attempts == 0
    ensures Spent(s', c)
  {
    var ids, m := s.live.Keys, s.job.spec.maxAttempts;
    match flow
    case Start =>
      BelowAdded(ids, s.job.attempts, m);
      if s'.job.attempts >= m {
        BelowAllButNewest(s'.live.Keys, s.job.attempts, m);
      }
    case RetryBy(id) => BelowRemoved(ids, id, m);
    case _ => BelowSubset(s'.live.Keys, ids, m);
  }

  lemma {:induction false} SpentRuns(cfg: Settings, s: JobState, trace: seq<Stamped>, c: nat)
    requires Inv(cfg, s) && Spent(s, c) && NeverMore(cfg, s, trace, c)
    ensures Inv(cfg, After(cfg, s, trace)) && Spent(After(cfg, s, trace), c)
    decreases |trace|
  {
    AlwaysInv(cfg, s, trace);
    if trace != [] {
      var n := |trace| - 1;
      assert forall i :: 0 <= i <= n ==> trace[..n][..i] == trace[..i];
      SpentRuns(cfg, s, trace[..n], c);
      var before := After(cfg, s, trace[..n]);
      assert trace[..|trace|] == trace;
      var flow := StepFlow(cfg, before, trace[n].now, trace[n].action);
      SpentFlow(before, After(cfg, s, trace), flow, c);
    }
  }

  /** With at most c coroutines of the job alive at once, it starts at most max_attempts + c - 1 times. */
  lemma ConcurrencyBudget(cfg: Settings, spec: JobSpec, trace: seq<Stamped>, c: nat)
    requires spec.maxAttempts >= 1 && c >= 1 && NeverMore(cfg, Submitted(spec), trace, c)
    ensures After(cfg, Submitted(spec), trace).job.attempts <= spec.maxAttempts + c - 1
  {
    SubmittedInv(cfg, spec);
    SpentRuns(cfg, Submitted(spec), trace, c);
    SpecForever(cfg, Submitted(spec), trace);
  }
}
