// Runs that show the bounds and the transition relation of the other modules are exact.
module Witnesses {
  import opened Domain
  import opened StateMachine
  import opened JobRows
  import opened Traces
  import opened Lifecycle
  import opened Invariants
  import opened Safety
  import opened Flows
  import opened Budget

  function TimeOf(): Stamped -> real { (e: Stamped) => e.now }

  predicate Monotone(trace: seq<Stamped>) {
    forall i, j :: 0 <= i < j < |trace| ==> trace[i].now <= trace[j].now
  }

  /**
   * A run from submission: its steps, the state and time it leads to, its status changes, and the most
   * coroutines of the job it has alive at once.
   */
  datatype Path = Path(trace: seq<Stamped>, end: JobState, now: Time, changes: nat, most: nat)

  ghost predicate Leads(cfg: Settings, spec: JobSpec, p: Path) {
    && RunTo(Stepper(cfg), StatusOf(), TimeOf(), Submitted(spec), p.trace, p.end, p.now, p.changes)
    && NeverMore(cfg, Submitted(spec), p.trace, p.most)
  }

  function Max(a: nat, b: nat): nat { if a < b then b else a }

  lemma MoreOf(cfg: Settings, init: JobState, trace: seq<Stamped>, e: Stamped, s: JobState, most: nat)
    requires NeverMore(cfg, init, trace, most) && s == Stepper(cfg)(After(cfg, init, trace), e)
    ensures NeverMore(cfg, init, trace + [e], Max(most, |s.live|))
  {
    var more := trace + [e];
    FoldSnoc(Stepper(cfg), init, trace, e);
    forall i | 0 <= i <= |more| ensures |After(cfg, init, more[..i]).live| <= Max(most, |s.live|) {
      if i <= |trace| {
        assert more[..i] == trace[..i];
      } else {
        assert more[..i] == more;
      }
    }
  }

  lemma SubmittedPath(cfg: Settings, spec: JobSpec) returns (p: Path)
    ensures p == Path([], Submitted(spec), spec.createdAt, 0, 0) && Leads(cfg, spec, p)
  {
    p := Path([], Submitted(spec), spec.createdAt, 0, 0);
    assert forall i :: 0 <= i <= |p.trace| ==> p.trace[..i] == [];
    assert After(cfg, Submitted(spec), []) == Submitted(spec);
  }

  lemma Advance(cfg: Settings, spec: JobSpec, p: Path, e: Stamped, s: JobState) returns (p': Path)
    requires Leads(cfg, spec, p) && p.now <= e.now && s == Stepper(cfg)(p.end, e)
    ensures Leads(cfg, spec, p') && p'.end == s && p'.now == e.now
    ensures p'.changes == p.changes + if s.job.status == p.end.job.status then 0 else 1
    ensures p'.most == Max(p.most, |s.live|)
  {
    MoreOf(cfg, Submitted(spec), p.trace, e, s, p.most);
    RunToNext(Stepper(cfg), StatusOf(), TimeOf(), Submitted(spec), p.trace, p.end, p.now, p.changes, e, s);
    p' := Path(p.trace + [e], s, e.now, p.changes + if s.job.status == p.end.job.status then 0 else 1,
               Max(p.most, |s.live|));
  }

  lemma PassIs(cfg: Settings, s: JobState, t: Time)
    ensures Stepper(cfg)(s, At(t, Scheduled(DispatchRow))) == Dispatched(s, t)
    ensures Stepper(cfg)(s, At(t, Scheduled(PromoteRetry))) == Promoted(s, t)
    ensures Stepper(cfg)(s, At(t, Scheduled(ReapLease))) == Reaped(s, t)
    ensures Stepper(cfg)(s, At(t, Scheduled(ExpireStale))) == ExpiredIfStale(cfg, s, t)
  {
  }

  lemma AskIs(cfg: Settings, s: JobState, t: Time, w: WorkerId)
    ensures Stepper(cfg)(s, At(t, RequestCancel)) == CancelAsked(s, t)
    ensures Stepper(cfg)(s, At(t, Claim(w))) == ClaimedBy(cfg, s, w, t)
  {
  }

  lemma MoveIs(cfg: Settings, s: JobState, t: Time, id: nat, move: Move)
    requires id in s.live && (move.Return? || move.Raise? || move.RaiseFatal? || move.ObserveCancel? || move.Decide?)
    ensures Stepper(cfg)(s, At(t, Run(id, move))) == InPhase(s, id, NextPhase(s.job, s.live[id], move, t))
  {
  }

  lemma CommitIs(cfg: Settings, s: JobState, t: Time, id: nat)
    requires id in s.live && s.live[id].phase.Ending?
    ensures Stepper(cfg)(s, At(t, Run(id, Finalize))) == Finalized(s, id, t)
  {
  }

  // ---------- the start and status-change budgets are attained

  /** RUNNING for worker `w` in attempt `n`, with exactly the attempts `lo` to `n - 1` still executing, all for `w`. */
  predicate Crowded(cfg: Settings, spec: JobSpec, s: JobState, w: WorkerId, lo: nat, n: nat, now: Time) {
    && s.job.spec == spec
    && s.job.status.Running? && s.job.attempts == n == |s.attempts| && s.job.lockedBy == Some(w)
    && s.job.cancellationRequestedAt.None?
    && s.job.lockExpiresAt == Some(now + cfg.leaseSeconds)
    && (forall id :: lo <= id < n ==>
          id in s.live && s.live[id].number == id + 1 && s.live[id].worker == w && s.live[id].phase.Executing?)
    && (forall id :: id in s.live ==> lo <= id < n)
  }

  /** The ids `lo` up to, not including, `n`. */
  function Ids(lo: nat, n: nat): set<nat> { if lo < n then Ids(lo, n - 1) + {n - 1} else {} }

  lemma {:induction false} IdsAre(lo: nat, n: nat)
    requires lo <= n
    ensures |Ids(lo, n)| == n - lo && forall id :: id in Ids(lo, n) <==> lo <= id < n
    decreases n
  {
    if lo < n {
      IdsAre(lo, n - 1);
    }
  }

  lemma CrowdSize(cfg: Settings, spec: JobSpec, s: JobState, w: WorkerId, lo: nat, n: nat, now: Time)
    requires lo <= n && Crowded(cfg, spec, s, w, lo, n, now)
    ensures |s.live| == n - lo
  {
    IdsAre(lo, n);
    assert s.live.Keys == Ids(lo, n);
  }

  function Patience(cfg: Settings): real { if cfg.leaseSeconds > 0.0 then cfg.leaseSeconds + 1.0 else 1.0 }

  lemma FirstCrowd(cfg: Settings, spec: JobSpec, w: WorkerId)
    ensures var t := spec.createdAt;
            var s1 := Dispatched(Submitted(spec), t);
            s1.job.status.Queued? && Crowded(cfg, spec, ClaimedBy(cfg, s1, w, t), w, 0, 1, t)
  {
  }

  lemma FirstStart(cfg: Settings, spec: JobSpec, w: WorkerId) returns (p: Path)
    ensures Leads(cfg, spec, p) && p.changes == 2 && p.most == 1 && Crowded(cfg, spec, p.end, w, 0, 1, p.now)
  {
    var t, s := spec.createdAt, Submitted(spec);
    p := SubmittedPath(cfg, spec);
    FirstCrowd(cfg, spec, w);
    PassIs(cfg, s, t);
    AskIs(cfg, Dispatched(s, t), t, w);
    p := Advance(cfg, spec, p, At(t, Scheduled(DispatchRow)), Dispatched(s, t));
    p := Advance(cfg, spec, p, At(t, Claim(w)), ClaimedBy(cfg, Dispatched(s, t), w, t));
    CrowdSize(cfg, spec, p.end, w, 0, 1, t);
  }

  lemma NextCrowd(cfg: Settings, spec: JobSpec, s: JobState, w: WorkerId, lo: nat, n: nat, now: Time, later: Time)
    requires Crowded(cfg, spec, s, w, lo, n, now) && lo <= n < spec.maxAttempts && later == now + Patience(cfg)
    ensures Reaped(s, later).job.status.Queued? && Reaped(s, later).live == s.live
    ensures Crowded(cfg, spec, ClaimedBy(cfg, Reaped(s, later), w, later), w, lo, n + 1, later)
  {
  }

  lemma LoseLease(cfg: Settings, spec: JobSpec, p: Path, w: WorkerId, lo: nat, n: nat) returns (p': Path)
    requires Leads(cfg, spec, p) && Crowded(cfg, spec, p.end, w, lo, n, p.now) && lo <= n < spec.maxAttempts
    ensures Leads(cfg, spec, p') && Crowded(cfg, spec, p'.end, w, lo, n + 1, p'.now)
    ensures p'.changes == p.changes + 2 && p'.most == Max(p.most, n + 1 - lo)
  {
    var later := p.now + Patience(cfg);
    var s1 := Reaped(p.end, later);
    NextCrowd(cfg, spec, p.end, w, lo, n, p.now, later);
    PassIs(cfg, p.end, later);
    AskIs(cfg, s1, later, w);
    CrowdSize(cfg, spec, p.end, w, lo, n, p.now);
    p' := Advance(cfg, spec, p, At(later, Scheduled(ReapLease)), s1);
    p' := Advance(cfg, spec, p', At(later, Claim(w)), ClaimedBy(cfg, s1, w, later));
    CrowdSize(cfg, spec, p'.end, w, lo, n + 1, later);
  }

  /** The first `lo` attempts fail and are retried in turn. */
  lemma {:induction false} FairRetries(cfg: Settings, spec: JobSpec, w: WorkerId, lo: nat) returns (p: Path)
    requires lo < spec.maxAttempts
    ensures Leads(cfg, spec, p) && Crowded(cfg, spec, p.end, w, lo, lo + 1, p.now)
    ensures p.changes == 2 + 3 * lo && p.most == 1
  {
    if lo == 0 {
      p := FirstStart(cfg, spec, w);
    } else {
      p := FairRetries(cfg, spec, w, lo - 1);
      p := RetryAndRestart(cfg, spec, p, w, lo - 1, lo);
    }
  }

  /** Then every lease up to the limit is lost, and none of those attempts has noticed. */
  lemma {:induction false} LoseLeases(cfg: Settings, spec: JobSpec, w: WorkerId, lo: nat, n: nat) returns (p: Path)
    requires lo < n <= spec.maxAttempts
    ensures Leads(cfg, spec, p) && Crowded(cfg, spec, p.end, w, lo, n, p.now)
    ensures p.changes == lo + 2 * n && p.most == n - lo
  {
    if n == lo + 1 {
      p := FairRetries(cfg, spec, w, lo);
    } else {
      p := LoseLeases(cfg, spec, w, lo, n - 1);
      p := LoseLease(cfg, spec, p, w, lo, n - 1);
    }
  }

  /** The owner id's oldest attempt, about to retry, in a crowded state. */
  function AboutToRetry(s: JobState, lo: nat, now: Time): JobState
    requires lo in s.live
  {
    InPhase(s, lo, Ending(CommitRetry("", now + 0.0)))
  }

  lemma RetryChoice(cfg: Settings, spec: JobSpec, s: JobState, w: WorkerId, lo: nat, n: nat, now: Time)
    requires Crowded(cfg, spec, s, w, lo, n, now) && lo < n && lo + 1 < spec.maxAttempts
    ensures NextPhase(s.job, s.live[lo], Raise(""), now) == Erring("")
    ensures var s1 := InPhase(s, lo, Erring(""));
            InPhase(s1, lo, NextPhase(s1.job, s1.live[lo], Decide(0.0), now)) == AboutToRetry(s, lo, now)
  {
  }

  /** A running coroutine fails, sees no cancel request and room to retry, and picks the retry. */
  lemma FailForRetry(cfg: Settings, spec: JobSpec, p: Path, w: WorkerId, lo: nat, n: nat) returns (p': Path)
    requires Leads(cfg, spec, p) && Crowded(cfg, spec, p.end, w, lo, n, p.now)
    requires lo < n && lo + 1 < spec.maxAttempts
    ensures Leads(cfg, spec, p') && p'.now == p.now && p'.changes == p.changes
    ensures p'.end == AboutToRetry(p.end, lo, p.now) && p'.most == Max(p.most, n - lo)
  {
    CrowdSize(cfg, spec, p.end, w, lo, n, p.now);
    var s1 := InPhase(p.end, lo, Erring(""));
    RetryChoice(cfg, spec, p.end, w, lo, n, p.now);
    MoveIs(cfg, p.end, p.now, lo, Raise(""));
    MoveIs(cfg, s1, p.now, lo, Decide(0.0));
    p' := Advance(cfg, spec, p, At(p.now, Run(lo, Raise(""))), s1);
    p' := Advance(cfg, spec, p', At(p.now, Run(lo, Decide(0.0))), AboutToRetry(p.end, lo, p.now));
  }

  lemma RestartedCrowd(cfg: Settings, spec: JobSpec, s: JobState, w: WorkerId, lo: nat, n: nat, t: Time)
    requires Crowded(cfg, spec, s, w, lo, n, t) && lo < n && lo + 1 < spec.maxAttempts
    ensures var s1 := AboutToRetry(s, lo, t);
            var s2 := CommittedRetry(s1, lo, "", t + 0.0);
            var s3 := Promoted(s2, t);
            && s2 == Finalized(s1, lo, t) && s2.job.status.Retrying? && s3.job.status.Queued?
            && s3.live == s2.live == s1.live - {lo}
            && Crowded(cfg, spec, ClaimedBy(cfg, s3, w, t), w, lo + 1, n + 1, t)
  {
  }

  /** The oldest attempt, sharing the owner's id, takes the row from the newest; the job starts again. */
  lemma RetryAndRestart(cfg: Settings, spec: JobSpec, p: Path, w: WorkerId, lo: nat, n: nat) returns (p': Path)
    requires Leads(cfg, spec, p) && Crowded(cfg, spec, p.end, w, lo, n, p.now)
    requires lo < n && lo + 1 < spec.maxAttempts
    ensures Leads(cfg, spec, p') && Crowded(cfg, spec, p'.end, w, lo + 1, n + 1, p'.now)
    ensures p'.changes == p.changes + 3 && p'.most == Max(p.most, n - lo)
  {
    var t := p.now;
    var s1 := AboutToRetry(p.end, lo, t);
    var s2 := CommittedRetry(s1, lo, "", t + 0.0);
    var s3 := Promoted(s2, t);
    RestartedCrowd(cfg, spec, p.end, w, lo, n, t);
    CommitIs(cfg, s1, t, lo);
    PassIs(cfg, s2, t);
    AskIs(cfg, s3, t, w);
    CrowdSize(cfg, spec, p.end, w, lo, n, t);
    p' := FailForRetry(cfg, spec, p, w, lo, n);
    assert s2.live.Keys == p.end.live.Keys - {lo};
    p' := Advance(cfg, spec, p', At(t, Run(lo, Finalize)), s2);
    p' := Advance(cfg, spec, p', At(t, Scheduled(PromoteRetry)), s3);
    p' := Advance(cfg, spec, p', At(t, Claim(w)), ClaimedBy(cfg, s3, w, t));
    CrowdSize(cfg, spec, p'.end, w, lo + 1, n + 1, t);
  }

  /** At the limit with `c` attempts alive, `k` of the stale ones retry one after the other. */
  lemma {:induction false} StaleRetries(cfg: Settings, spec: JobSpec, w: WorkerId, c: nat, k: nat) returns (p: Path)
    requires k < c <= spec.maxAttempts
    ensures var m := spec.maxAttempts;
            && Leads(cfg, spec, p) && Crowded(cfg, spec, p.end, w, m - c + k, m + k, p.now)
            && p.changes == 3 * m - c + 3 * k && p.most == c
  {
    var m := spec.maxAttempts;
    if k == 0 {
      p := LoseLeases(cfg, spec, w, m - c, m);
    } else {
      p := StaleRetries(cfg, spec, w, c, k - 1);
      p := RetryAndRestart(cfg, spec, p, w, m - c + k - 1, m + k - 1);
    }
  }

  lemma TraceFacts(cfg: Settings, spec: JobSpec, p: Path)
    requires Leads(cfg, spec, p)
    ensures Monotone(p.trace) && After(cfg, Submitted(spec), p.trace) == p.end
    ensures Changes(cfg, Submitted(spec), p.trace) == p.changes
    ensures NeverMore(cfg, Submitted(spec), p.trace, p.most)
  {
    forall i, j | 0 <= i < j < |p.trace| ensures p.trace[i].now <= p.trace[j].now {
      assert TimeOf()(p.trace[i]) <= TimeOf()(p.trace[j]);
    }
  }

  /**
   * For every limit m, worker id and number c <= m, some run with at most c coroutines of the job alive at
   * once, all of that id, starts it exactly m + c - 1 times.
   */
  lemma ConcurrencyBudgetIsAttained(cfg: Settings, spec: JobSpec, w: WorkerId, c: nat) returns (trace: seq<Stamped>)
    requires 1 <= c <= spec.maxAttempts
    ensures Monotone(trace) && NeverMore(cfg, Submitted(spec), trace, c)
    ensures After(cfg, Submitted(spec), trace).job.attempts == spec.maxAttempts + c - 1
  {
    var p := StaleRetries(cfg, spec, w, c, c - 1);
    TraceFacts(cfg, spec, p);
    trace := p.trace;
  }

  /** With as many coroutines as the limit, some run starts the job exactly 2 * max_attempts - 1 times. */
  lemma AttemptBudgetIsAttained(cfg: Settings, spec: JobSpec, w: WorkerId) returns (trace: seq<Stamped>)
    requires spec.maxAttempts >= 1
    ensures Monotone(trace) && NeverMore(cfg, Submitted(spec), trace, spec.maxAttempts)
    ensures After(cfg, Submitted(spec), trace).job.attempts == 2 * spec.maxAttempts - 1
  {
    trace := ConcurrencyBudgetIsAttained(cfg, spec, w, spec.maxAttempts);
  }

  lemma CancelAndFinish(cfg: Settings, spec: JobSpec, p: Path, w: WorkerId, lo: nat, n: nat) returns (p': Path)
    requires Leads(cfg, spec, p) && Crowded(cfg, spec, p.end, w, lo, n, p.now) && lo < n
    ensures Leads(cfg, spec, p') && p'.changes == p.changes + 2
  {
    var t := p.now;
    AskIs(cfg, p.end, t, w);
    p' := Advance(cfg, spec, p, At(t, RequestCancel), CancelAsked(p.end, t));
    MoveIs(cfg, p'.end, t, lo, ObserveCancel);
    p' := Advance(cfg, spec, p', At(t, Run(lo, ObserveCancel)), InPhase(p'.end, lo, Ending(CommitCancel)));
    CommitIs(cfg, p'.end, t, lo);
    p' := Advance(cfg, spec, p', At(t, Run(lo, Finalize)), CommittedCancel(p'.end, lo, t));
  }

  /** For every limit some run makes exactly 5 * max_attempts - 1 status changes. */
  lemma StatusChangeBudgetIsAttained(cfg: Settings, spec: JobSpec, w: WorkerId) returns (trace: seq<Stamped>)
    requires spec.maxAttempts >= 1
    ensures Monotone(trace)
    ensures Changes(cfg, Submitted(spec), trace) == 5 * spec.maxAttempts - 1
  {
    var m := spec.maxAttempts;
    var p := StaleRetries(cfg, spec, w, m, m - 1);
    p := CancelAndFinish(cfg, spec, p, w, m - 1, m + (m - 1));
    TraceFacts(cfg, spec, p);
    trace := p.trace;
  }

  // ---------- the transition relation is exact

  /** Some run of the job takes a step from status `a` to status `b`. */
  ghost predicate Realized(cfg: Settings, spec: JobSpec, a: Status, b: Status) {
    exists p, e :: Takes(cfg, spec, p, e, a, b)
  }

  ghost predicate Takes(cfg: Settings, spec: JobSpec, p: Path, e: Stamped, a: Status, b: Status) {
    && Leads(cfg, spec, p) && p.now <= e.now
    && p.end.job.status == a && Stepper(cfg)(p.end, e).job.status == b
  }

  lemma PassEdge(cfg: Settings, spec: JobSpec, p: Path, pass: Pass, now: Time, s: JobState)
    requires Leads(cfg, spec, p) && p.now <= now && !pass.Redeliver?
    requires s == PassStep(cfg, p.end, now, pass)
    ensures Takes(cfg, spec, p, At(now, Scheduled(pass)), p.end.job.status, s.job.status)
  {
    PassIs(cfg, p.end, now);
  }

  lemma AskEdge(cfg: Settings, spec: JobSpec, p: Path, w: WorkerId)
    requires Leads(cfg, spec, p)
    ensures Takes(cfg, spec, p, At(p.now, RequestCancel), p.end.job.status, CancelAsked(p.end, p.now).job.status)
    ensures Takes(cfg, spec, p, At(p.now, Claim(w)), p.end.job.status, ClaimedBy(cfg, p.end, w, p.now).job.status)
  {
    AskIs(cfg, p.end, p.now, w);
  }

  /** The coroutine's handler ends with `move`, and its finalizer commits. */
  lemma CommitEdge(cfg: Settings, spec: JobSpec, p: Path, id: nat, move: Move, s: JobState) returns (p1: Path)
    requires Leads(cfg, spec, p) && id in p.end.live && p.end.live[id].phase.Executing?
    requires move.Return? || move.RaiseFatal? || (move.ObserveCancel? && p.end.job.cancellationRequestedAt.Some?)
    requires var s1 := InPhase(p.end, id, NextPhase(p.end.job, p.end.live[id], move, p.now));
             s == Finalized(s1, id, p.now)
    ensures Takes(cfg, spec, p1, At(p.now, Run(id, Finalize)), p.end.job.status, s.job.status)
  {
    var s1 := InPhase(p.end, id, NextPhase(p.end.job, p.end.live[id], move, p.now));
    MoveIs(cfg, p.end, p.now, id, move);
    p1 := Advance(cfg, spec, p, At(p.now, Run(id, move)), s1);
    CommitIs(cfg, s1, p.now, id);
  }

  function Ages(cfg: Settings, spec: JobSpec): Time {
    spec.createdAt + if cfg.queueMaxAgeSeconds > 0.0 then cfg.queueMaxAgeSeconds + 1.0 else 1.0
  }

  lemma InactiveStates(cfg: Settings, spec: JobSpec, w: WorkerId)
    ensures var s, t, late := Submitted(spec), spec.createdAt, Ages(cfg, spec);
            var q := Dispatched(s, t);
            && q.job.status.Queued? && t <= late
            && CancelAsked(s, t).job.status.Cancelled? && ExpiredIfStale(cfg, s, late).job.status.Expired?
            && CancelAsked(q, t).job.status.Cancelled? && ExpiredIfStale(cfg, q, late).job.status.Expired?
            && ClaimedBy(cfg, q, w, t).job.status.Running?
  {
  }

  lemma PendingEdge(cfg: Settings, spec: JobSpec, w: WorkerId, b: Status) returns (p: Path, e: Stamped)
    requires Edge(Pending, b)
    ensures Takes(cfg, spec, p, e, Pending, b)
  {
    var s, t, late := Submitted(spec), spec.createdAt, Ages(cfg, spec);
    InactiveStates(cfg, spec, w);
    p := SubmittedPath(cfg, spec);
    PassEdge(cfg, spec, p, DispatchRow, t, Dispatched(s, t));
    AskEdge(cfg, spec, p, w);
    PassEdge(cfg, spec, p, ExpireStale, late, ExpiredIfStale(cfg, s, late));
    e := match b
         case Queued => At(t, Scheduled(DispatchRow))
         case Cancelled => At(t, RequestCancel)
         case Expired => At(late, Scheduled(ExpireStale));
  }

  lemma QueuedPath(cfg: Settings, spec: JobSpec) returns (p: Path)
    ensures Leads(cfg, spec, p) && p.now == spec.createdAt && p.end == Dispatched(Submitted(spec), spec.createdAt)
  {
    var t := spec.createdAt;
    PassIs(cfg, Submitted(spec), t);
    p := SubmittedPath(cfg, spec);
    p := Advance(cfg, spec, p, At(t, Scheduled(DispatchRow)), Dispatched(Submitted(spec), t));
  }

  lemma QueuedEdge(cfg: Settings, spec: JobSpec, w: WorkerId, b: Status) returns (p: Path, e: Stamped)
    requires Edge(Queued, b)
    ensures Takes(cfg, spec, p, e, Queued, b)
  {
    var late := Ages(cfg, spec);
    InactiveStates(cfg, spec, w);
    p := QueuedPath(cfg, spec);
    AskEdge(cfg, spec, p, w);
    PassEdge(cfg, spec, p, ExpireStale, late, ExpiredIfStale(cfg, p.end, late));
    e := match b
         case Running => At(p.now, Claim(w))
         case Cancelled => At(p.now, RequestCancel)
         case Expired => At(late, Scheduled(ExpireStale));
  }

  /** The statuses in which a finalizer whose guard holds leaves the row. */
  lemma EndStates(cfg: Settings, spec: JobSpec, s: JobState, w: WorkerId, id: nat, now: Time)
    requires id in s.live && s.live[id].worker == w && s.live[id].phase.Executing? && Finalizable(s.job, w)
    ensures var after := (move: Move) => NextPhase(s.job, s.live[id], move, now);
            && after(Return(Reported(0, 0))) == Ending(CommitResult(Reported(0, 0)))
            && after(RaiseFatal("")) == Ending(CommitFailure("", false))
            && Finalized(InPhase(s, id, after(Return(Reported(0, 0)))), id, now).job.status.Succeeded?
            && Finalized(InPhase(s, id, after(RaiseFatal(""))), id, now).job.status.Failed?
            && (s.job.cancellationRequestedAt.Some? ==>
                  after(ObserveCancel) == Ending(CommitCancel)
                  && Finalized(InPhase(s, id, after(ObserveCancel)), id, now).job.status.Cancelled?)
  {
  }

  /** The handler's last move for a given final status. */
  function LastMove(b: Status): Move {
    match b
    case Succeeded => Return(Reported(0, 0))
    case Cancelled => ObserveCancel
    case _ => RaiseFatal("")
  }

  /** Attempt `id` of worker `w` is executing and its finalizer for status `b` would commit. */
  predicate Endable(s: JobState, w: WorkerId, id: nat, b: Status) {
    && id in s.live && s.live[id].worker == w && s.live[id].phase.Executing? && Finalizable(s.job, w)
    && (b.Succeeded? || b.Failed? || (b.Cancelled? && s.job.cancellationRequestedAt.Some?))
  }

  lemma EndEdge(cfg: Settings, spec: JobSpec, p: Path, w: WorkerId, id: nat, b: Status)
    returns (p': Path, e: Stamped)
    requires Leads(cfg, spec, p) && Endable(p.end, w, id, b)
    ensures Takes(cfg, spec, p', e, p.end.job.status, b)
  {
    var s, now, move := p.end, p.now, LastMove(b);
    EndStates(cfg, spec, s, w, id, now);
    e := At(now, Run(id, Finalize));
    p' := CommitEdge(cfg, spec, p, id, move,
                     Finalized(InPhase(s, id, NextPhase(s.job, s.live[id], move, now)), id, now));
  }

  lemma ActiveStates(cfg: Settings, spec: JobSpec, s: JobState, w: WorkerId, now: Time)
    requires Crowded(cfg, spec, s, w, 0, 1, now)
    ensures Endable(s, w, 0, Succeeded) && Endable(s, w, 0, Failed)
    ensures var c := CancelAsked(s, now);
            && c.job.status.Cancelling?
            && Endable(c, w, 0, Succeeded) && Endable(c, w, 0, Failed) && Endable(c, w, 0, Cancelled)
  {
  }

  lemma RestartStates(cfg: Settings, spec: JobSpec, s: JobState, w: WorkerId, now: Time)
    requires Crowded(cfg, spec, s, w, 0, 1, now) && spec.maxAttempts >= 2
    ensures Reaped(s, now + Patience(cfg)).job.status.Queued?
    ensures var r := CommittedRetry(AboutToRetry(s, 0, now), 0, "", now + 0.0);
            && r.job.status.Retrying? && r == Finalized(AboutToRetry(s, 0, now), 0, now)
            && Promoted(r, now).job.status.Queued? && CancelAsked(r, now).job.status.Cancelled?
            && ClaimedBy(cfg, r, w, now).job.status.Running?
  {
  }

  lemma InterruptEdge(cfg: Settings, spec: JobSpec, w: WorkerId, b: Status) returns (p: Path, e: Stamped)
    requires b.Cancelling? || (b.Queued? && spec.maxAttempts >= 2)
    ensures Takes(cfg, spec, p, e, Running, b)
  {
    p := FirstStart(cfg, spec, w);
    var t, later := p.now, p.now + Patience(cfg);
    ActiveStates(cfg, spec, p.end, w, t);
    if b.Queued? {
      RestartStates(cfg, spec, p.end, w, t);
    }
    PassEdge(cfg, spec, p, ReapLease, later, Reaped(p.end, later));
    AskEdge(cfg, spec, p, w);
    e := if b.Queued? then At(later, Scheduled(ReapLease)) else At(t, RequestCancel);
  }

  lemma FinishEdge(cfg: Settings, spec: JobSpec, w: WorkerId, b: Status) returns (p: Path, e: Stamped)
    requires b.Succeeded? || b.Failed?
    ensures Takes(cfg, spec, p, e, Running, b)
  {
    p := FirstStart(cfg, spec, w);
    ActiveStates(cfg, spec, p.end, w, p.now);
    p, e := EndEdge(cfg, spec, p, w, 0, b);
  }

  lemma RetryEdge(cfg: Settings, spec: JobSpec, w: WorkerId) returns (p: Path, e: Stamped)
    requires spec.maxAttempts >= 2
    ensures Takes(cfg, spec, p, e, Running, Retrying)
  {
    p := FirstStart(cfg, spec, w);
    RestartStates(cfg, spec, p.end, w, p.now);
    p := FailForRetry(cfg, spec, p, w, 0, 1);
    CommitIs(cfg, p.end, p.now, 0);
    e := At(p.now, Run(0, Finalize));
  }

  lemma CancelledStart(cfg: Settings, spec: JobSpec, w: WorkerId) returns (p: Path)
    ensures Leads(cfg, spec, p) && p.end.job.status.Cancelling?
    ensures Endable(p.end, w, 0, Succeeded) && Endable(p.end, w, 0, Failed) && Endable(p.end, w, 0, Cancelled)
  {
    p := FirstStart(cfg, spec, w);
    var s, t := p.end, p.now;
    ActiveStates(cfg, spec, s, w, t);
    AskIs(cfg, s, t, w);
    p := Advance(cfg, spec, p, At(t, RequestCancel), CancelAsked(s, t));
  }

  lemma CancellingEdge(cfg: Settings, spec: JobSpec, w: WorkerId, b: Status) returns (p: Path, e: Stamped)
    requires Edge(Cancelling, b)
    ensures Takes(cfg, spec, p, e, Cancelling, b)
  {
    var start := CancelledStart(cfg, spec, w);
    assert start.end.job.status == Cancelling && (b.Succeeded? || b.Failed? || b.Cancelled?);
    p, e := EndEdge(cfg, spec, start, w, 0, b);
  }

  lemma RetryingPath(cfg: Settings, spec: JobSpec, w: WorkerId) returns (p: Path)
    requires spec.maxAttempts >= 2
    ensures Leads(cfg, spec, p) && p.end.job.status.Retrying?
    ensures Promoted(p.end, p.now).job.status.Queued? && CancelAsked(p.end, p.now).job.status.Cancelled?
    ensures ClaimedBy(cfg, p.end, w, p.now).job.status.Running?
  {
    p := FirstStart(cfg, spec, w);
    var s, t := p.end, p.now;
    RestartStates(cfg, spec, s, w, t);
    p := FailForRetry(cfg, spec, p, w, 0, 1);
    CommitIs(cfg, p.end, t, 0);
    p := Advance(cfg, spec, p, At(t, Run(0, Finalize)), CommittedRetry(p.end, 0, "", t + 0.0));
  }

  lemma RetryingEdge(cfg: Settings, spec: JobSpec, w: WorkerId, b: Status) returns (p: Path, e: Stamped)
    requires spec.maxAttempts >= 2 && Edge(Retrying, b)
    ensures Takes(cfg, spec, p, e, Retrying, b)
  {
    p := RetryingPath(cfg, spec, w);
    AskEdge(cfg, spec, p, w);
    PassEdge(cfg, spec, p, PromoteRetry, p.now, Promoted(p.end, p.now));
    e := match b
         case Queued => At(p.now, Scheduled(PromoteRetry))
         case Cancelled => At(p.now, RequestCancel)
         case Running => At(p.now, Claim(w));
  }

  /** A limit of one attempt leaves no room for a retry or a requeue. */
  predicate Room(spec: JobSpec, a: Status, b: Status) {
    spec.maxAttempts >= 2 || !(a.Retrying? || b.Retrying? || (a.Running? && b.Queued?))
  }

  lemma RoomNeeded(cfg: Settings, s: JobState, now: Time, a: Action)
    requires Inv(cfg, s) && Budgeted(s) && s.job.status != Step(cfg, s, now, a).job.status
    ensures Room(s.job.spec, s.job.status, Step(cfg, s, now, a).job.status)
  {
    var flow := StepFlow(cfg, s, now, a);
    BudgetedFlow(s, Step(cfg, s, now, a), flow);
  }

  lemma OnlyEdges(cfg: Settings, spec: JobSpec, a: Status, b: Status)
    requires spec.maxAttempts >= 1 && a != b && Realized(cfg, spec, a, b)
    ensures Edge(a, b) && Room(spec, a, b)
  {
    var p, e :| Takes(cfg, spec, p, e, a, b);
    SubmittedInv(cfg, spec);
    SubmittedBudgeted(spec);
    TraceFacts(cfg, spec, p);
    AlwaysBudgeted(cfg, Submitted(spec), p.trace);
    SpecForever(cfg, Submitted(spec), p.trace);
    StepEdge(cfg, p.end, e.now, e.action);
    RoomNeeded(cfg, p.end, e.now, e.action);
  }

  /**
   * For every limit, the status changes that occur are exactly the table's and RETRYING to RUNNING, without
   * those of retries and requeues when the limit is 1: no more and no fewer.
   */
  lemma TransitionsExact(cfg: Settings, spec: JobSpec, a: Status, b: Status)
    requires spec.maxAttempts >= 1 && a != b
    ensures Realized(cfg, spec, a, b) <==> Edge(a, b) && Room(spec, a, b)
  {
    if Edge(a, b) && Room(spec, a, b) {
      match a
      case Pending => var p, e := PendingEdge(cfg, spec, "w", b); assert Takes(cfg, spec, p, e, a, b);
      case Queued => var p, e := QueuedEdge(cfg, spec, "w", b); assert Takes(cfg, spec, p, e, a, b);
      case Running =>
        var p, e;
        if b.Retrying? { p, e := RetryEdge(cfg, spec, "w"); }
        else if b.Queued? || b.Cancelling? { p, e := InterruptEdge(cfg, spec, "w", b); }
        else { p, e := FinishEdge(cfg, spec, "w", b); }
        assert Takes(cfg, spec, p, e, a, b);
      case Retrying => var p, e := RetryingEdge(cfg, spec, "w", b); assert Takes(cfg, spec, p, e, a, b);
      case Cancelling => var p, e := CancellingEdge(cfg, spec, "w", b); assert Takes(cfg, spec, p, e, a, b);
    } else if Realized(cfg, spec, a, b) {
      OnlyEdges(cfg, spec, a, b);
    }
  }

  /** A cancel that lands between a worker's check and its `schedule_retry` strands the job for good. */
  lemma StrandedIsReachable(cfg: Settings, spec: JobSpec, w: WorkerId) returns (trace: seq<Stamped>)
    requires spec.maxAttempts >= 2
    ensures Monotone(trace) && Stranded(After(cfg, Submitted(spec), trace))
  {
    var p := FirstStart(cfg, spec, w);
    var t, start := p.now, p.end;
    p := FailForRetry(cfg, spec, p, w, 0, 1);
    AskIs(cfg, p.end, t, w);
    var s1 := CancelAsked(p.end, t);
    p := Advance(cfg, spec, p, At(t, RequestCancel), s1);
    CommitIs(cfg, s1, t, 0);
    p := Advance(cfg, spec, p, At(t, Run(0, Finalize)), Superseded(s1, 0));
    SubmittedInv(cfg, spec);
    TraceFacts(cfg, spec, p);
    AlwaysInv(cfg, Submitted(spec), p.trace);
    trace := p.trace;
  }
}
