// When each statement of the protocol fires and what it writes, over the stored columns and the settings.
module Columns {
  import opened Domain
  import opened Lifecycle
  import opened Invariants

  // ---------- when a step fires

  /** A waiting retry is promoted exactly when its time has come. */
  lemma PromotesIff(cfg: Settings, s: JobState, now: Time)
    requires Inv(cfg, s)
    ensures var s' := Step(cfg, s, now, Scheduled(PromoteRetry));
            && (s' != s <==> s.job.status.Retrying? && s.job.nextAttemptAt.value <= now)
            && (s' != s ==> s'.job.status.Queued?)
  {
  }

  /** A lease is taken exactly from a RUNNING job whose lock has expired. */
  lemma ReapsIff(cfg: Settings, s: JobState, now: Time)
    requires Inv(cfg, s)
    ensures var s' := Step(cfg, s, now, Scheduled(ReapLease));
            && (s' != s <==> s.job.status.Running? && s.job.lockExpiresAt.value < now)
            && (s' != s && s.job.attempts < s.job.spec.maxAttempts ==> s'.job.status.Queued?)
            && (s' != s && s.job.attempts >= s.job.spec.maxAttempts ==>
                  s'.job.status.Failed? && s'.job.errorCode == Some("LEASE_EXPIRED")
                  && s'.job.deadLetteredAt == Some(now))
  {
  }

  /** A job expires exactly when it is PENDING or QUEUED and older than the maximum age. */
  lemma ExpiresIff(cfg: Settings, s: JobState, now: Time)
    requires Inv(cfg, s)
    ensures var s' := Step(cfg, s, now, Scheduled(ExpireStale));
            && (s' != s <==> (s.job.status.Pending? || s.job.status.Queued?)
                             && now - s.job.spec.createdAt > cfg.queueMaxAgeSeconds)
            && (s' != s ==> s'.job.status.Expired?)
  {
  }

  /** A message is sent again exactly for a QUEUED job whose last dispatch is longer ago than the cooldown. */
  lemma ResendsIff(cfg: Settings, s: JobState, readAt: Time, now: Time)
    requires Inv(cfg, s)
    ensures Step(cfg, s, now, Scheduled(Redeliver(readAt))) ==
            if readAt <= now && s.job.status.Queued? && readAt - s.job.lastDispatchedAt.value > cfg.queueStuckSeconds
            then s.(job := s.job.(lastDispatchedAt := Some(now))) else s
  {
  }

  /** The outbox row is published exactly once, and takes the job to QUEUED exactly if it is still PENDING. */
  lemma DispatchesIff(cfg: Settings, s: JobState, now: Time)
    requires Inv(cfg, s)
    ensures var s' := Step(cfg, s, now, Scheduled(DispatchRow));
            && (s' != s <==> !s.published) && s'.published
            && (s'.job != s.job <==> s.job.status.Pending?)
            && (s.job.status.Pending? ==> s'.job.status.Queued?)
  {
  }

  /** A cancel changes a job exactly if it is neither finished nor being cancelled already. */
  lemma CancelsIff(cfg: Settings, s: JobState, now: Time)
    requires Inv(cfg, s)
    ensures var s' := Step(cfg, s, now, RequestCancel);
            && (s' != s <==> s.job.status in {Pending, Queued, Retrying, Running})
            && (s' != s ==> if s.job.status.Running? then s'.job.status.Cancelling? else s'.job.status.Cancelled?)
  {
  }

  /** A worker can start a QUEUED job, and a RETRYING one whatever its retry time, and no other. */
  lemma StartsIff(cfg: Settings, s: JobState, worker: WorkerId, now: Time)
    requires Inv(cfg, s)
    ensures var s' := Step(cfg, s, now, Claim(worker));
            && (s' != s <==> s.job.status.Queued? || s.job.status.Retrying?)
            && (s' != s ==> s'.job.status.Running?)
  {
  }

  /** A beat extends the lease exactly of a RUNNING job that carries the coroutine's worker id. */
  lemma BeatsIff(cfg: Settings, s: JobState, id: nat, now: Time)
    requires Inv(cfg, s) && id in s.live
    ensures Step(cfg, s, now, Run(id, Heartbeat)).job ==
            if s.job.status.Running? && s.job.lockedBy == Some(s.live[id].worker)
            then s.job.(lockExpiresAt := Some(now + cfg.leaseSeconds)) else s.job
  {
  }

  /** A notification is tried exactly when it is pending and due. */
  lemma DeliversIff(cfg: Settings, s: JobState, now: Time, i: nat, delivered: bool, retryAt: Time)
    requires Inv(cfg, s) && i < |s.notices|
    ensures var n, n' := s.notices[i], Step(cfg, s, now, Deliver(i, delivered, retryAt)).notices[i];
            && (n' != n <==> n.status.NoticePending? && n.nextAttemptAt <= now)
            && (n' == n || n' == Tried(cfg, n, delivered, retryAt))
  {
  }

  function Tried(cfg: Settings, n: Notice, delivered: bool, retryAt: Time): Notice {
    if delivered then n.(status := NoticeSent, attempts := n.attempts + 1)
    else if n.attempts + 1 >= cfg.notificationMaxAttempts then n.(status := NoticeFailed, attempts := n.attempts + 1)
    else n.(attempts := n.attempts + 1, nextAttemptAt := retryAt)
  }

  /** A finalizer commits exactly when the row carries its id and is RUNNING, or CANCELLING and not for a retry. */
  lemma CommitsIff(cfg: Settings, s: JobState, now: Time, id: nat)
    requires Inv(cfg, s) && id in s.live && s.live[id].phase.Ending?
    ensures Step(cfg, s, now, Run(id, Finalize)).job != s.job <==>
            s.job.lockedBy == Some(s.live[id].worker)
            && (s.job.status.Running? || (s.job.status.Cancelling? && !s.live[id].phase.outcome.CommitRetry?))
  {
  }

  // ---------- what a step writes

  /** The event recorded with a change from one status to another. */
  function KindOf(a: Status, b: Status): EventType {
    match b
    case Pending => SubmittedEvent
    case Queued => if a.Running? then RequeuedEvent else QueuedEvent
    case Running => StartedEvent
    case Retrying => RetryScheduledEvent
    case Cancelling => CancelRequestedEvent
    case Succeeded => SucceededEvent
    case Failed => FailedEvent
    case Cancelled => CancelledEvent
    case Expired => ExpiredEvent
  }

  /** What the change of status writes to the row; the values a caller chooses are in `j'` itself. */
  predicate Written(cfg: Settings, j: Job, j': Job, now: Time) {
    match j'.status
    case Queued =>
      j' == j.(status := Queued, lastDispatchedAt := Some(now), nextAttemptAt := None, lockedBy := None,
               lockExpiresAt := None)
    case Running =>
      && j'.lockedBy.Some?
      && j' == j.(status := Running, attempts := j.attempts + 1, lockedBy := j'.lockedBy, nextAttemptAt := None,
                  lockExpiresAt := Some(now + cfg.leaseSeconds),
                  startedAt := if j.startedAt.None? then Some(now) else j.startedAt)
    case Retrying =>
      && j'.errorCode.Some? && j'.nextAttemptAt.Some?
      && j' == j.(status := Retrying, errorCode := j'.errorCode, nextAttemptAt := j'.nextAttemptAt, lockedBy := None,
                  lockExpiresAt := None)
    case Cancelling => j' == j.(status := Cancelling, cancellationRequestedAt := Some(now))
    case Succeeded =>
      && j'.result.Some?
      && j' == j.(status := Succeeded, result := j'.result, progress := 100, completedAt := Some(now),
                  lockedBy := None, lockExpiresAt := None, errorCode := None)
    case Failed =>
      && j'.errorCode.Some? && (j'.deadLetteredAt.Some? ==> j'.deadLetteredAt == Some(now))
      && j' == j.(status := Failed, errorCode := j'.errorCode, completedAt := Some(now), lockedBy := None,
                  lockExpiresAt := None, deadLetteredAt := j'.deadLetteredAt)
    case Cancelled =>
      && (if j.status.Cancelling? then j'.cancellationRequestedAt == j.cancellationRequestedAt
          else j'.cancellationRequestedAt == Some(now))
      && j' == j.(status := Cancelled, completedAt := Some(now), lockedBy := None, lockExpiresAt := None,
                  nextAttemptAt := None, cancellationRequestedAt := j'.cancellationRequestedAt)
    case Expired => j' == j.(status := Expired, completedAt := Some(now))
    case Pending => false
  }

  /** A status change, its event, and the notification that a terminal status comes with. */
  predicate Effect(cfg: Settings, s: JobState, s': JobState, now: Time) {
    var status := s'.job.status;
    && Written(cfg, s.job, s'.job, now)
    && s'.events == s.events + [Event(KindOf(s.job.status, status), status)]
    && s'.notices ==
       if status.Succeeded? || status.Failed? || status.Cancelled? || status.Expired? then
         [Notice(KindOf(s.job.status, status), status, s'.job.result,
                 if status.Failed? then s'.job.errorCode else if status.Expired? then Some("EXPIRED") else None,
                 NoticePending, 0, now)]
       else []
  }

  lemma PassEffect(cfg: Settings, s: JobState, now: Time, pass: Pass)
    requires Inv(cfg, s) && PassStep(cfg, s, now, pass).job.status != s.job.status
    ensures Effect(cfg, s, PassStep(cfg, s, now, pass), now)
  {
  }

  lemma ResultEffect(cfg: Settings, s: JobState, now: Time, id: nat, result: Result)
    requires RowShape(s) && NoticeLog(cfg, s) && id in s.live
    requires CommittedResult(s, id, result, now).job != s.job
    ensures var s' := CommittedResult(s, id, result, now);
            Effect(cfg, s, s', now) && s'.job.status.Succeeded? && s'.job.result == Some(result)
  {
  }

  lemma FailureEffect(cfg: Settings, s: JobState, now: Time, id: nat, code: string, dead: bool)
    requires RowShape(s) && NoticeLog(cfg, s) && id in s.live
    requires CommittedFailure(s, id, code, dead, now).job != s.job
    ensures var s' := CommittedFailure(s, id, code, dead, now);
            && Effect(cfg, s, s', now) && s'.job.status.Failed? && s'.job.errorCode == Some(code)
            && (s'.job.deadLetteredAt == if dead then Some(now) else None)
  {
  }

  lemma RetryEffect(cfg: Settings, s: JobState, now: Time, id: nat, code: string, at: Time)
    requires RowShape(s) && NoticeLog(cfg, s) && id in s.live && CommittedRetry(s, id, code, at).job != s.job
    ensures var s' := CommittedRetry(s, id, code, at);
            && Effect(cfg, s, s', now) && s'.job.status.Retrying? && s'.job.errorCode == Some(code)
            && s'.job.nextAttemptAt == Some(at)
  {
  }

  lemma CancelEffect(cfg: Settings, s: JobState, now: Time, id: nat)
    requires RowShape(s) && NoticeLog(cfg, s) && id in s.live && s.job.cancellationRequestedAt.Some?
    requires CommittedCancel(s, id, now).job != s.job
    ensures Effect(cfg, s, CommittedCancel(s, id, now), now) && CommittedCancel(s, id, now).job.status.Cancelled?
  {
  }

  /** The columns that a committed outcome chooses. */
  predicate Chosen(j: Job, outcome: Outcome, now: Time) {
    match outcome
    case CommitResult(result) => j.status.Succeeded? && j.result == Some(result)
    case CommitFailure(code, dead) =>
      j.status.Failed? && j.errorCode == Some(code) && j.deadLetteredAt == (if dead then Some(now) else None)
    case CommitRetry(code, at) => j.status.Retrying? && j.errorCode == Some(code) && j.nextAttemptAt == Some(at)
    case CommitCancel => j.status.Cancelled?
  }

  /** A finalizer that commits writes its outcome, and one that does not leaves the row alone. */
  lemma FinalizerEffect(cfg: Settings, s: JobState, now: Time, id: nat)
    requires Inv(cfg, s) && id in s.live && s.live[id].phase.Ending?
    ensures var s' := Step(cfg, s, now, Run(id, Finalize));
            s'.job != s.job ==> Effect(cfg, s, s', now) && Chosen(s'.job, s.live[id].phase.outcome, now)
  {
    assert LiveShape(s, id);
    var s' := Finalized(s, id, now);
    assert Step(cfg, s, now, Run(id, Finalize)) == s';
    if s'.job != s.job {
      match s.live[id].phase.outcome
      case CommitResult(result) => ResultEffect(cfg, s, now, id, result);
      case CommitFailure(code, dead) => FailureEffect(cfg, s, now, id, code, dead);
      case CommitRetry(code, at) => RetryEffect(cfg, s, now, id, code, at);
      case CommitCancel => CancelEffect(cfg, s, now, id);
    }
  }

  /** Whatever the process, a change of status writes exactly these columns, events and notifications. */
  lemma StepEffect(cfg: Settings, s: JobState, now: Time, a: Action)
    requires Inv(cfg, s) && Step(cfg, s, now, a).job.status != s.job.status
    ensures Effect(cfg, s, Step(cfg, s, now, a), now)
  {
    match a
    case Scheduled(pass) => PassEffect(cfg, s, now, pass);
    case Run(id, move) =>
      if id in s.live && move.Finalize? && s.live[id].phase.Ending? {
        FinalizerEffect(cfg, s, now, id);
      }
    case _ =>
  }

  /** At most a progress, a lease from now or a dispatch time of now. */
  predicate Refreshed(cfg: Settings, j: Job, j': Job, now: Time) {
    && j' == j.(progress := j'.progress, lockExpiresAt := j'.lockExpiresAt, lastDispatchedAt := j'.lastDispatchedAt)
    && (j' != j ==> j.status.Queued? || j.status.Running? || j.status.Cancelling?)
    && (j'.lockExpiresAt != j.lockExpiresAt ==> j'.lockExpiresAt == Some(now + cfg.leaseSeconds))
    && (j'.lastDispatchedAt != j.lastDispatchedAt ==> j.status.Queued? && j'.lastDispatchedAt == Some(now))
    && (j'.progress != j.progress ==> j'.lockExpiresAt == Some(now + cfg.leaseSeconds))
  }

  lemma QuietRun(cfg: Settings, s: JobState, now: Time, id: nat, move: Move)
    requires id in s.live && !move.Finalize?
    ensures Refreshed(cfg, s.job, RunStep(cfg, s, now, id, move).job, now)
  {
  }

  /** A step that keeps the status refreshes the row at most. */
  lemma QuietEffect(cfg: Settings, s: JobState, now: Time, a: Action)
    requires Inv(cfg, s) && Step(cfg, s, now, a).job.status == s.job.status
    ensures Refreshed(cfg, s.job, Step(cfg, s, now, a).job, now)
  {
    match a
    case Run(id, move) =>
      if id in s.live {
        if move.Finalize? {
          if s.live[id].phase.Ending? {
            FinalizerEffect(cfg, s, now, id);
          }
        } else {
          QuietRun(cfg, s, now, id, move);
        }
      }
    case _ =>
  }

  // ---------- the attempt rows

  /** The row a finalizer leaves for its attempt. */
  function FinishedAs(s: JobState, s': JobState, id: nat): (Status, Option<string>)
    requires id in s.live && s.live[id].phase.Ending?
  {
    if s'.job == s.job then (Failed, Some("SUPERSEDED")) else
    match s.live[id].phase.outcome
    case CommitResult(_) => (Succeeded, None)
    case CommitFailure(code, _) => (Failed, Some(code))
    case CommitRetry(code, _) => (Failed, Some(code))
    case CommitCancel => (Cancelled, None)
  }

  /** A start appends one row and a finalizer overwrites its own; no other step touches the attempt log. */
  lemma AttemptRows(cfg: Settings, s: JobState, now: Time, a: Action)
    requires Inv(cfg, s)
    ensures var s' := Step(cfg, s, now, a);
            s'.attempts ==
            if a.Claim? && s'.job.status.Running? && !s.job.status.Running? then
              s.attempts + [Attempt(s.job.attempts + 1, a.worker, Running, None)]
            else if a.Run? && a.move.Finalize? && a.attempt in s.live && s.live[a.attempt].phase.Ending? then
              var (status, code) := FinishedAs(s, s', a.attempt);
              s.attempts[a.attempt := s.attempts[a.attempt].(status := status, errorCode := code)]
            else s.attempts
  {
    if a.Run? && a.attempt in s.live {
      assert LiveShape(s, a.attempt);
    }
  }
}
