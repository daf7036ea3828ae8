// The guarded UPDATE statements of backend/app/repositories/job_repository.py, one pure function
// per statement: the predicate is its WHERE clause, the function its SET clause.
module JobRows {
  import opened Domain

  predicate Claimable(j: Job) {
    (j.status.Queued? || j.status.Retrying?) && j.cancellationRequestedAt.None?
  }

  function Claimed(j: Job, worker: WorkerId, lease: real, now: Time): Job {
    j.(status := Running, attempts := j.attempts + 1, lockedBy := Some(worker),
       lockExpiresAt := Some(now + lease),
       startedAt := if j.startedAt.None? then Some(now) else j.startedAt, nextAttemptAt := None)
  }

  predicate OwnedRunning(j: Job, worker: WorkerId) { j.lockedBy == Some(worker) && j.status.Running? }

  predicate Finalizable(j: Job, worker: WorkerId) { j.lockedBy == Some(worker) && j.status.Held() }

  function Renewed(j: Job, lease: real, now: Time): Job { j.(lockExpiresAt := Some(now + lease)) }

  function Progressed(j: Job, percent: int, lease: real, now: Time): Job {
    j.(progress := percent, lockExpiresAt := Some(now + lease))
  }

  function MarkedSucceeded(j: Job, result: Result, now: Time): Job {
    j.(status := Succeeded, result := Some(result), progress := 100, completedAt := Some(now),
       lockedBy := None, lockExpiresAt := None, errorCode := None)
  }

  function MarkedFailed(j: Job, code: string, now: Time, deadLettered: bool): Job {
    j.(status := Failed, errorCode := Some(code), completedAt := Some(now), lockedBy := None,
       lockExpiresAt := None, deadLetteredAt := if deadLettered then Some(now) else None)
  }

  function RetryScheduled(j: Job, code: string, at: Time): Job {
    j.(status := Retrying, errorCode := Some(code), nextAttemptAt := Some(at), lockedBy := None,
       lockExpiresAt := None)
  }

  function CancelledByWorker(j: Job, now: Time): Job {
    j.(status := Cancelled, completedAt := Some(now), lockedBy := None, lockExpiresAt := None)
  }

  predicate InactiveCancellable(j: Job) { j.status.Pending? || j.status.Queued? || j.status.Retrying? }

  function CancelledInactive(j: Job, now: Time): Job {
    j.(status := Cancelled, cancellationRequestedAt := Some(now), completedAt := Some(now),
       nextAttemptAt := None)
  }

  function CancellationRequested(j: Job, now: Time): Job {
    j.(status := Cancelling, cancellationRequestedAt := Some(now))
  }

  function MarkedQueued(j: Job, now: Time): Job {
    j.(status := Queued, lastDispatchedAt := Some(now))
  }

  function LeaseRequeued(j: Job, now: Time): Job {
    j.(status := Queued, lastDispatchedAt := Some(now), lockedBy := None,
       lockExpiresAt := None)
  }

  function RetryQueued(j: Job, now: Time): Job {
    j.(status := Queued, lastDispatchedAt := Some(now), nextAttemptAt := None)
  }

  function Redispatched(j: Job, now: Time): Job { j.(lastDispatchedAt := Some(now)) }

  predicate Expirable(j: Job) { j.status.Pending? || j.status.Queued? }

  function MarkedExpired(j: Job, now: Time): Job { j.(status := Expired, completedAt := Some(now)) }

  // The row predicates of the `find_*` selections.

  predicate DueRetry(j: Job, now: Time) {
    j.status.Retrying? && j.nextAttemptAt.Some? && j.nextAttemptAt.value <= now
  }

  predicate LeaseExpired(j: Job, now: Time) {
    j.status.Running? && j.lockExpiresAt.Some? && j.lockExpiresAt.value < now
  }

  predicate StuckQueued(j: Job, cutoff: Time) {
    j.status.Queued? && (j.lastDispatchedAt.None? || j.lastDispatchedAt.value < cutoff)
  }

  /** A job queued for longer than the cooldown at `readAt` was dispatched before this time. */
  function StuckCutoff(cfg: Settings, readAt: Time): Time { readAt - cfg.queueStuckSeconds }

  /** A job older than the maximum age at `now` was created before this time. */
  function StaleCutoff(cfg: Settings, now: Time): Time { now - cfg.queueMaxAgeSeconds }

  predicate Stale(j: Job, cutoff: Time) { Expirable(j) && j.spec.createdAt < cutoff }

  const LEASE_EXPIRED_CODE := "LEASE_EXPIRED"
  const EXPIRED_CODE := "EXPIRED"
  const SUPERSEDED_CODE := "SUPERSEDED"
}
