// What every reachable state of a job satisfies.
module Invariants {
  import opened Domain
  import opened Traces
  import opened Lifecycle

  // ---------- the job row

  predicate RowShape(s: JobState) {
    var j := s.job;
    && j.spec.maxAttempts >= 1
    && (j.lockedBy.Some? <==> j.status.Held())
    && (j.lockExpiresAt.Some? <==> j.status.Held())
    && (j.nextAttemptAt.Some? <==> j.status.Retrying?)
    && (j.completedAt.Some? <==> j.status.Terminal())
    && (j.result.Some? <==> j.status.Succeeded?)
    && (j.cancellationRequestedAt.Some? ==> j.status.Cancelling? || j.status.Terminal())
    && (j.status.Cancelling? || j.status.Cancelled? ==> j.cancellationRequestedAt.Some?)
    && (j.deadLetteredAt.Some? ==> j.status.Failed?)
    && (j.startedAt.Some? <==> j.attempts > 0)
    && (j.status.Held() || j.status.Retrying? ==> j.attempts > 0)
    && (j.attempts > 0 || j.status.Queued? ==> j.lastDispatchedAt.Some?)
    && (j.status.Pending? <==> !j.status.Terminal() && !s.published)
    && (!s.published ==> j.status.Pending? || j.status.Cancelled? || j.status.Expired?)
    && (j.status.Pending? ==> j.attempts == 0)
    && 0 <= j.progress <= 100
    && (j.status.Succeeded? ==> j.progress == 100)
  }

  // ---------- the attempt log and the running coroutines

  predicate LiveShape(s: JobState, id: nat)
    requires id in s.live
  {
    && id < |s.attempts|
    && s.live[id].number == id + 1
    && s.live[id].worker == s.attempts[id].worker
    && s.attempts[id].status.Running?
    && (s.live[id].phase == Ending(CommitCancel) ==> s.job.cancellationRequestedAt.Some?)
    && (s.live[id].phase.Ending? && s.live[id].phase.outcome.CommitRetry? ==> id + 1 < s.job.spec.maxAttempts)
  }

  predicate AttemptLog(s: JobState) {
    && |s.attempts| == s.job.attempts
    && (forall i :: 0 <= i < |s.attempts| ==> s.attempts[i].number == i + 1)
    && (forall id :: id in s.live ==> LiveShape(s, id))
    && (s.job.status.Held() ==> |s.attempts| > 0 && s.job.lockedBy == Some(s.attempts[|s.attempts| - 1].worker))
  }

  // ---------- the event log

  /** Fold the events' target statuses; a terminal status absorbs what follows. */
  function Replay(events: seq<Event>): Status {
    if events == [] then Pending else
    var before := Replay(events[..|events| - 1]);
    if before.Terminal() then before else events[|events| - 1].toStatus
  }

  function Count(events: seq<Event>, kind: EventType): nat {
    if events == [] then 0 else
    Count(events[..|events| - 1], kind) + (if events[|events| - 1].kind == kind then 1 else 0)
  }

  predicate EventLog(s: JobState) {
    && Replay(s.events) == s.job.status
    && Count(s.events, StartedEvent) == s.job.attempts
  }

  lemma Appended(events: seq<Event>, e: Event)
    ensures Replay(events + [e]) == if Replay(events).Terminal() then Replay(events) else e.toStatus
    ensures forall kind :: Count(events + [e], kind) == Count(events, kind) + (if e.kind == kind then 1 else 0)
  {
    assert (events + [e])[..|events|] == events;
  }

  // ---------- the notification outbox

  function FinalEvent(status: Status): EventType {
    match status
    case Succeeded => SucceededEvent
    case Cancelled => CancelledEvent
    case Expired => ExpiredEvent
    case _ => FailedEvent
  }

  function MaxDeliveries(cfg: Settings): nat {
    if cfg.notificationMaxAttempts > 1 then cfg.notificationMaxAttempts else 1
  }

  predicate NoticeShape(cfg: Settings, n: Notice) {
    match n.status
    case NoticePending => n.attempts < MaxDeliveries(cfg)
    case NoticeSent => 1 <= n.attempts <= MaxDeliveries(cfg)
    case NoticeFailed => n.attempts == MaxDeliveries(cfg)
  }

  /** A terminal job has exactly one notification, telling its final status, result and error. */
  predicate NoticeLog(cfg: Settings, s: JobState) {
    if s.job.status.Terminal() then
      && |s.notices| == 1
      && s.notices[0].event == FinalEvent(s.job.status)
      && s.notices[0].jobStatus == s.job.status
      && s.notices[0].result == s.job.result
      && (s.job.status.Failed? ==> s.notices[0].errorCode == s.job.errorCode)
      && NoticeShape(cfg, s.notices[0])
    else
      s.notices == []
  }

  predicate Inv(cfg: Settings, s: JobState) {
    RowShape(s) && AttemptLog(s) && EventLog(s) && NoticeLog(cfg, s)
  }

  // ---------- preservation, one transaction at a time

  lemma DispatchedKeeps(cfg: Settings, s: JobState, now: Time)
    requires Inv(cfg, s)
    ensures Inv(cfg, Dispatched(s, now))
  {
    Appended(s.events, Event(QueuedEvent, Queued));
  }

  lemma PromotedKeeps(cfg: Settings, s: JobState, now: Time)
    requires Inv(cfg, s)
    ensures Inv(cfg, Promoted(s, now))
  {
    Appended(s.events, Event(QueuedEvent, Queued));
  }

  lemma ReapedKeeps(cfg: Settings, s: JobState, now: Time)
    requires Inv(cfg, s)
    ensures Inv(cfg, Reaped(s, now))
  {
    Appended(s.events, Event(FailedEvent, Failed));
    Appended(s.events, Event(RequeuedEvent, Queued));
  }

  lemma RedeliveredKeeps(cfg: Settings, s: JobState, readAt: Time, now: Time)
    requires Inv(cfg, s)
    ensures Inv(cfg, Redelivered(cfg, s, readAt, now))
  {
  }

  lemma ExpiredIfStaleKeeps(cfg: Settings, s: JobState, now: Time)
    requires Inv(cfg, s)
    ensures Inv(cfg, ExpiredIfStale(cfg, s, now))
  {
    Appended(s.events, Event(ExpiredEvent, Expired));
  }

  lemma CancelAskedKeeps(cfg: Settings, s: JobState, now: Time)
    requires Inv(cfg, s)
    ensures Inv(cfg, CancelAsked(s, now))
  {
    Appended(s.events, Event(CancelRequestedEvent, Cancelling));
    Appended(s.events, Event(CancelledEvent, Cancelled));
  }

  lemma ClaimedByKeeps(cfg: Settings, s: JobState, worker: WorkerId, now: Time)
    requires Inv(cfg, s)
    ensures Inv(cfg, ClaimedBy(cfg, s, worker, now))
  {
    Appended(s.events, Event(StartedEvent, Running));
  }

  lemma HeartbeatByKeeps(cfg: Settings, s: JobState, id: nat, now: Time)
    requires Inv(cfg, s) && id in s.live
    ensures Inv(cfg, HeartbeatBy(cfg, s, id, now))
  {
  }

  lemma ProgressByKeeps(cfg: Settings, s: JobState, id: nat, percent: int, now: Time)
    requires Inv(cfg, s) && id in s.live && 0 <= percent <= 100 && s.live[id].phase.Executing?
    ensures Inv(cfg, ProgressBy(cfg, s, id, percent, now))
  {
  }

  lemma CommittedResultKeeps(cfg: Settings, s: JobState, id: nat, result: Result, now: Time)
    requires Inv(cfg, s) && id in s.live
    ensures Inv(cfg, CommittedResult(s, id, result, now))
  {
    Appended(s.events, Event(SucceededEvent, Succeeded));
  }

  lemma CommittedFailureKeeps(cfg: Settings, s: JobState, id: nat, code: string, dead: bool, now: Time)
    requires Inv(cfg, s) && id in s.live
    ensures Inv(cfg, CommittedFailure(s, id, code, dead, now))
  {
    Appended(s.events, Event(FailedEvent, Failed));
  }

  lemma CommittedRetryKeeps(cfg: Settings, s: JobState, id: nat, code: string, at: Time)
    requires Inv(cfg, s) && id in s.live && s.live[id].phase == Ending(CommitRetry(code, at))
    ensures Inv(cfg, CommittedRetry(s, id, code, at))
  {
    Appended(s.events, Event(RetryScheduledEvent, Retrying));
  }

  lemma CommittedCancelKeeps(cfg: Settings, s: JobState, id: nat, now: Time)
    requires Inv(cfg, s) && id in s.live && s.live[id].phase == Ending(CommitCancel)
    ensures Inv(cfg, CommittedCancel(s, id, now))
  {
    Appended(s.events, Event(CancelledEvent, Cancelled));
  }

  lemma FinalizedKeeps(cfg: Settings, s: JobState, id: nat, now: Time)
    requires Inv(cfg, s) && id in s.live && s.live[id].phase.Ending?
    ensures Inv(cfg, Finalized(s, id, now))
  {
    match s.live[id].phase.outcome
    case CommitResult(result) => CommittedResultKeeps(cfg, s, id, result, now);
    case CommitFailure(code, dead) => CommittedFailureKeeps(cfg, s, id, code, dead, now);
    case CommitRetry(code, at) => CommittedRetryKeeps(cfg, s, id, code, at);
    case CommitCancel => CommittedCancelKeeps(cfg, s, id, now);
  }

  lemma InPhaseKeeps(cfg: Settings, s: JobState, id: nat, phase: Phase)
    requires Inv(cfg, s) && id in s.live
    requires phase == Ending(CommitCancel) ==> s.job.cancellationRequestedAt.Some?
    requires phase.Ending? && phase.outcome.CommitRetry? ==> s.live[id].number < s.job.spec.maxAttempts
    ensures Inv(cfg, InPhase(s, id, phase))
  {
    assert forall k :: k in s.live ==> LiveShape(s, k);
  }

  lemma PassStepKeeps(cfg: Settings, s: JobState, now: Time, pass: Pass)
    requires Inv(cfg, s)
    ensures Inv(cfg, PassStep(cfg, s, now, pass))
  {
    match pass
    case DispatchRow => DispatchedKeeps(cfg, s, now);
    case PromoteRetry => PromotedKeeps(cfg, s, now);
    case ReapLease => ReapedKeeps(cfg, s, now);
    case Redeliver(readAt) => RedeliveredKeeps(cfg, s, readAt, now);
    case ExpireStale => ExpiredIfStaleKeeps(cfg, s, now);
  }

  lemma RunStepKeeps(cfg: Settings, s: JobState, now: Time, id: nat, move: Move)
    requires Inv(cfg, s) && id in s.live
    ensures Inv(cfg, RunStep(cfg, s, now, id, move))
  {
    match move
    case Heartbeat => HeartbeatByKeeps(cfg, s, id, now);
    case Progress(percent) =>
      if s.live[id].phase.Executing? && 0 <= percent <= 100 { ProgressByKeeps(cfg, s, id, percent, now); }
    case Finalize => if s.live[id].phase.Ending? { FinalizedKeeps(cfg, s, id, now); }
    case Drop =>
    case _ =>
      assert LiveShape(s, id);
      InPhaseKeeps(cfg, s, id, NextPhase(s.job, s.live[id], move, now));
  }

  /** Every step of every process keeps the invariant. */
  lemma StepKeeps(cfg: Settings, s: JobState, now: Time, a: Action)
    requires Inv(cfg, s)
    ensures Inv(cfg, Step(cfg, s, now, a))
  {
    match a
    case Scheduled(pass) => PassStepKeeps(cfg, s, now, pass);
    case RequestCancel => CancelAskedKeeps(cfg, s, now);
    case Claim(worker) => ClaimedByKeeps(cfg, s, worker, now);
    case Run(id, move) => if id in s.live { RunStepKeeps(cfg, s, now, id, move); }
    case Deliver(i, delivered, retryAt) =>
  }

  /** Every state of every run: any interleaving, losses and crashes included. */
  lemma AlwaysInv(cfg: Settings, s: JobState, trace: seq<Stamped>)
    requires Inv(cfg, s)
    ensures Inv(cfg, After(cfg, s, trace))
  {
    var f, inv := Stepper(cfg), (t: JobState) => Inv(cfg, t);
    forall t: JobState, e: Stamped | inv(t) ensures inv(f(t, e)) { StepKeeps(cfg, t, e.now, e.action); }
    FoldInvariant(f, s, trace, inv);
  }

  lemma SubmittedInv(cfg: Settings, spec: JobSpec)
    requires spec.maxAttempts >= 1
    ensures Inv(cfg, Submitted(spec))
  {
    Appended([], Event(SubmittedEvent, Pending));
    assert [] + [Event(SubmittedEvent, Pending)] == [Event(SubmittedEvent, Pending)];
  }
}
