// One job's part of the whole database, with the worker coroutines that are executing it, and the
// atomic steps every process can take on it. Each `session.begin()` block is one step.
module Lifecycle {
  import opened Domain
  import opened JobRows
  import opened Traces

  /** What a coroutine of `execute` is about to commit. */
  datatype Outcome =
    | CommitResult(result: Result)
    | CommitFailure(code: string, deadLettered: bool)
    | CommitRetry(code: string, at: Time)
    | CommitCancel

  /** Executing: the handler runs. Erring: it raised a retryable error, not yet classified. */
  datatype Phase = Executing | Erring(code: string) | Ending(outcome: Outcome)

  /** The local variables of one running `execute`; `beatAt` stamps its last claim, beat or progress. */
  datatype Live = Live(number: nat, worker: WorkerId, beatAt: Time, phase: Phase)

  /** The rows of the five tables that carry one job id, and its running coroutines by attempt id. */
  datatype JobState = JobState(
    job: Job, published: bool, attempts: seq<Attempt>, events: seq<Event>, notices: seq<Notice>,
    live: map<nat, Live>)

  /** The scheduler's passes over the jobs table. */
  datatype Pass = DispatchRow | PromoteRetry | ReapLease | Redeliver(readAt: Time) | ExpireStale

  /** What one running `execute` can do next; Drop is its disappearance in a crash. */
  datatype Move =
    | Heartbeat
    | Progress(percent: int)
    | Return(result: Result)
    | Raise(code: string)
    | RaiseFatal(code: string)
    | ObserveCancel
    | Decide(delay: real)
    | Finalize
    | Drop

  datatype Action =
    | Scheduled(pass: Pass)
    | RequestCancel
    | Claim(worker: WorkerId)
    | Run(attempt: nat, move: Move)
    | Deliver(notice: nat, delivered: bool, retryAt: Time)

  datatype Stamped = At(now: Time, action: Action)

  /** The rows that `_create` inserts. */
  function Submitted(spec: JobSpec): JobState {
    var job := Job(spec, Pending, None, None, 0, 0, None, None, None, None, None, None, None, None);
    JobState(job, false, [], [Event(SubmittedEvent, Pending)], [], map[])
  }

  // ---------- building blocks of a transaction

  function Record(s: JobState, kind: EventType, toStatus: Status): JobState {
    s.(events := s.events + [Event(kind, toStatus)])
  }

  /** Insert on conflict do nothing: the dedupe key is the job id and the event type. */
  function Enqueue(notices: seq<Notice>, n: Notice): seq<Notice> {
    if exists i :: 0 <= i < |notices| && notices[i].event == n.event then notices else notices + [n]
  }

  function Notify(s: JobState, event: EventType, status: Status, result: Option<Result>, code: Option<string>,
                  now: Time): JobState {
    s.(notices := Enqueue(s.notices, Notice(event, status, result, code, NoticePending, 0, now)))
  }

  function Finish(attempts: seq<Attempt>, id: nat, status: Status, code: Option<string>): seq<Attempt> {
    if id < |attempts| then attempts[id := attempts[id].(status := status, errorCode := code)] else attempts
  }

  /** The coroutine ends: its row is finished and its local state is gone. */
  function Ended(s: JobState, id: nat, status: Status, code: Option<string>): JobState {
    s.(attempts := Finish(s.attempts, id, status, code), live := s.live - {id})
  }

  function Superseded(s: JobState, id: nat): JobState { Ended(s, id, Failed, Some(SUPERSEDED_CODE)) }

  function InPhase(s: JobState, id: nat, phase: Phase): JobState
    requires id in s.live
  {
    s.(live := s.live[id := s.live[id].(phase := phase)])
  }

  function Beaten(s: JobState, id: nat, now: Time): JobState
    requires id in s.live
  {
    s.(live := s.live[id := s.live[id].(beatAt := now)])
  }

  // ---------- scheduler passes, restricted to one job

  function Dispatched(s: JobState, now: Time): JobState {
    if s.published then s else
    Record(s.(published := true, job := if s.job.status.Pending? then MarkedQueued(s.job, now) else s.job),
           QueuedEvent, Queued)
  }

  function Promoted(s: JobState, now: Time): JobState {
    if !DueRetry(s.job, now) then s else
    Record(s.(job := RetryQueued(s.job, now)), QueuedEvent, Queued)
  }

  function Reaped(s: JobState, now: Time): JobState {
    if !LeaseExpired(s.job, now) then s
    else if s.job.attempts >= s.job.spec.maxAttempts then
      Notify(Record(s.(job := MarkedFailed(s.job, LEASE_EXPIRED_CODE, now, true)), FailedEvent, Failed),
             FailedEvent, Failed, None, Some(LEASE_EXPIRED_CODE), now)
    else
      Record(s.(job := LeaseRequeued(s.job, now)), RequeuedEvent, Queued)
  }

  function Redelivered(cfg: Settings, s: JobState, readAt: Time, now: Time): JobState {
    if readAt > now || !StuckQueued(s.job, StuckCutoff(cfg, readAt)) then s
    else s.(job := Redispatched(s.job, now))
  }

  function ExpiredIfStale(cfg: Settings, s: JobState, now: Time): JobState {
    if !Stale(s.job, StaleCutoff(cfg, now)) then s else
    Notify(Record(s.(job := MarkedExpired(s.job, now)), ExpiredEvent, Expired),
           ExpiredEvent, Expired, None, Some(EXPIRED_CODE), now)
  }

  // ---------- the API's cancel

  function CancelAsked(s: JobState, now: Time): JobState {
    if s.job.status.Terminal() || s.job.status.Cancelling? then s
    else if s.job.status.Running? then
      Record(s.(job := CancellationRequested(s.job, now)), CancelRequestedEvent, Cancelling)
    else
      Notify(Record(s.(job := CancelledInactive(s.job, now)), CancelledEvent, Cancelled),
             CancelledEvent, Cancelled, None, None, now)
  }

  // ---------- the worker

  function ClaimedBy(cfg: Settings, s: JobState, worker: WorkerId, now: Time): JobState {
    if !Claimable(s.job) then s else
    var job := Claimed(s.job, worker, cfg.leaseSeconds, now);
    Record(s.(job := job,
              attempts := s.attempts + [Attempt(job.attempts, worker, Running, None)],
              live := s.live[|s.attempts| := Live(job.attempts, worker, now, Executing)]),
           StartedEvent, Running)
  }

  function HeartbeatBy(cfg: Settings, s: JobState, id: nat, now: Time): JobState
    requires id in s.live
  {
    Beaten(if OwnedRunning(s.job, s.live[id].worker) then s.(job := Renewed(s.job, cfg.leaseSeconds, now)) else s,
           id, now)
  }

  function ProgressBy(cfg: Settings, s: JobState, id: nat, percent: int, now: Time): JobState
    requires id in s.live
  {
    Beaten(if Finalizable(s.job, s.live[id].worker)
           then s.(job := Progressed(s.job, percent, cfg.leaseSeconds, now)) else s,
           id, now)
  }

  /** The phase a coroutine is in after a move that commits nothing. */
  function NextPhase(job: Job, l: Live, move: Move, now: Time): Phase {
    match (l.phase, move)
    case (Executing, Return(result)) => Ending(CommitResult(result))
    case (Executing, Raise(code)) => Erring(code)
    case (Executing, RaiseFatal(code)) => Ending(CommitFailure(code, false))
    case (Executing, ObserveCancel) =>
      if job.cancellationRequestedAt.Some? then Ending(CommitCancel) else Executing
    case (Erring(code), Decide(delay)) => // `_handle_retryable` up to the finalizer it picks
      if job.cancellationRequestedAt.Some? then Ending(CommitCancel)
      else if l.number >= job.spec.maxAttempts then Ending(CommitFailure(code, true))
      else if delay >= 0.0 then Ending(CommitRetry(code, now + delay)) else l.phase
    case _ => l.phase
  }

  function CommittedResult(s: JobState, id: nat, result: Result, now: Time): JobState
    requires id in s.live
  {
    if !Finalizable(s.job, s.live[id].worker) then Superseded(s, id) else
    Notify(Record(Ended(s.(job := MarkedSucceeded(s.job, result, now)), id, Succeeded, None),
                  SucceededEvent, Succeeded),
           SucceededEvent, Succeeded, Some(result), None, now)
  }

  function CommittedFailure(s: JobState, id: nat, code: string, deadLettered: bool, now: Time): JobState
    requires id in s.live
  {
    if !Finalizable(s.job, s.live[id].worker) then Superseded(s, id) else
    Notify(Record(Ended(s.(job := MarkedFailed(s.job, code, now, deadLettered)), id, Failed, Some(code)),
                  FailedEvent, Failed),
           FailedEvent, Failed, None, Some(code), now)
  }

  function CommittedRetry(s: JobState, id: nat, code: string, at: Time): JobState
    requires id in s.live
  {
    if !OwnedRunning(s.job, s.live[id].worker) then Superseded(s, id) else
    Record(Ended(s.(job := RetryScheduled(s.job, code, at)), id, Failed, Some(code)),
           RetryScheduledEvent, Retrying)
  }

  function CommittedCancel(s: JobState, id: nat, now: Time): JobState
    requires id in s.live
  {
    if !Finalizable(s.job, s.live[id].worker) then Superseded(s, id) else
    Notify(Record(Ended(s.(job := CancelledByWorker(s.job, now)), id, Cancelled, None),
                  CancelledEvent, Cancelled),
           CancelledEvent, Cancelled, None, None, now)
  }

  function Finalized(s: JobState, id: nat, now: Time): JobState
    requires id in s.live && s.live[id].phase.Ending?
  {
    match s.live[id].phase.outcome
    case CommitResult(result) => CommittedResult(s, id, result, now)
    case CommitFailure(code, deadLettered) => CommittedFailure(s, id, code, deadLettered, now)
    case CommitRetry(code, at) => CommittedRetry(s, id, code, at)
    case CommitCancel => CommittedCancel(s, id, now)
  }

  // ---------- notification delivery

  /** `_attempt` and `_on_failure` on one claimed row. */
  function Attempted(cfg: Settings, n: Notice, delivered: bool, retryAt: Time): Notice {
    if delivered then n.(status := NoticeSent, attempts := n.attempts + 1)
    else if n.attempts + 1 >= cfg.notificationMaxAttempts then
      n.(status := NoticeFailed, attempts := n.attempts + 1)
    else n.(attempts := n.attempts + 1, nextAttemptAt := retryAt)
  }

  predicate DueNotice(n: Notice, now: Time) { n.status.NoticePending? && n.nextAttemptAt <= now }

  // ---------- steps and traces

  function PassStep(cfg: Settings, s: JobState, now: Time, pass: Pass): JobState {
    match pass
    case DispatchRow => Dispatched(s, now)
    case PromoteRetry => Promoted(s, now)
    case ReapLease => Reaped(s, now)
    case Redeliver(readAt) => Redelivered(cfg, s, readAt, now)
    case ExpireStale => ExpiredIfStale(cfg, s, now)
  }

  function RunStep(cfg: Settings, s: JobState, now: Time, id: nat, move: Move): JobState
    requires id in s.live
  {
    match move
    case Heartbeat => HeartbeatBy(cfg, s, id, now)
    case Progress(percent) =>
      if s.live[id].phase.Executing? && 0 <= percent <= 100 then ProgressBy(cfg, s, id, percent, now) else s
    case Finalize => if s.live[id].phase.Ending? then Finalized(s, id, now) else s
    case Drop => s.(live := s.live - {id})
    case _ => InPhase(s, id, NextPhase(s.job, s.live[id], move, now))
  }

  /** One atomic step; an action whose guard fails leaves the state as it is. */
  function Step(cfg: Settings, s: JobState, now: Time, a: Action): JobState {
    match a
    case Scheduled(pass) => PassStep(cfg, s, now, pass)
    case RequestCancel => CancelAsked(s, now)
    case Claim(worker) => ClaimedBy(cfg, s, worker, now)
    case Run(id, move) => if id in s.live then RunStep(cfg, s, now, id, move) else s
    case Deliver(i, delivered, retryAt) =>
      if i < |s.notices| && DueNotice(s.notices[i], now)
      then s.(notices := s.notices[i := Attempted(cfg, s.notices[i], delivered, retryAt)]) else s
  }

  function Stepper(cfg: Settings): (JobState, Stamped) -> JobState {
    (s: JobState, e: Stamped) => Step(cfg, s, e.now, e.action)
  }

  /** The state reached by a trace: any interleaving of any processes' steps. */
  function After(cfg: Settings, s: JobState, trace: seq<Stamped>): JobState {
    Fold(Stepper(cfg), s, trace)
  }
}
