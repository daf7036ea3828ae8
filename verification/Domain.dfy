// The values the orchestrator stores: statuses, rows and settings
// (backend/app/domain/enums.py, backend/app/db/models.py, backend/app/core/config.py).
module Domain {
  datatype Option<+T> = None | Some(value: T)

  type JobId = nat
  type UserId = string
  type WorkerId = string
  type Time = real

  datatype Status =
    Pending | Queued | Running | Retrying | Succeeded | Failed | Cancelling | Cancelled | Expired
  {
    predicate Terminal() { Succeeded? || Failed? || Cancelled? || Expired? }

    /** The statuses in which a worker holds the row's lock. */
    predicate Held() { Running? || Cancelling? }
  }

  datatype Priority = Low | Normal | High

  datatype EventType =
    | SubmittedEvent | QueuedEvent | StartedEvent | SucceededEvent | FailedEvent
    | RetryScheduledEvent | CancelRequestedEvent | CancelledEvent | RequeuedEvent | ExpiredEvent

  datatype Payload =
    | Sleep(duration: real, steps: nat)
    | Report(pages: nat)
    | Flaky(failTimes: nat)
    | AlwaysFail
    | LlmSummary(prompt: string, tokens: nat, simulateRateLimit: bool)

  datatype Result =
    | Slept(duration: real, steps: nat)
    | Reported(job: JobId, pages: nat)
    | SucceededOnAttempt(attempt: nat)
    | Summarized(promptLength: nat, tokens: nat)

  /** The columns of `jobs` that no statement updates. */
  datatype JobSpec = JobSpec(
    userId: UserId, priority: Priority, payload: Payload, idempotencyKey: Option<string>,
    maxAttempts: int, createdAt: Time)

  /** One row of `jobs`. */
  datatype Job = Job(
    spec: JobSpec,
    status: Status,
    result: Option<Result>,
    errorCode: Option<string>,
    progress: int,
    attempts: nat,
    nextAttemptAt: Option<Time>,
    cancellationRequestedAt: Option<Time>,
    lockedBy: Option<WorkerId>,
    lockExpiresAt: Option<Time>,
    lastDispatchedAt: Option<Time>,
    deadLetteredAt: Option<Time>,
    startedAt: Option<Time>,
    completedAt: Option<Time>)

  /** One row of `job_attempts`. */
  datatype Attempt = Attempt(number: nat, worker: WorkerId, status: Status, errorCode: Option<string>)

  /** One row of `job_events`; every caller records a target status. */
  datatype Event = Event(kind: EventType, toStatus: Status)

  datatype NoticeStatus = NoticePending | NoticeSent | NoticeFailed

  /** One row of `notification_outbox`; `event` completes the dedupe key of the job. */
  datatype Notice = Notice(
    event: EventType, jobStatus: Status, result: Option<Result>, errorCode: Option<string>,
    status: NoticeStatus, attempts: nat, nextAttemptAt: Time)

  datatype Settings = Settings(
    leaseSeconds: real,
    queueStuckSeconds: real,
    queueMaxAgeSeconds: real,
    maxInFlightPerUser: int,
    notificationMaxAttempts: int,
    handlerProgressSteps: nat,
    maxPayloadBytes: int,
    defaultMaxAttempts: int,
    retryBaseSeconds: real,
    retryMaxSeconds: real,
    retryJitterRatio: real)
}

// The documented transition table (backend/app/domain/state_machine.py).
module StateMachine {
  import opened Domain

  function ValidTransitions(source: Status): set<Status> {
    match source
    case Pending => {Queued, Cancelled, Expired}
    case Queued => {Running, Cancelled, Expired}
    case Running => {Succeeded, Failed, Retrying, Cancelling, Queued}
    case Retrying => {Queued, Cancelled}
    case Cancelling => {Cancelled, Succeeded, Failed}
    case _ => {}
  }

  predicate CanTransition(source: Status, target: Status) { target in ValidTransitions(source) }

  /** The transitions the code performs: the table plus the claim edge it omits. */
  predicate Edge(source: Status, target: Status) {
    CanTransition(source, target) || (source.Retrying? && target.Running?)
  }
}
