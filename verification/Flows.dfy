// The flow of one job between statuses: what a step can do to the status, the counters kept in the
// event log and the set of running coroutines, apart from which process took it.
module Flows {
  import opened Domain
  import opened StateMachine
  import opened JobRows
  import opened Lifecycle
  import opened Invariants

  function Retries(s: JobState): nat { Count(s.events, RetryScheduledEvent) }

  function Requeues(s: JobState): nat { Count(s.events, RequeuedEvent) }

  predicate Waiting(s: JobState) { s.job.status.Queued? || s.job.status.Retrying? }

  datatype Flow = Quiet | ToQueue | Start | LeaseLost | RetryBy(id: nat) | AskCancel | End

  predicate SameCounters(s: JobState, s': JobState) {
    s'.job.attempts == s.job.attempts && Retries(s') == Retries(s) && Requeues(s') == Requeues(s)
  }

  predicate Follows(s: JobState, s': JobState, flow: Flow) {
    && s'.job.spec == s.job.spec
    && match flow
       case Quiet => s'.job.status == s.job.status && SameCounters(s, s') && s'.live.Keys <= s.live.Keys
       case ToQueue =>
         && (s.job.status.Pending? || s.job.status.Retrying?) && s'.job.status.Queued?
         && SameCounters(s, s') && s'.live.Keys == s.live.Keys
       case Start =>
         && Waiting(s) && s'.job.status.Running? && s'.job.attempts == s.job.attempts + 1
         && Retries(s') == Retries(s) && Requeues(s') == Requeues(s)
         && s.job.attempts !in s.live && s'.live.Keys == s.live.Keys + {s.job.attempts}
       case LeaseLost =>
         && s.job.status.Running? && s'.job.status.Queued? && s.job.attempts < s.job.spec.maxAttempts
         && s'.job.attempts == s.job.attempts && Retries(s') == Retries(s)
         && Requeues(s') == Requeues(s) + 1 && s'.live.Keys == s.live.Keys
       case RetryBy(id) =>
         && s.job.status.Running? && s'.job.status.Retrying? && s'.job.attempts == s.job.attempts
         && Retries(s') == Retries(s) + 1 && Requeues(s') == Requeues(s)
         && id in s.live && id + 1 < s.job.spec.maxAttempts && s'.live.Keys == s.live.Keys - {id}
       case AskCancel =>
         && s.job.status.Running? && s'.job.status.Cancelling? && SameCounters(s, s')
         && s'.live.Keys == s.live.Keys
       case End =>
         && CanTransition(s.job.status, s'.job.status) && s'.job.status.Terminal()
         && SameCounters(s, s') && s'.live.Keys <= s.live.Keys
  }

  lemma Recorded(events: seq<Event>, e: Event)
    ensures Count(events + [e], RetryScheduledEvent) ==
            Count(events, RetryScheduledEvent) + (if e.kind.RetryScheduledEvent? then 1 else 0)
    ensures Count(events + [e], RequeuedEvent) ==
            Count(events, RequeuedEvent) + (if e.kind.RequeuedEvent? then 1 else 0)
  {
    Appended(events, e);
  }

  lemma ReapFlow(s: JobState, now: Time) returns (flow: Flow)
    ensures Follows(s, Reaped(s, now), flow)
  {
    Recorded(s.events, Event(RequeuedEvent, Queued));
    Recorded(s.events, Event(FailedEvent, Failed));
    flow := if !LeaseExpired(s.job, now) then Quiet
            else if s.job.attempts >= s.job.spec.maxAttempts then End else LeaseLost;
  }

  lemma ExpireFlow(cfg: Settings, s: JobState, now: Time) returns (flow: Flow)
    ensures Follows(s, ExpiredIfStale(cfg, s, now), flow)
  {
    Recorded(s.events, Event(ExpiredEvent, Expired));
    flow := if Stale(s.job, StaleCutoff(cfg, now)) then End else Quiet;
  }

  lemma PassFlow(cfg: Settings, s: JobState, now: Time, pass: Pass) returns (flow: Flow)
    requires RowShape(s)
    ensures Follows(s, PassStep(cfg, s, now, pass), flow)
  {
    Recorded(s.events, Event(QueuedEvent, Queued));
    flow := Quiet;
    match pass
    case DispatchRow => if !s.published && s.job.status.Pending? { flow := ToQueue; }
    case PromoteRetry => if DueRetry(s.job, now) { flow := ToQueue; }
    case ReapLease => flow := ReapFlow(s, now);
    case Redeliver(_) =>
    case ExpireStale => flow := ExpireFlow(cfg, s, now);
  }

  lemma CancelFlow(cfg: Settings, s: JobState, now: Time) returns (flow: Flow)
    ensures Follows(s, CancelAsked(s, now), flow)
  {
    Recorded(s.events, Event(CancelRequestedEvent, Cancelling));
    Recorded(s.events, Event(CancelledEvent, Cancelled));
    flow := if s.job.status.Terminal() || s.job.status.Cancelling? then Quiet
            else if s.job.status.Running? then AskCancel else End;
  }

  lemma ClaimFlow(cfg: Settings, s: JobState, worker: WorkerId, now: Time) returns (flow: Flow)
    requires AttemptLog(s)
    ensures Follows(s, ClaimedBy(cfg, s, worker, now), flow)
  {
    Recorded(s.events, Event(StartedEvent, Running));
    assert s.job.attempts in s.live ==> LiveShape(s, s.job.attempts);
    flow := if Claimable(s.job) then Start else Quiet;
  }

  lemma CommittedRetryFlow(s: JobState, id: nat, code: string, at: Time) returns (flow: Flow)
    requires AttemptLog(s) && id in s.live && s.live[id].phase == Ending(CommitRetry(code, at))
    ensures Follows(s, CommittedRetry(s, id, code, at), flow)
  {
    assert LiveShape(s, id);
    Recorded(s.events, Event(RetryScheduledEvent, Retrying));
    flow := if OwnedRunning(s.job, s.live[id].worker) then RetryBy(id) else Quiet;
  }

  lemma CommittedResultFlow(s: JobState, id: nat, result: Result, now: Time) returns (flow: Flow)
    requires RowShape(s) && AttemptLog(s) && id in s.live && s.live[id].phase == Ending(CommitResult(result))
    ensures Follows(s, CommittedResult(s, id, result, now), flow)
  {
    assert LiveShape(s, id);
    Recorded(s.events, Event(SucceededEvent, Succeeded));
    flow := if Finalizable(s.job, s.live[id].worker) then End else Quiet;
  }

  lemma CommittedFailureFlow(s: JobState, id: nat, code: string, dead: bool, now: Time) returns (flow: Flow)
    requires RowShape(s) && AttemptLog(s) && id in s.live && s.live[id].phase == Ending(CommitFailure(code, dead))
    ensures Follows(s, CommittedFailure(s, id, code, dead, now), flow)
  {
    assert LiveShape(s, id);
    Recorded(s.events, Event(FailedEvent, Failed));
    flow := if Finalizable(s.job, s.live[id].worker) then End else Quiet;
  }

  /** The worker's cancel guard admits RUNNING, but no coroutine reaches it before CANCELLING. */
  lemma CommittedCancelFlow(s: JobState, id: nat, now: Time) returns (flow: Flow)
    requires RowShape(s) && AttemptLog(s) && id in s.live && s.live[id].phase == Ending(CommitCancel)
    ensures Follows(s, CommittedCancel(s, id, now), flow)
  {
    assert LiveShape(s, id);
    Recorded(s.events, Event(CancelledEvent, Cancelled));
    flow := if Finalizable(s.job, s.live[id].worker) then End else Quiet;
  }

  lemma CommitFlow(cfg: Settings, s: JobState, id: nat, now: Time) returns (flow: Flow)
    requires RowShape(s) && AttemptLog(s) && id in s.live && s.live[id].phase.Ending?
    ensures Follows(s, Finalized(s, id, now), flow)
  {
    match s.live[id].phase.outcome
    case CommitRetry(code, at) => flow := CommittedRetryFlow(s, id, code, at);
    case CommitResult(result) => flow := CommittedResultFlow(s, id, result, now);
    case CommitFailure(code, dead) => flow := CommittedFailureFlow(s, id, code, dead, now);
    case CommitCancel => flow := CommittedCancelFlow(s, id, now);
  }

  /** Every step follows one of the seven flows. */
  lemma StepFlow(cfg: Settings, s: JobState, now: Time, a: Action) returns (flow: Flow)
    requires RowShape(s) && AttemptLog(s)
    ensures Follows(s, Step(cfg, s, now, a), flow)
  {
    flow := Quiet;
    match a
    case Scheduled(pass) => flow := PassFlow(cfg, s, now, pass);
    case RequestCancel => flow := CancelFlow(cfg, s, now);
    case Claim(worker) => flow := ClaimFlow(cfg, s, worker, now);
    case Run(id, move) =>
      if id in s.live && move.Finalize? && s.live[id].phase.Ending? {
        flow := CommitFlow(cfg, s, id, now);
      }
    case Deliver(_, _, _) =>
  }
}

