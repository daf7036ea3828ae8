# Job orchestrator: a verified model of the job lifecycle

The orchestrator takes jobs over HTTP, stores them in PostgreSQL, hands their ids to workers through
Redis lists and runs them with leases, retries, cooperative cancellation, crash recovery and one
notification per finished job. This project models that protocol in Dafny and proves what it keeps in
every run. `dafny verify dfyconfig.toml` checks everything.

## How it is built

One job is a state machine. `Lifecycle.JobState` holds the rows of the five tables that carry the job's
id and the local state of every `execute` coroutine running it, by attempt id. Each transaction, that is
each `session.begin()` block, is one atomic step, and `Lifecycle.Step` is total: a statement whose
WHERE clause fails changes nothing. `Lifecycle.After` folds any sequence of steps, so a statement about
all traces is a statement about every interleaving of API, scheduler and workers, including lost leases,
coroutines that share a worker id, and crashes (a coroutine may disappear at any point). `JobRows` holds
the WHERE and SET clause of every guarded UPDATE, once.

On top of it stand the theorems about single jobs (`Invariants`, `Flows`, `Safety`, `Budget`, `Leases`,
`Witnesses`, `FlakyJobs`, `Overrun`, `Progress`), the exact guards, writes and waiting times over the stored
columns (`Columns`, `Timing`, `Choices`), then the imperative services as methods over a mutable
`Database`, `JobQueue` and `Clock` (`Store`, `Services`, `Scheduler.dfy`, `Execution`, `Workers`,
`Submission`), each proved against the step functions, and the theorems about whole tables and lists
(`Evolution`, `Refinement`, `Recovery`, `Catchup`, `Redelivery`, `Pagination`). Between any two transactions
of a service, and between a commit and its pushes, every other process takes any steps; the contracts hold
for all of them. `Evolved` relates two tables when every job has taken steps of the protocol and every new
job was submitted, `Acted` adds the lists; every service proves them, and `Refinement.SystemSafety` carries
the single-job theorems over to the whole system.

## Where the code and the documents differ

- RETRYING jobs are claimable (`backend/app/repositories/job_repository.py:12`), so a stale message takes
  RETRYING to RUNNING, which `VALID_TRANSITIONS` does not list. `Witnesses.TransitionsExact` shows that
  this is the only difference.
- `docs/DESIGN.md:296` says the reaper requeues or fails a crashed CANCELLING job. It selects RUNNING
  only, and `claim_for_execution` refuses a cancel request, so such a job stays CANCELLING.
  `Safety.CancellingEndsIff` gives the exact condition. Without any crash, a cancel that lands between the
  check in `_handle_retryable` and `schedule_retry` has the same effect (`Witnesses.StrandedIsReachable`).
- `dispatch_pending` ignores the result of `mark_queued`: a job cancelled or expired before its dispatch
  still gets a QUEUED event and a message. The event log replays correctly because terminal statuses
  absorb later events.
- The coroutines of one process share one worker id, so `locked_by` does not separate two attempts of
  the same process. The bound on attempts is 2 * max_attempts - 1 and is attained when max_attempts coroutines
  of the job can be alive at once. With at most c of them it is max_attempts + c - 1, attained too: the
  default of 4 coroutines in one process (`worker_concurrency`) and 5 attempts allows 8 starts. It falls to
  max_attempts when no id is shared by two live attempts or when leases are renewed in time.

## Model

| member | source | states |
|---|---|---|
| `Invariants.SubmittedInv` | backend/app/services/job_submission_service.py:65-93 | the rows a submission inserts satisfy the whole invariant |
| `Invariants.StepKeeps` | backend/app/repositories/job_repository.py:118-324 | every transaction of every process keeps the invariant: lock and lease set iff RUNNING or CANCELLING, `next_attempt_at` iff RETRYING, PENDING iff non-terminal with an unpublished dispatch row, result iff SUCCEEDED, attempt rows numbered 1..attempts, event log and notification in step with the status |
| `Invariants.AlwaysInv` | backend/app/repositories/job_repository.py:118-324 | the invariant holds in every state of every run: any interleaving, lost leases, shared worker ids, crashes |
| `Invariants.FinalizedKeeps` | backend/app/services/job_execution_service.py:151-262 | each of the four finalizers, committed or superseded, keeps the invariant |
| `Safety.StepEdge` | backend/app/domain/state_machine.py:3-21 | every status change is in VALID_TRANSITIONS or is the claim RETRYING to RUNNING |
| `Witnesses.TransitionsExact` | backend/app/domain/state_machine.py:3-21 | for every limit, a change from a to b occurs in some run if and only if it is in the table or is RETRYING to RUNNING, and, with a limit of 1, is not part of a retry or requeue; so RUNNING to CANCELLED never occurs although the finalizer allows it |
| `Flows.StepFlow` | backend/app/repositories/job_repository.py:118-324 | every step is one of seven flows, each fixing the change of status, attempts, retry and requeue counts and running coroutines |
| `Safety.TerminalForever` | backend/app/repositories/job_repository.py:63-65 | no run ever changes any column of a terminal job |
| `Safety.SpecForever` | backend/app/services/job_submission_service.py:71-83 | no statement changes the columns set at submission |
| `Columns.StepEffect` | backend/app/repositories/job_repository.py:118-324 | whatever the process, a change of status writes exactly the columns, the event and the notification that go with the old and the new status |
| `Columns.QuietEffect` | backend/app/repositories/job_repository.py:100-160 | a step that keeps the status writes at most a progress, a lease from now or a dispatch time of now |
| `Columns.FinalizerEffect` | backend/app/services/job_execution_service.py:151-262 | a finalizer that commits stores its own result, error, retry time or dead-letter time, and one that does not leaves the row alone |
| `Columns.AttemptRows` | backend/app/repositories/job_attempt_repository.py:16-44 | a start appends one attempt row, a finalizer overwrites its own, and no other step touches the attempt log |
| `Columns.DispatchesIff` | backend/app/repositories/job_repository.py:262-268 | an unpublished row is published once and moves the job iff it is still PENDING |
| `Columns.PromotesIff` | backend/app/repositories/job_repository.py:67-75 | a promotion fires iff the job is RETRYING and its next_attempt_at has come |
| `Columns.ReapsIff` | backend/app/repositories/job_repository.py:77-85 | a lease is taken iff the job is RUNNING and its lock has expired; requeued below the limit, dead-lettered at it |
| `Columns.ResendsIff` | backend/app/repositories/job_repository.py:87-106 | a message is sent again iff the job is QUEUED and its last dispatch is longer ago than queue_stuck_seconds, and only that time changes |
| `Columns.ExpiresIff` | backend/app/repositories/job_repository.py:108-116 | a job expires iff it is PENDING or QUEUED and older than queue_max_age_seconds |
| `Columns.CancelsIff` | backend/app/repositories/job_repository.py:237-260 | a cancel changes a job iff it is PENDING, QUEUED, RETRYING or RUNNING |
| `Columns.StartsIff` | backend/app/repositories/job_repository.py:118-137 | a claim fires iff the job is QUEUED or RETRYING, whatever its retry time |
| `Columns.BeatsIff` | backend/app/repositories/job_repository.py:139-145 | a beat sets the lease from now iff the job is RUNNING under the worker id |
| `Columns.CommitsIff` | backend/app/repositories/job_repository.py:162-235 | a finalizer commits iff the row carries its id and is RUNNING, or CANCELLING and not for a retry |
| `Columns.DeliversIff` | backend/app/repositories/notification_outbox_repository.py:48-90 | a notification is tried iff it is pending and due, with the new row for each outcome |
| `Timing.RetryWaits` | backend/app/repositories/job_repository.py:67-75 | in no run is a scheduled retry promoted before the time its attempt chose |
| `Timing.LeaseHolds` | backend/app/repositories/job_repository.py:77-85 | in no run is a lease taken within the lease time of a claim, beat or progress report that set it |
| `Timing.ExpiredIsOld` | backend/app/services/expiry_service.py:22-49 | in every run an EXPIRED job was completed when older than the maximum age |
| `Timing.NoEarlyExpiry` | backend/app/services/expiry_service.py:22-49 | no run has a job EXPIRED while it is not older than the maximum age |
| `Timing.DeliveryWaits` | backend/app/services/notification_service.py:103-112 | a failed delivery is not tried again before the time it was put off to |
| `Safety.ExactlyOneNotification` | backend/app/services/notification_service.py:20-56 | in every run a job is terminal iff it has exactly one notification, which tells its final status and result, over all six finalizing paths |
| `Safety.NotificationDelivery` | backend/app/repositories/notification_outbox_repository.py:48-90 | a notification is PENDING iff it is not sent and has attempts left, and FAILED only with its attempts used up |
| `Safety.EventLogRefinesStatus` | backend/app/repositories/job_event_repository.py:14-31 | folding the target statuses of the event log, terminal ones absorbing, gives the stored status in spite of the unguarded QUEUED event, and the STARTED events number `attempts` |
| `Safety.CancellationIsFinal` | backend/app/services/job_cancellation_service.py:25-66 | after an accepted cancel no run starts another attempt or enters RETRYING or QUEUED |
| `Safety.OnlyOwnerLeavesCancelling` | backend/app/repositories/job_repository.py:199-260 | only a finalizer carrying the `locked_by` id takes a job out of CANCELLING |
| `Safety.CancellingEndsIff` | backend/app/services/job_execution_service.py:138-149 | a CANCELLING job can still reach a terminal status iff a running coroutine carries its `locked_by` id and is not about to schedule a retry |
| `Progress.EndsIff` | backend/app/services/job_execution_service.py:48-149 | for every payload and from every sound state, a run without a new cancel, an expiry or a crash, whose handlers end as they intend, ends the job iff it is not stranded in CANCELLING |
| `Progress.QueuedAttempt` | backend/app/services/job_execution_service.py:48-83 | a queued job can be claimed and run to its end or, below the limit, to a scheduled retry |
| `Safety.StrandedForever` | backend/app/repositories/job_repository.py:77-85 | without such a coroutine the job stays CANCELLING in every run; no scheduler pass takes it |
| `Witnesses.StrandedIsReachable` | backend/app/services/job_execution_service.py:141-149 | a cancel between the worker's check and its `schedule_retry` reaches that state, for every limit of at least 2 |
| `Safety.FencedFinalizer` | backend/app/services/job_execution_service.py:252-262 | a finalizer whose id is not `locked_by` changes its own attempt row, to FAILED with code SUPERSEDED, and nothing else |
| `Safety.SingleCommit` | backend/app/services/job_execution_service.py:151-173 | in every run a job is SUCCEEDED iff exactly one attempt row is, and its result is the one that attempt returned and committed |
| `Budget.AttemptBudget` | backend/app/services/lease_service.py:28-49 | in every run, leases lost and worker ids shared, attempts <= 2 * max_attempts - 1 |
| `Witnesses.AttemptBudgetIsAttained` | backend/app/workers/worker.py:69-80 | for every limit some run reaches that bound with max_attempts coroutines of one worker id alive at once |
| `Budget.ConcurrencyBudget` | backend/app/workers/worker.py:38-40 | with at most c coroutines of the job alive at once, attempts <= max_attempts + c - 1 |
| `Witnesses.ConcurrencyBudgetIsAttained` | backend/app/workers/worker.py:38-40 | for every limit m and c <= m some run with at most c coroutines alive at once, all of one worker id, starts the job m + c - 1 times |
| `Overrun.ExceedsIff` | backend/app/services/lease_service.py:28-49 | the exact condition on a state for some run from it to exceed max_attempts: two starts left before the last; or one, and a live attempt that may still retry; or none, and the job waits or such an attempt owns the row |
| `Overrun.KeptStep` | backend/app/repositories/job_repository.py:118-324 | every step keeps the other states free of that danger |
| `Budget.AttemptLimit` | backend/app/repositories/job_repository.py:118-137 | attempts <= max_attempts whenever no worker id has two live attempts of the job |
| `Budget.StatusChangeBudget` | backend/app/repositories/job_repository.py:118-324 | one job changes its status at most 5 * max_attempts - 1 times in any run |
| `Budget.PotentialFlow` | backend/app/repositories/job_repository.py:118-324 | the measure behind that bound drops at every status change |
| `Witnesses.StatusChangeBudgetIsAttained` | backend/app/repositories/job_repository.py:118-324 | some run makes exactly 5 * max_attempts - 1 status changes, with max_attempts coroutines of one worker id alive at once |
| `Leases.MutualExclusion` | backend/app/services/job_execution_service.py:48-94 | if the gaps from claim to each beat to finalizer never exceed the lease, a job has at most one live attempt, its number is `attempts`, it owns the row, and starts stay within max_attempts |
| `Leases.TimelyOutcomeCommits` | backend/app/services/job_execution_service.py:151-250 | then an outcome is never discarded, except a retry overtaken by a cancel |
| `Selection.Select` | backend/app/repositories/job_repository.py:67-116 | ORDER BY, LIMIT, SKIP LOCKED: distinct candidates in key order, no candidate left out that sorts before a chosen one, as many as the limit allows |
| `Selection.SelectsAll` | backend/app/repositories/job_repository.py:67-116 | a limit that reaches the number of candidates selects every one |
| `Selection.OldestFirst` | backend/app/repositories/job_repository.py:67-116 | a limited selection serves a set of rows that sorts ahead of all other candidates before any of them |
| `Choices.DispatchChooses` | backend/app/repositories/dispatch_outbox_repository.py:18-26 | the dispatch takes the jobs with an unpublished row, oldest first, as many as the limit allows |
| `Choices.PromoteChooses` | backend/app/repositories/job_repository.py:67-75 | the promotion takes the RETRYING jobs with next_attempt_at at or before its reading, earliest first |
| `Choices.ReapChooses` | backend/app/repositories/job_repository.py:77-85 | the reaper takes the RUNNING jobs with lock_expires_at before its reading, earliest first |
| `Choices.RedeliverChooses` | backend/app/repositories/job_repository.py:87-98 | the redelivery takes the QUEUED jobs dispatched longer ago than queue_stuck_seconds, longest ago first |
| `Choices.ExpireChooses` | backend/app/repositories/job_repository.py:108-116 | the expiry takes the PENDING and QUEUED jobs older than queue_max_age_seconds, oldest first |
| `Choices.ExpireLeavesNone` | backend/app/services/expiry_service.py:22-49 | a pass whose limit reaches them leaves no unlocked job of that kind |
| `Choices.NotifyChooses` | backend/app/repositories/notification_outbox_repository.py:48-59 | the delivery takes the pending notifications whose time has come, earliest first |
| `Store.JobQueue.Publish` | backend/app/queue/redis_queue.py:19-20 | pushes at the left of the priority's list and touches no other list |
| `Store.JobQueue.PublishAll` | backend/app/services/dispatch_service.py:40-42 | the push loop after a commit leaves each list with the messages of its priority pushed in order |
| `Store.JobQueue.Consume` | backend/app/queue/redis_queue.py:22-27 | pops the oldest id of the first nonempty list in priority order; None iff all lists are empty |
| `Store.JobQueue.DeadLetter` | backend/app/queue/redis_queue.py:29-30 | pushes to the dead-letter list only |
| `Store.JobQueue.Depth` | backend/app/queue/redis_queue.py:32-36 | the loop adds up the lengths of the three lists |
| `Store.Database.Update` | backend/app/repositories/job_repository.py:118-137 | a guarded UPDATE changes the row iff it exists and its WHERE clause holds, and reports whether it did |
| `Store.Database.EnqueueNotice` | backend/app/repositories/notification_outbox_repository.py:17-46 | inserts the notification unless the job has one with the same event type |
| `Store.Database.StartAttempt` | backend/app/repositories/job_attempt_repository.py:16-28 | adds a RUNNING attempt row at the end of the job's attempts |
| `Store.Database.FinishAttempt` | backend/app/repositories/job_attempt_repository.py:30-44 | overwrites status and error of that attempt row only |
| `Store.Database.RecordEvent` | backend/app/repositories/job_event_repository.py:14-31 | appends to the event log only |
| `Store.Database.MarkPublished` | backend/app/repositories/dispatch_outbox_repository.py:28-34 | publishes the dispatch row only |
| `Services.DispatchService.DispatchPending` | backend/app/services/dispatch_service.py:20-42 | the oldest unlocked unpublished rows each take the dispatch step, then exactly their ids are pushed, even for jobs already cancelled or expired |
| `Services.DispatchService.RedeliverStuck` | backend/app/services/dispatch_service.py:44-54 | the unlocked QUEUED jobs past the cooldown, never dispatched or longest ago first, are stamped with fresh clock readings and pushed; nothing else changes |
| `Services.RetryService.PromoteDue` | backend/app/services/retry_service.py:15-33 | the unlocked due retries, earliest first, become QUEUED and are pushed |
| `Services.LeaseService.ReapOne` | backend/app/services/lease_service.py:28-55 | one expired row is failed with event and notification when its attempts are used up, and requeued otherwise |
| `Services.LeaseService.ReapExpired` | backend/app/services/lease_service.py:20-62 | the unlocked expired leases each take that step; those with attempts left are pushed to their lists, the others dead-lettered, in selection order |
| `Services.ExpiryService.ExpireJobs` | backend/app/services/expiry_service.py:22-49 | the oldest unlocked stale PENDING or QUEUED jobs become EXPIRED with event and notification; the count is exact |
| `Services.NotificationDeliveryService.AttemptOne` | backend/app/services/notification_service.py:72-112 | one delivery: sent, failed for good, or rescheduled after a legal backoff |
| `Services.NotificationDeliveryService.DispatchDue` | backend/app/services/notification_service.py:64-70 | the unlocked due notifications, earliest first, are each tried once, with a legal backoff for every reschedule |
| `Services.RetryTimeIs` | backend/app/services/notification_service.py:111-112 | the k-th failure puts a notification off by the base doubled k - 1 times, or the cap, within the spread of the jitter |
| `Services.JobCancellationService.Cancel` | backend/app/services/job_cancellation_service.py:25-66 | not found, conflict on a terminal job, already CANCELLING, RUNNING to CANCELLING, or CANCELLED at once with event and notification |
| `Evolution.Others.Act` | backend/app/workers/worker.py:38-58 | all other processes: any steps of any jobs, submissions, consumed messages, messages for published jobs, dead letters of failed ones |
| `Evolution.QueuedIsCommitted` | backend/app/services/dispatch_service.py:20-42 | every id in a priority list names a committed job of that priority that is no longer PENDING |
| `Evolution.EvolvedKeepsQueue` | backend/app/queue/redis_queue.py:22-27 | steps of any processes and lost or consumed messages keep that |
| `Evolution.EvolvedKeepsDead` | backend/app/services/lease_service.py:57-58 | and keep every dead letter naming a FAILED job with `dead_lettered_at` set |
| `Refinement.DispatchActs` | backend/app/services/dispatch_service.py:20-42 | the pass, with the others acting between its commit and its pushes, takes only steps of the protocol, keeps every invariant, and pushes only ids of committed jobs |
| `Refinement.RedeliverActs` | backend/app/services/dispatch_service.py:44-54 | the same for the redelivery |
| `Refinement.PromoteActs` | backend/app/services/retry_service.py:15-33 | the same for the promotion |
| `Refinement.ReapActs` | backend/app/services/lease_service.py:20-62 | the same for the reaper, whose dead letters name only failed jobs |
| `Refinement.ExpireActs` | backend/app/services/expiry_service.py:22-49 | the same for the expiry |
| `Refinement.NotifyActs` | backend/app/services/notification_service.py:64-70 | the same for the notifications |
| `Refinement.CancelActs` | backend/app/services/job_cancellation_service.py:25-66 | the same for a cancel |
| `Refinement.SystemSafety` | backend/app/repositories/job_repository.py:118-324 | from the empty database on, whatever ran, every job satisfies the invariant, the attempt budget, one notification iff terminal, one winner iff SUCCEEDED |
| `Recovery.TickRecovers` | backend/app/workers/scheduler.py:57-63 | a tick whose batch reaches the table and whose clock is past every deadline leaves each job terminal, CANCELLING, or QUEUED with its id in its list, whatever messages and workers were lost, except jobs that other transactions lock or other processes touch during the tick; with any batch it leaves every other job on track |
| `Recovery.TickActs` | backend/app/workers/scheduler.py:57-63 | a tick, with the others acting between its passes, takes only steps of the protocol and keeps every invariant of tables and lists |
| `Recovery.DispatchRecovers` | backend/app/services/dispatch_service.py:20-42 | after the first pass no such job is PENDING, and none has lost its place on track |
| `Recovery.PromoteRecovers` | backend/app/services/retry_service.py:15-33 | after the second pass none is RETRYING either |
| `Recovery.ReapRecovers` | backend/app/services/lease_service.py:20-62 | after the third pass none is RUNNING either |
| `Recovery.RedeliverRecovers` | backend/app/services/dispatch_service.py:44-54 | after the fourth pass every such QUEUED job is in its list |
| `Catchup.CatchUp` | backend/app/workers/scheduler.py:43-63 | when nobody else acts, ceil(n/b) ticks with batch b recover all n jobs, however many are due at once |
| `Catchup.TickServes` | backend/app/workers/scheduler.py:57-63 | one tick serves a full batch of each kind of waiting job, longest-waiting first where fresh ones compete |
| `Scheduling.TickKeepsPromise` | backend/app/workers/scheduler.py:57-63 | a tick keeps every invariant, takes only steps of the protocol, sends only ids of committed jobs and dead letters of failed ones, and recovers as above for every set of jobs left alone |
| `Scheduling.Scheduler.RunPasses` | backend/app/workers/scheduler.py:57-63 | the six passes run in order at nondecreasing clock readings, the others acting between them |
| `Scheduling.Scheduler.Tick` | backend/app/workers/scheduler.py:57-63 | the same promise for the method |
| `Redelivery.RedeliveryRate` | backend/app/services/dispatch_service.py:44-54 | over any run two redeliveries of one job are more than `queue_stuck_seconds` apart |
| `Redelivery.RedeliveryFairness` | backend/app/repositories/job_repository.py:87-106 | with q stuck jobs and batch b, ceil(q/b) passes within one cooldown send each of them exactly once, unless another step took it, with the others acting freely in between |
| `Redelivery.AtMostOnce` | backend/app/repositories/job_repository.py:100-106 | within one cooldown no job at all is sent twice |
| `Redelivery.StepsCarry` | backend/app/repositories/job_repository.py:118-324 | what the fairness proof allows between passes covers every step of other processes and every submission |
| `Redelivery.Served` | backend/app/repositories/job_repository.py:87-98 | one pass serves the longest-waiting jobs ahead of newly stuck ones |
| `Execution.JobExecutionService.Claim` | backend/app/services/job_execution_service.py:96-121 | claims a QUEUED or RETRYING job without a cancel request, with attempt row and STARTED event; otherwise changes nothing |
| `Execution.JobExecutionService.Heartbeat` | backend/app/services/job_execution_service.py:85-94 | renews the lease iff the job is RUNNING under this worker id |
| `Execution.JobExecutionService.CheckCancelled` | backend/app/services/job_execution_service.py:123-130 | goes on only when no cancel request is stored; otherwise the cancellation, or an unexpected error, is raised |
| `Execution.JobExecutionService.ReportProgress` | backend/app/services/job_execution_service.py:132-136 | if it returns and the worker holds the row, the row has the percentage and a lease from now |
| `Execution.JobExecutionService.RunSteps` | backend/app/domain/job_catalog.py:46-50 | an uninterrupted loop makes one check and then one report for each step, with that step's percentage; an interrupted one makes a first part of those calls |
| `Execution.PercentsGrow` | backend/app/domain/job_catalog.py:46-50 | the percentages stay in 0..100, never fall and end at 100 |
| `Execution.JobExecutionService.Handle` | backend/app/domain/job_catalog.py:80-112 | a handler makes its calls in order and ends as its type and attempt number determine, unless a cancel or an unexpected error interrupts one of its checks |
| `Execution.JobExecutionService.DecideRetry` | backend/app/services/job_execution_service.py:138-149 | a retryable error ends in cancellation, in a dead-lettered failure when the attempts are used up, or in a retry after a legal backoff |
| `Execution.JobExecutionService.FinalizeSucceeded` | backend/app/services/job_execution_service.py:151-173 | commits result, attempt row, event and notification together, or supersedes the attempt |
| `Execution.JobExecutionService.FinalizeFailed` | backend/app/services/job_execution_service.py:175-205 | the same for a failure, and tells whether it was committed |
| `Execution.JobExecutionService.ScheduleRetry` | backend/app/services/job_execution_service.py:207-226 | the same for a retry, which needs RUNNING |
| `Execution.JobExecutionService.FinalizeCancelled` | backend/app/services/job_execution_service.py:228-250 | the same for a cancellation |
| `Execution.JobExecutionService.Execute` | backend/app/services/job_execution_service.py:48-83 | claims and runs one attempt with every other process free to act between any two transactions: only steps of the protocol are taken, the outcome is the one the handler's end calls for, the dead letter is pushed after the commit iff a dead-lettered failure was committed, and an unclaimable job is left alone |
| `Execution.AttemptOutcome` | backend/app/services/job_execution_service.py:151-262 | a finished attempt's row is never left RUNNING; it is SUCCEEDED iff the handler returned its intended result to a worker that still held the row, and then the job has that result; a loser changes nothing else |
| `Execution.RetryOutcome` | backend/app/services/job_execution_service.py:138-149 | a retry is scheduled iff the handler raised a retryable error with attempts left and the row is still RUNNING for this worker, which excludes a stored cancel; its time is a legal backoff; a dead letter is a job failed on its last attempt |
| `Execution.RetryTime` | backend/app/services/job_execution_service.py:148-149 | the retry after attempt k is put off by the base doubled k - 1 times, or the cap, within the spread of the jitter |
| `Execution.StoredResult` | backend/app/domain/job_catalog.py:80-112 | the result a successful attempt stores holds the values of the job's own payload and the number of the attempt |
| `Execution.StoredError` | backend/app/domain/job_catalog.py:93-112 | the error a failed attempt stores is the one of the job's own type and attempt number, or UNEXPECTED_ERROR; a non-retryable failure is not dead-lettered |
| `Execution.PercentIs` | backend/app/domain/job_catalog.py:50-50 | a reported percentage is a hundred times the finished share of the steps, rounded down |
| `Execution.ForeignHolds` | backend/app/services/job_execution_service.py:48-83 | no step of any other coroutine, worker or pass changes the local state of a running attempt |
| `Workers.Worker.ConsumeOne` | backend/app/workers/worker.py:48-66 | one round pops the next message in priority order, the others act, and the job is run iff it is claimable when the claim runs |
| `FlakyJobs.FlakyOutcome` | backend/app/domain/job_catalog.py:93-98 | for all fail_times f and limits m, any run without cancel, expiry, lost lease or crash that ends the job ends it SUCCEEDED with attempts f + 1 if f < m, and FAILED and dead-lettered with attempts m otherwise |
| `FlakyJobs.FlakyFinishes` | backend/app/services/retry_service.py:15-33 | from every state of such a run, claims, finalizers and promotions bring the job to that end |
| `Submission.JobSubmissionService.Submit` | backend/app/services/job_submission_service.py:22-50 | a key that is taken is answered with its job and nothing is inserted, a conflict with a concurrent submit too, the integrity error escapes only for a limit below 1, and otherwise the count alone decides between rejection and a job; the user's unfinished jobs stay within the cap for the most submissions that were between count and insert at once |
| `Submission.JobSubmissionService.Create` | backend/app/services/job_submission_service.py:56-93 | rejects iff the count reaches the cap; otherwise inserts a new PENDING job with event and dispatch row, or meets a constraint; keeps the same cap |
| `Submission.JobSubmissionService.FindExisting` | backend/app/repositories/job_repository.py:36-38 | finds the job with the user and key iff there is one |
| `Submission.JobSubmissionService.Insert` | backend/app/db/models.py:54-68 | fails iff the limit is below 1 or the key is taken, and then changes nothing |
| `Submission.SameKeySameJob` | backend/app/services/job_submission_service.py:39-54 | two accepted submits with one user and key name the same job under any interleaving |
| `Submission.JobSubmissionService.CountActive` | backend/app/repositories/job_repository.py:63-65 | goes on iff the count is below the cap, and keeps the cap |
| `Submission.JobSubmissionService.InsertCounted` | backend/app/services/job_submission_service.py:71-93 | a submission that has counted inserts or meets a constraint, and keeps the cap |
| `Submission.ActiveIs` | backend/app/repositories/job_repository.py:63-65 | the rows counted are the user's PENDING, QUEUED, RUNNING, RETRYING and CANCELLING jobs |
| `Submission.NoneActive` | backend/app/repositories/job_repository.py:63-65 | the count is 0 iff all of the user's jobs have finished |
| `Submission.StepsFreeRoom` | backend/app/repositories/job_repository.py:63-65 | a step lowers the count by one iff it finishes a job of the user, and never changes it otherwise |
| `Submission.QuotaBound` | backend/app/services/job_submission_service.py:65-70 | with at most k submissions of a user between count and insert, unfinished jobs never exceed max_in_flight + k - 1; exact for k = 1 |
| `Submission.QuotaIsAttained` | backend/app/services/job_submission_service.py:65-70 | for every positive cap and k some run reaches that number |
| `Pagination.ListForUser` | backend/app/repositories/job_repository.py:40-57 | the first rows after the cursor of the filtered list sorted by created_at and id, descending |
| `Pagination.ListJobs` | backend/app/services/job_read_service.py:21-45 | the page, whether there is more, and the cursor of its last row, from limit + 1 rows |
| `Pagination.PageIsRight` | backend/app/repositories/job_repository.py:49-57 | over the columns of the rows: a page holds the user's rows of the requested status and type after the cursor, newest first, none left out before its last, at most limit of them, and a cursor iff there are more |
| `Pagination.TraversalShowsWanted` | backend/app/services/job_read_service.py:21-45 | a whole traversal shows exactly the user's rows that were asked for, newest first |
| `Pagination.OthersDoNotShow` | backend/app/repositories/job_repository.py:49-49 | tables with the same rows of the user give the same list |
| `Pagination.ForeignSteps` | backend/app/repositories/job_repository.py:49-49 | every step of a job of another user and every submission of one leave the rows of the user alone |
| `Pagination.TraversalOfFixedTable` | backend/app/services/job_read_service.py:21-45 | following the cursors over a fixed table lists exactly the sorted rows in ceil(n/limit) pages, at least one, all but the last full |
| `Pagination.TraversalUnderInserts` | backend/app/services/job_read_service.py:21-45 | under inserts between pages every row present at the start is listed exactly once, in order |
| `Pagination.TraversalIsOrdered` | backend/app/repositories/job_repository.py:56-56 | over all pages the listed rows are strictly ordered, so none is repeated |
| `Pagination.TraversalEnds` | backend/app/services/job_read_service.py:38-43 | over a fixed table the cursors come to an end from any position |
| `Pagination.ListedGrows` | backend/app/repositories/job_repository.py:40-57 | without a status filter the steps of all processes only add rows to the list |
| `Pagination.SortedIs` | backend/app/repositories/job_repository.py:56-56 | the reference list holds the set's rows in strict order |
| `Backoff.CappedDoubles` | backend/app/domain/backoff.py:7-8 | the delay before jitter is the base at attempt 1, or the cap if that is smaller, and doubles from attempt to attempt until it meets the cap |
| `Backoff.DelaysExactly` | backend/app/domain/backoff.py:6-10 | the delays that can be drawn are exactly the nonnegative ones within ratio times that delay of it |
| `Backoff.BackedOffIs` | backend/app/domain/backoff.py:6-10 | so is the distance of a backed-off time from its clock reading |
| `Backoff.CappedGrows` | backend/app/domain/backoff.py:7-8 | the capped delay is nonnegative, nondecreasing in the attempt and at most the cap |
| `Backoff.DelayBand` | backend/app/domain/backoff.py:6-10 | every delay is nonnegative and within the jitter band of its capped value |
| `Backoff.TotalWaitLimit` | backend/app/domain/backoff.py:6-10 | the waits of n failures add up to at most (1 + ratio) * min(base * (2^n - 1), n * cap) |
| `Backoff.DoublingIsProduct` | backend/app/domain/backoff.py:7-7 | the doubling sum in that bound is base * (2^n - 1) |
| `Backoff.TimesIsProduct` | backend/app/domain/backoff.py:8-8 | the repeated sum in that bound is n * cap |

## Left out

- Routes, dependency wiring, middleware, configuration parsing, logging, health checks, migrations, Docker, the frontend: no state logic.
- SQL execution: one transaction is one atomic step, SKIP LOCKED is a choice among the unlocked matching rows (`locked` is an arbitrary set), LPUSH and BRPOP work on a sequence.
- The tables are grouped by job; the dispatch outbox is one flag per job, and its order is the order of the jobs' `created_at`.
- Columns that no guard reads: `queued_at`, `heartbeat_at`, `updated_at`, `published_at`, `sent_at`, error messages, cancel reasons, event details and `from_status`.
- Notification channel, webhook HTTP and signature: a delivery succeeds or raises an HTTP error; any other exception, which rolls the whole batch back and can send a webhook twice, is not modelled.
- Services.JobCancellationService.Cancel: the returned status and conflict flag are modelled, not the stored cancel reason.
- Recovery.TickRecovers: a job that another process touches during the tick is excepted, since that process may leave it in any status; the other guarantees of a tick hold for every job.
- Catchup.CatchUp: counts ticks for a time when nobody else acts; with others acting, redelivery is still fair by Redelivery.RedeliveryFairness.
- Witnesses.StatusChangeBudgetIsAttained: the most status changes for a smaller number of coroutines is not determined.
- Overrun.ExceedsIff: a handler may raise a retryable error for any payload.
- Execution.JobExecutionService.Execute: a clock reading and the transaction that uses it happen together, a database error inside a finalizer is only modelled as the coroutine's disappearance, a heartbeat still in flight after the finalizer is not modelled, and while the attempt runs the others act on the tables but not on the lists.
- Execution.JobExecutionService.Handle: any exception other than those the handlers raise is one unexpected error at a context call; result texts are represented by the numbers in them.
- Execution.PercentsGrow: percentages are computed over the reals; binary rounding can make one of them smaller by one.
- Workers.Worker.ConsumeOne: one round; the stop event, malformed ids, Redis errors and the logging of exceptions are left out. The scheduler's loop around `tick` is left out in the same way.
- Submission.JobSubmissionService.Submit: the normalizers of the payload appear as their result (a payload or a rejection) and its JSON text as a byte count.
- Pagination.ListJobs: rows are represented by their positions and the cursor is the position itself; its base64 text and the rejection of malformed cursors are left out.
- Backoff.TotalWaitLimit: reals instead of floats, and any jitter in the range instead of a random number.
- Event and status count queries (`list_for_job`, `status_counts`, `dead_letter_depth`): plain reads.
- UUIDs: ids are natural numbers, new ones are unused, and their order stands for the order of UUIDs.
