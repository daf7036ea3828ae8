// One tick of the scheduler: the six passes in order, and what a tick guarantees.
module Scheduling {
  import opened Domain
  import opened Store
  import opened Evolution
  import opened Services
  import opened Recovery

  /**
   * For any batch size and any rows locked by other transactions a tick keeps every invariant, takes only
   * steps of the protocol and sends only messages for committed jobs and dead letters for failed ones.
   * When `start` is past every lease, retry and stuck deadline, and the batch reaches the table, it recovers
   * every job that is unlocked and that no other process touches meanwhile, whatever messages were lost and
   * whichever workers crashed: the job is terminal, or CANCELLING, or QUEUED with its id in its priority list.
   */
  ghost predicate TickPromise(cfg: Settings, log: TickLog, locked: set<JobId>, start: Time, batch: nat) {
    var w, w' := log.dispatched.before, log.notified.after;
    && Tables(cfg, w'.rows) && Acted(cfg, w, w')
    && forall spared :: locked <= spared && Undisturbed(log, spared) && AllOnTrack(cfg, w, spared, start, {}) ==>
         AllOnTrack(cfg, w', spared, start, {}) && (|w'.rows| <= batch ==> AllSettled(w', spared))
  }

  lemma TickKeepsPromise(cfg: Settings, log: TickLog, locked: set<JobId>, start: Time, batch: nat)
    requires Tables(cfg, log.dispatched.before.rows) && Ticked(cfg, log, locked, batch)
    requires start <= log.promoted.at && start <= log.reaped.at && start <= log.redelivered.at
    ensures TickPromise(cfg, log, locked, start, batch)
  {
    TickActs(cfg, log, locked, batch);
    forall spared | locked <= spared && Undisturbed(log, spared)
                    && AllOnTrack(cfg, log.dispatched.before, spared, start, {})
      ensures AllOnTrack(cfg, log.notified.after, spared, start, {})
      ensures |log.notified.after.rows| <= batch ==> AllSettled(log.notified.after, spared)
    {
      TickRecovers(cfg, log, locked, spared, start, batch);
    }
  }

  class Scheduler {
    const db: Database
    const queue: JobQueue
    const clock: Clock
    const dispatch: DispatchService
    const retry: RetryService
    const lease: LeaseService
    const expiry: ExpiryService
    const notifications: NotificationDeliveryService
    const others: Others
    const batchSize: nat

    constructor (db: Database, queue: JobQueue, clock: Clock, batchSize: nat)
      ensures this.db == db && this.queue == queue && this.clock == clock && this.batchSize == batchSize
      ensures Wired()
    {
      this.db, this.queue, this.clock, this.batchSize := db, queue, clock, batchSize;
      this.dispatch := new DispatchService(db, queue, clock);
      this.retry := new RetryService(db, queue, clock);
      this.lease := new LeaseService(db, queue, clock);
      this.expiry := new ExpiryService(db, clock);
      this.notifications := new NotificationDeliveryService(db, clock);
      this.others := new Others(db, queue, clock);
    }

    /** All services work on the same database, lists and clock. */
    predicate Wired() {
      && dispatch.db == retry.db == lease.db == expiry.db == notifications.db == others.db == db
      && dispatch.queue == retry.queue == lease.queue == others.queue == queue
      && dispatch.clock == retry.clock == lease.clock == expiry.clock == notifications.clock == others.clock == clock
      && dispatch.Wired() && retry.Wired() && lease.Wired()
    }

    /** The first three passes, the others acting after each of them. */
    method FeedQueues(locked: set<JobId>)
      returns (ghost dispatched: Passed, ghost promoted: Passed, ghost reaped: Passed)
      requires Wired()
      modifies db, queue, clock
      ensures DispatchRan(db.cfg, dispatched, locked, batchSize) && PromoteRan(db.cfg, promoted, locked, batchSize)
      ensures ReapRan(db.cfg, reaped, locked, batchSize)
      ensures Acted(db.cfg, dispatched.after, promoted.before) && Acted(db.cfg, promoted.after, reaped.before)
      ensures dispatched.before == old(State(db, queue)) && Acted(db.cfg, reaped.after, State(db, queue))
      ensures old(clock.time) <= dispatched.at <= promoted.at <= reaped.at <= clock.time
    {
      var count;
      count, dispatched := dispatch.DispatchPending(batchSize, locked);
      others.Act();
      count, promoted := retry.PromoteDue(batchSize, locked);
      others.Act();
      count, reaped := lease.ReapExpired(batchSize, locked);
      others.Act();
    }

    method Redeliver(locked: set<JobId>) returns (ghost redelivered: Passed, ghost times: seq<Time>, ghost to: Time)
      requires Wired()
      modifies db, queue, clock
      ensures RedeliverRan(db.cfg, redelivered, times, to, locked, batchSize)
      ensures redelivered.before == old(State(db, queue)) && Acted(db.cfg, redelivered.after, State(db, queue))
      ensures old(clock.time) <= redelivered.at <= clock.time
    {
      var count;
      count, redelivered, times := dispatch.RedeliverStuck(batchSize, locked);
      to := clock.time;
      others.Act();
    }

    /** The last two passes, the others acting in between. */
    method Sweep(locked: set<JobId>) returns (ghost expired: Passed, ghost notified: Passed, ghost tries: seq<Try>)
      requires Wired()
      modifies db, queue, clock
      ensures ExpireRan(db.cfg, expired, locked, batchSize) && NotifyRan(db.cfg, notified, tries, locked, batchSize)
      ensures Acted(db.cfg, expired.after, notified.before)
      ensures expired.before == old(State(db, queue)) && notified.after == State(db, queue)
      ensures old(clock.time) <= expired.at <= notified.at <= clock.time
    {
      var count;
      count, expired := expiry.ExpireJobs(batchSize, locked, queue.Lists(), queue.deadLetters);
      others.Act();
      count, notified, tries := notifications.DispatchDue(batchSize, locked, queue.Lists(), queue.deadLetters);
    }

    /** The six passes in order, the others acting in between, and a record of what each of them read and left. */
    method RunPasses(locked: set<JobId>) returns (ghost log: TickLog)
      requires Wired()
      modifies db, queue, clock
      ensures Ticked(db.cfg, log, locked, batchSize)
      ensures log.dispatched.before == old(State(db, queue)) && log.notified.after == State(db, queue)
      ensures old(clock.time) <= log.dispatched.at <= log.promoted.at <= log.reaped.at <= log.redelivered.at
      ensures log.redelivered.at <= log.expired.at <= log.notified.at <= clock.time
    {
      ghost var dispatched, promoted, reaped := FeedQueues(locked);
      ghost var redelivered, times, to, expired, notified, tries;
      redelivered, times, to := Redeliver(locked);
      expired, notified, tries := Sweep(locked);
      log := TickLog(dispatched, promoted, reaped, redelivered, times, to, expired, notified, tries);
      SixPasses(db.cfg, log, locked, batchSize);
    }

    /** One tick. */
    method Tick(locked: set<JobId>) returns (ghost log: TickLog)
      requires Wired() && db.Valid()
      modifies db, queue, clock
      ensures old(clock.time) <= clock.time && db.Valid()
      ensures log.dispatched.before == old(State(db, queue)) && log.notified.after == State(db, queue)
      ensures TickPromise(db.cfg, log, locked, old(clock.time), batchSize)
    {
      ghost var start := clock.time;
      log := RunPasses(locked);
      TickKeepsPromise(db.cfg, log, locked, start, batchSize);
    }
  }
}
