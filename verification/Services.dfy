// The services of the scheduler and of the cancel endpoint: each pass selects rows, updates them in
// one transaction and pushes to Redis after the commit.
module Services {
  import opened Domain
  import opened JobRows
  import opened Selection
  import opened Lifecycle
  import opened Backoff
  import opened Store
  import opened Evolution

  /** The messages for a list of jobs, in order. */
  function MessagesFor(rows: Table, ids: seq<JobId>): seq<Message>
    requires forall id :: id in ids ==> id in rows
  {
    seq(|ids|, i requires 0 <= i < |ids| => Message(ids[i], rows[ids[i]].job.spec.priority))
  }

  lemma MessagesNext(rows: Table, ids: seq<JobId>, id: JobId)
    requires id in rows && forall x :: x in ids ==> x in rows
    ensures MessagesFor(rows, ids + [id]) == MessagesFor(rows, ids) + [Message(id, rows[id].job.spec.priority)]
  {
  }

  /** The lists after pushing messages for `ids`. */
  ghost predicate PushedFor(lists: Lists, lists': Lists, rows: Table, ids: seq<JobId>)
    requires forall id :: id in ids ==> id in rows
  {
    forall p :: lists'(p) == PushAll(lists(p), MessagesFor(rows, ids), p)
  }

  // ---------- the candidates and sort keys of the selections

  function Unpublished(rows: Table, locked: set<JobId>): set<JobId> {
    set id | id in rows && !rows[id].published && id !in locked
  }

  function DueRetries(rows: Table, now: Time, locked: set<JobId>): set<JobId> {
    set id | id in rows && DueRetry(rows[id].job, now) && id !in locked
  }

  function ExpiredLeases(rows: Table, now: Time, locked: set<JobId>): set<JobId> {
    set id | id in rows && LeaseExpired(rows[id].job, now) && id !in locked
  }

  function StuckJobs(rows: Table, cutoff: Time, locked: set<JobId>): set<JobId> {
    set id | id in rows && StuckQueued(rows[id].job, cutoff) && id !in locked
  }

  function StaleJobs(rows: Table, cutoff: Time, locked: set<JobId>): set<JobId> {
    set id | id in rows && Stale(rows[id].job, cutoff) && id !in locked
  }

  function DueNotices(rows: Table, now: Time, locked: set<JobId>): set<JobId> {
    set id | id in rows && rows[id].notices != [] && DueNotice(rows[id].notices[0], now) && id !in locked
  }

  function Keys(rows: Table, key: JobState -> Option<Time>): map<JobId, Option<Time>> {
    map id | id in rows :: key(rows[id])
  }

  function CreatedKey(): JobState -> Option<Time> { (s: JobState) => Some(s.job.spec.createdAt) }

  function RetryKey(): JobState -> Option<Time> { (s: JobState) => s.job.nextAttemptAt }

  function LeaseKey(): JobState -> Option<Time> { (s: JobState) => s.job.lockExpiresAt }

  function DispatchedKey(): JobState -> Option<Time> { (s: JobState) => s.job.lastDispatchedAt }

  function NoticeKey(): JobState -> Option<Time> {
    (s: JobState) => if s.notices == [] then None else Some(s.notices[0].nextAttemptAt)
  }

  /** One clock reading per row, each between the two times and none before the one ahead of it. */
  predicate Stamps(times: seq<Time>, n: nat, from: Time, to: Time) {
    && |times| == n
    && (forall i :: 0 <= i < n ==> from <= times[i] <= to)
    && (forall i, j :: 0 <= i < j < n ==> times[i] <= times[j])
  }

  /** Row `ids[i]` has `last_dispatched_at` set to `times[i]`, and nothing else has changed. */
  predicate Restamped(rows: Table, rows': Table, ids: seq<JobId>, times: seq<Time>) {
    && rows'.Keys == rows.Keys && |times| == |ids|
    && (forall i :: 0 <= i < |ids| ==>
          ids[i] in rows && rows'[ids[i]] == rows[ids[i]].(job := Redispatched(rows[ids[i]].job, times[i])))
    && (forall id :: id in rows && id !in ids ==> rows'[id] == rows[id])
  }

  /** One more row has been stamped. */
  lemma RestampNext(rows: Table, rows': Table, ids: seq<JobId>, id: JobId, times: seq<Time>, stamp: Time, s: JobState)
    requires id in rows && id !in ids && Restamped(rows, rows', ids, times)
    requires s == rows[id].(job := Redispatched(rows[id].job, stamp))
    ensures rows'[id] == rows[id] && Restamped(rows, rows'[id := s], ids + [id], times + [stamp])
  {
    forall k | 0 <= k < |ids| ensures ids[k] != id && rows'[id := s][ids[k]] == rows'[ids[k]] {
    }
  }

  // ---------- the passes

  /** One pass: what it read, its commit, what the others had made of that when it pushed, and what it left. */
  datatype Passed = Passed(before: World, at: Time, ids: seq<JobId>, committed: World, resumed: World, after: World)

  /** The others act between the commit, which leaves the lists alone, and the pushes, which leave the rows alone. */
  ghost predicate Interrupted(cfg: Settings, p: Passed) {
    && p.committed.lists == p.before.lists && p.committed.dead == p.before.dead
    && Acted(cfg, p.committed, p.resumed)
    && p.after.rows == p.resumed.rows
  }

  ghost predicate DispatchRan(cfg: Settings, p: Passed, locked: set<JobId>, batch: nat) {
    && Selected(p.ids, Unpublished(p.before.rows, locked), Keys(p.before.rows, CreatedKey()), batch)
    && p.committed.rows == ApplyAll(p.before.rows, p.ids, PassOf(cfg, p.at, DispatchRow))
    && Interrupted(cfg, p)
    && PushedFor(p.resumed.lists, p.after.lists, p.before.rows, p.ids) && p.after.dead == p.resumed.dead
  }

  ghost predicate RedeliverRan(cfg: Settings, p: Passed, times: seq<Time>, to: Time, locked: set<JobId>, batch: nat) {
    && Selected(p.ids, StuckJobs(p.before.rows, StuckCutoff(cfg, p.at), locked), Keys(p.before.rows, DispatchedKey()),
                batch)
    && Stamps(times, |p.ids|, p.at, to)
    && Restamped(p.before.rows, p.committed.rows, p.ids, times)
    && Interrupted(cfg, p)
    && PushedFor(p.resumed.lists, p.after.lists, p.before.rows, p.ids) && p.after.dead == p.resumed.dead
  }

  class DispatchService {
    const db: Database
    const queue: JobQueue
    const clock: Clock
    const others: Others

    constructor (db: Database, queue: JobQueue, clock: Clock)
      ensures this.db == db && this.queue == queue && this.clock == clock && Wired()
    {
      this.db, this.queue, this.clock := db, queue, clock;
      this.others := new Others(db, queue, clock);
    }

    predicate Wired() { others.db == db && others.queue == queue && others.clock == clock }

    method DispatchOne(id: JobId, now: Time)
      requires id in db.rows && !db.rows[id].published
      modifies db
      ensures db.rows == old(db.rows)[id := Dispatched(old(db.rows)[id], now)]
    {
      db.MarkPublished(id);
      var _ := db.Update(id, (j: Job) => j.status.Pending?, (j: Job) => MarkedQueued(j, now));
      db.RecordEvent(id, QueuedEvent, Queued);
    }

    /** The loop of `dispatch_pending`; it publishes even a job that is no longer pending. */
    method DispatchAll(ids: seq<JobId>, now: Time) returns (published: seq<Message>)
      requires Distinct(ids) && forall id :: id in ids ==> id in db.rows && !db.rows[id].published
      modifies db
      ensures db.rows == ApplyAll(old(db.rows), ids, PassOf(db.cfg, now, DispatchRow))
      ensures published == MessagesFor(old(db.rows), ids)
    {
      ghost var rows, f := db.rows, PassOf(db.cfg, now, DispatchRow);
      published := [];
      var i := 0;
      while i < |ids|
        invariant 0 <= i <= |ids|
        invariant db.rows == ApplyAll(rows, ids[..i], f)
        invariant published == MessagesFor(rows, ids[..i])
      {
        var id := ids[i];
        ApplyAllNext(rows, ids[..i], id, f);
        MessagesNext(rows, ids[..i], id);
        assert ids[..i + 1] == ids[..i] + [id];
        assert f(rows[id]) == Dispatched(rows[id], now);
        DispatchOne(id, now);
        published := published + [Message(id, db.rows[id].job.spec.priority)];
        i := i + 1;
      }
      assert ids[..|ids|] == ids;
    }

    method DispatchPending(batchSize: nat, locked: set<JobId>)
      returns (count: nat, ghost pass: Passed)
      requires Wired()
      modifies db, queue, clock
      ensures old(clock.time) <= pass.at <= clock.time && count == |pass.ids|
      ensures DispatchRan(db.cfg, pass, locked, batchSize)
      ensures pass.before == old(State(db, queue))
      ensures pass.after == State(db, queue)
    {
      ghost var before := State(db, queue);
      var at := clock.Now();
      var selected := Select(Unpublished(db.rows, locked), Keys(db.rows, CreatedKey()), batchSize);
      var published := DispatchAll(selected, at);
      ghost var committed := State(db, queue);
      others.Act();
      ghost var resumed := State(db, queue);
      queue.PublishAll(published);
      pass := Passed(before, at, selected, committed, resumed, State(db, queue));
      count := |published|;
    }

    /** The loop of `redeliver_stuck`, which reads the clock again for every row it stamps. */
    method RedispatchAll(ids: seq<JobId>) returns (republished: seq<Message>, ghost times: seq<Time>)
      requires Distinct(ids) && forall id :: id in ids ==> id in db.rows && db.rows[id].job.status.Queued?
      modifies db, clock
      ensures old(clock.time) <= clock.time
      ensures Stamps(times, |ids|, old(clock.time), clock.time)
      ensures Restamped(old(db.rows), db.rows, ids, times)
      ensures republished == MessagesFor(old(db.rows), ids)
    {
      ghost var rows := db.rows;
      republished, times := [], [];
      var i := 0;
      while i < |ids|
        invariant 0 <= i <= |ids| && old(clock.time) <= clock.time
        invariant Stamps(times, i, old(clock.time), clock.time)
        invariant Restamped(rows, db.rows, ids[..i], times)
        invariant republished == MessagesFor(rows, ids[..i])
      {
        var id := ids[i];
        MessagesNext(rows, ids[..i], id);
        assert ids[..i + 1] == ids[..i] + [id];
        var stamp := clock.Now();
        ghost var s := rows[id].(job := Redispatched(rows[id].job, stamp));
        RestampNext(rows, db.rows, ids[..i], id, times, stamp, s);
        var _ := db.Update(id, (j: Job) => j.status.Queued?, (j: Job) => Redispatched(j, stamp));
        times := times + [stamp];
        republished := republished + [Message(id, db.rows[id].job.spec.priority)];
        i := i + 1;
      }
      assert ids[..|ids|] == ids;
    }

    method RedeliverStuck(batchSize: nat, locked: set<JobId>)
      returns (count: nat, ghost pass: Passed, ghost times: seq<Time>)
      requires Wired()
      modifies db, queue, clock
      ensures old(clock.time) <= pass.at <= clock.time && count == |pass.ids|
      ensures RedeliverRan(db.cfg, pass, times, clock.time, locked, batchSize)
      ensures pass.before == old(State(db, queue))
      ensures pass.after == State(db, queue)
    {
      ghost var before := State(db, queue);
      var at := clock.Now();
      var cutoff := StuckCutoff(db.cfg, at);
      var selected := Select(StuckJobs(db.rows, cutoff, locked), Keys(db.rows, DispatchedKey()), batchSize);
      var republished;
      republished, times := RedispatchAll(selected);
      ghost var committed := State(db, queue);
      others.Act();
      ghost var resumed := State(db, queue);
      queue.PublishAll(republished);
      pass := Passed(before, at, selected, committed, resumed, State(db, queue));
      count := |republished|;
    }
  }

  ghost predicate PromoteRan(cfg: Settings, p: Passed, locked: set<JobId>, batch: nat) {
    && Selected(p.ids, DueRetries(p.before.rows, p.at, locked), Keys(p.before.rows, RetryKey()), batch)
    && p.committed.rows == ApplyAll(p.before.rows, p.ids, PassOf(cfg, p.at, PromoteRetry))
    && Interrupted(cfg, p)
    && PushedFor(p.resumed.lists, p.after.lists, p.before.rows, p.ids) && p.after.dead == p.resumed.dead
  }

  class RetryService {
    const db: Database
    const queue: JobQueue
    const clock: Clock
    const others: Others

    constructor (db: Database, queue: JobQueue, clock: Clock)
      ensures this.db == db && this.queue == queue && this.clock == clock && Wired()
    {
      this.db, this.queue, this.clock := db, queue, clock;
      this.others := new Others(db, queue, clock);
    }

    predicate Wired() { others.db == db && others.queue == queue && others.clock == clock }

    method PromoteOne(id: JobId, now: Time) returns (moved: bool)
      requires id in db.rows && DueRetry(db.rows[id].job, now)
      modifies db
      ensures moved && db.rows == old(db.rows)[id := Promoted(old(db.rows)[id], now)]
    {
      moved := db.Update(id, (j: Job) => j.status.Retrying?, (j: Job) => RetryQueued(j, now));
      if moved {
        db.RecordEvent(id, QueuedEvent, Queued);
      }
    }

    method PromoteAll(ids: seq<JobId>, now: Time) returns (promoted: seq<Message>)
      requires Distinct(ids) && forall id :: id in ids ==> id in db.rows && DueRetry(db.rows[id].job, now)
      modifies db
      ensures db.rows == ApplyAll(old(db.rows), ids, PassOf(db.cfg, now, PromoteRetry))
      ensures promoted == MessagesFor(old(db.rows), ids)
    {
      ghost var rows, f := db.rows, PassOf(db.cfg, now, PromoteRetry);
      promoted := [];
      var i := 0;
      while i < |ids|
        invariant 0 <= i <= |ids|
        invariant db.rows == ApplyAll(rows, ids[..i], f)
        invariant promoted == MessagesFor(rows, ids[..i])
      {
        var id := ids[i];
        ApplyAllNext(rows, ids[..i], id, f);
        MessagesNext(rows, ids[..i], id);
        assert ids[..i + 1] == ids[..i] + [id];
        assert f(rows[id]) == Promoted(rows[id], now);
        var moved := PromoteOne(id, now);
        if moved {
          promoted := promoted + [Message(id, db.rows[id].job.spec.priority)];
        }
        i := i + 1;
      }
      assert ids[..|ids|] == ids;
    }

    method PromoteDue(batchSize: nat, locked: set<JobId>)
      returns (count: nat, ghost pass: Passed)
      requires Wired()
      modifies db, queue, clock
      ensures old(clock.time) <= pass.at <= clock.time && count == |pass.ids|
      ensures PromoteRan(db.cfg, pass, locked, batchSize)
      ensures pass.before == old(State(db, queue))
      ensures pass.after == State(db, queue)
    {
      ghost var before := State(db, queue);
      var at := clock.Now();
      var selected := Select(DueRetries(db.rows, at, locked), Keys(db.rows, RetryKey()), batchSize);
      var promoted := PromoteAll(selected, at);
      ghost var committed := State(db, queue);
      others.Act();
      ghost var resumed := State(db, queue);
      queue.PublishAll(promoted);
      pass := Passed(before, at, selected, committed, resumed, State(db, queue));
      count := |promoted|;
    }
  }

  predicate Exhausted(rows: Table, id: JobId)
    requires id in rows
  {
    rows[id].job.attempts >= rows[id].job.spec.maxAttempts
  }

  /** The listed jobs whose attempts are used up, or those with some left, in order. */
  function Partition(rows: Table, ids: seq<JobId>, exhausted: bool): (part: seq<JobId>)
    requires forall id :: id in ids ==> id in rows
    ensures forall id :: id in part <==> id in ids && Exhausted(rows, id) == exhausted
  {
    if ids == [] then [] else
    var n := |ids| - 1;
    assert ids == ids[..n] + [ids[n]];
    var before := Partition(rows, ids[..n], exhausted);
    if Exhausted(rows, ids[n]) == exhausted then before + [ids[n]] else before
  }

  lemma PartitionNext(rows: Table, ids: seq<JobId>, id: JobId, exhausted: bool)
    requires id in rows && forall x :: x in ids ==> x in rows
    ensures Partition(rows, ids + [id], exhausted) ==
            Partition(rows, ids, exhausted) + if Exhausted(rows, id) == exhausted then [id] else []
  {
    assert (ids + [id])[..|ids|] == ids;
  }

  /** One more id in a prefix of the listed jobs. */
  lemma PrefixNext(rows: Table, ids: seq<JobId>, i: nat, f: JobState -> JobState)
    requires Distinct(ids) && i < |ids| && forall id :: id in ids ==> id in rows
    ensures ApplyAll(rows, ids[..i + 1], f) == ApplyAll(rows, ids[..i], f)[ids[i] := f(rows[ids[i]])]
    ensures ApplyAll(rows, ids[..i], f)[ids[i]] == rows[ids[i]]
  {
    ApplyAllNext(rows, ids[..i], ids[i], f);
    assert ids[..i + 1] == ids[..i] + [ids[i]];
  }

  lemma PartsNext(rows: Table, ids: seq<JobId>, i: nat)
    requires i < |ids| && forall id :: id in ids ==> id in rows
    ensures Partition(rows, ids[..i + 1], true) ==
            Partition(rows, ids[..i], true) + if Exhausted(rows, ids[i]) then [ids[i]] else []
    ensures MessagesFor(rows, Partition(rows, ids[..i + 1], false)) ==
            MessagesFor(rows, Partition(rows, ids[..i], false))
            + if Exhausted(rows, ids[i]) then [] else [Message(ids[i], rows[ids[i]].job.spec.priority)]
  {
    assert ids[..i + 1] == ids[..i] + [ids[i]];
    PartitionNext(rows, ids[..i], ids[i], true);
    PartitionNext(rows, ids[..i], ids[i], false);
    MessagesNext(rows, Partition(rows, ids[..i], false), ids[i]);
  }

  function Reversed(ids: seq<JobId>): seq<JobId> {
    if ids == [] then [] else [ids[|ids| - 1]] + Reversed(ids[..|ids| - 1])
  }

  ghost predicate ReapRan(cfg: Settings, p: Passed, locked: set<JobId>, batch: nat) {
    && Selected(p.ids, ExpiredLeases(p.before.rows, p.at, locked), Keys(p.before.rows, LeaseKey()), batch)
    && p.committed.rows == ApplyAll(p.before.rows, p.ids, PassOf(cfg, p.at, ReapLease))
    && Interrupted(cfg, p)
    && PushedFor(p.resumed.lists, p.after.lists, p.before.rows, Partition(p.before.rows, p.ids, false))
    && p.after.dead == Reversed(Partition(p.before.rows, p.ids, true)) + p.resumed.dead
  }

  class LeaseService {
    const db: Database
    const queue: JobQueue
    const clock: Clock
    const others: Others

    constructor (db: Database, queue: JobQueue, clock: Clock)
      ensures this.db == db && this.queue == queue && this.clock == clock && Wired()
    {
      this.db, this.queue, this.clock := db, queue, clock;
      this.others := new Others(db, queue, clock);
    }

    predicate Wired() { others.db == db && others.queue == queue && others.clock == clock }

    /** Fail and notify, or requeue: one row of `reap_expired`. */
    method ReapOne(id: JobId, now: Time) returns (failed: bool, requeued: bool)
      requires id in db.rows && LeaseExpired(db.rows[id].job, now)
      modifies db
      ensures db.rows == old(db.rows)[id := Reaped(old(db.rows)[id], now)]
      ensures failed == Exhausted(old(db.rows), id) && requeued == !failed
    {
      failed, requeued := false, false;
      var job := db.rows[id].job;
      if job.attempts >= job.spec.maxAttempts {
        failed := db.Update(id, (j: Job) => j.status.Running?,
                            (j: Job) => MarkedFailed(j, LEASE_EXPIRED_CODE, now, true));
        if failed {
          db.RecordEvent(id, FailedEvent, Failed);
          db.EnqueueNotice(id, FailedEvent, Failed, None, Some(LEASE_EXPIRED_CODE), now);
        }
      } else {
        requeued := db.Update(id, (j: Job) => j.status.Running?, (j: Job) => LeaseRequeued(j, now));
        if requeued {
          db.RecordEvent(id, RequeuedEvent, Queued);
        }
      }
    }

    method ReapAll(ids: seq<JobId>, now: Time) returns (requeued: seq<Message>, deadLettered: seq<JobId>)
      requires Distinct(ids) && forall id :: id in ids ==> id in db.rows && LeaseExpired(db.rows[id].job, now)
      modifies db
      ensures db.rows == ApplyAll(old(db.rows), ids, PassOf(db.cfg, now, ReapLease))
      ensures requeued == MessagesFor(old(db.rows), Partition(old(db.rows), ids, false))
      ensures deadLettered == Partition(old(db.rows), ids, true)
    {
      ghost var rows, f := db.rows, PassOf(db.cfg, now, ReapLease);
      requeued, deadLettered := [], [];
      var i := 0;
      while i < |ids|
        invariant 0 <= i <= |ids|
        invariant db.rows == ApplyAll(rows, ids[..i], f)
        invariant requeued == MessagesFor(rows, Partition(rows, ids[..i], false))
        invariant deadLettered == Partition(rows, ids[..i], true)
      {
        var id := ids[i];
        PrefixNext(rows, ids, i, f);
        PartsNext(rows, ids, i);
        assert f(rows[id]) == Reaped(rows[id], now);
        var failed, back := ReapOne(id, now);
        if failed {
          deadLettered := deadLettered + [id];
        } else if back {
          requeued := requeued + [Message(id, db.rows[id].job.spec.priority)];
        }
        i := i + 1;
      }
      assert ids[..|ids|] == ids;
    }

    method DeadLetterAll(ids: seq<JobId>)
      modifies queue
      ensures queue.deadLetters == Reversed(ids) + old(queue.deadLetters)
      ensures forall p :: queue.List(p) == old(queue.List(p))
    {
      var i := 0;
      while i < |ids|
        invariant 0 <= i <= |ids|
        invariant queue.deadLetters == Reversed(ids[..i]) + old(queue.deadLetters)
        invariant forall p :: queue.List(p) == old(queue.List(p))
      {
        queue.DeadLetter(ids[i]);
        assert ids[..i + 1][..i] == ids[..i];
        i := i + 1;
      }
      assert ids[..|ids|] == ids;
    }

    method ReapExpired(batchSize: nat, locked: set<JobId>)
      returns (count: nat, ghost pass: Passed)
      requires Wired()
      modifies db, queue, clock
      ensures old(clock.time) <= pass.at <= clock.time
      ensures ReapRan(db.cfg, pass, locked, batchSize)
      ensures pass.before == old(State(db, queue))
      ensures pass.after == State(db, queue)
      ensures count == |Partition(old(db.rows), pass.ids, false)| + |Partition(old(db.rows), pass.ids, true)|
    {
      ghost var before := State(db, queue);
      var at := clock.Now();
      var selected := Select(ExpiredLeases(db.rows, at, locked), Keys(db.rows, LeaseKey()), batchSize);
      var requeued, deadLettered := ReapAll(selected, at);
      ghost var committed := State(db, queue);
      others.Act();
      ghost var resumed := State(db, queue);
      DeadLetterAll(deadLettered);
      queue.PublishAll(requeued);
      pass := Passed(before, at, selected, committed, resumed, State(db, queue));
      count := |requeued| + |deadLettered|;
    }
  }

  ghost predicate ExpireRan(cfg: Settings, p: Passed, locked: set<JobId>, batch: nat) {
    && Selected(p.ids, StaleJobs(p.before.rows, StaleCutoff(cfg, p.at), locked), Keys(p.before.rows, CreatedKey()),
                batch)
    && p.after == p.before.(rows := ApplyAll(p.before.rows, p.ids, PassOf(cfg, p.at, ExpireStale)))
  }

  class ExpiryService {
    const db: Database
    const clock: Clock

    constructor (db: Database, clock: Clock)
      ensures this.db == db && this.clock == clock
    {
      this.db, this.clock := db, clock;
    }

    method ExpireOne(id: JobId, now: Time) returns (expired: bool)
      requires id in db.rows && Stale(db.rows[id].job, StaleCutoff(db.cfg, now))
      modifies db
      ensures expired && db.rows == old(db.rows)[id := ExpiredIfStale(db.cfg, old(db.rows)[id], now)]
    {
      expired := db.Update(id, (j: Job) => Expirable(j), (j: Job) => MarkedExpired(j, now));
      if expired {
        db.RecordEvent(id, ExpiredEvent, Expired);
        db.EnqueueNotice(id, ExpiredEvent, Expired, None, Some(EXPIRED_CODE), now);
      }
    }

    method ExpireAll(ids: seq<JobId>, now: Time) returns (expired: nat)
      requires Distinct(ids)
      requires forall id :: id in ids ==> id in db.rows && Stale(db.rows[id].job, StaleCutoff(db.cfg, now))
      modifies db
      ensures db.rows == ApplyAll(old(db.rows), ids, PassOf(db.cfg, now, ExpireStale))
      ensures expired == |ids|
    {
      ghost var rows, f := db.rows, PassOf(db.cfg, now, ExpireStale);
      expired := 0;
      var i := 0;
      while i < |ids|
        invariant 0 <= i <= |ids| && expired == i
        invariant db.rows == ApplyAll(rows, ids[..i], f)
      {
        var id := ids[i];
        ApplyAllNext(rows, ids[..i], id, f);
        assert ids[..i + 1] == ids[..i] + [id];
        assert f(rows[id]) == ExpiredIfStale(db.cfg, rows[id], now);
        var gone := ExpireOne(id, now);
        if gone {
          expired := expired + 1;
        }
        i := i + 1;
      }
      assert ids[..|ids|] == ids;
    }

    method ExpireJobs(batchSize: nat, locked: set<JobId>, ghost lists: Lists, ghost dead: seq<JobId>)
      returns (count: nat, ghost pass: Passed)
      modifies db, clock
      ensures old(clock.time) <= pass.at <= clock.time && count == |pass.ids|
      ensures ExpireRan(db.cfg, pass, locked, batchSize)
      ensures pass.before == World(old(db.rows), lists, dead) && pass.after == World(db.rows, lists, dead)
    {
      ghost var before := World(db.rows, lists, dead);
      var at := clock.Now();
      var selected := Select(StaleJobs(db.rows, StaleCutoff(db.cfg, at), locked),
                             Keys(db.rows, CreatedKey()), batchSize);
      count := ExpireAll(selected, at);
      ghost var after := World(db.rows, lists, dead);
      pass := Passed(before, at, selected, after, after, after);
    }
  }

  /** What a delivery attempt did: success, or the time of the next one. */
  datatype Try = Try(delivered: bool, retryAt: Time)

  function NoticeTried(cfg: Settings, s: JobState, delivered: bool, retryAt: Time): JobState
    requires s.notices != []
  {
    s.(notices := s.notices[0 := Attempted(cfg, s.notices[0], delivered, retryAt)])
  }

  predicate NoticesTried(cfg: Settings, rows: Table, rows': Table, ids: seq<JobId>, tries: seq<Try>) {
    && rows'.Keys == rows.Keys && |tries| == |ids|
    && (forall i :: 0 <= i < |ids| ==>
          ids[i] in rows && rows[ids[i]].notices != []
          && rows'[ids[i]] == NoticeTried(cfg, rows[ids[i]], tries[i].delivered, tries[i].retryAt))
    && (forall id :: id in rows && id !in ids ==> rows'[id] == rows[id])
  }

  ghost predicate NotifyRan(cfg: Settings, p: Passed, tries: seq<Try>, locked: set<JobId>, batch: nat) {
    && Selected(p.ids, DueNotices(p.before.rows, p.at, locked), Keys(p.before.rows, NoticeKey()), batch)
    && NoticesTried(cfg, p.before.rows, p.after.rows, p.ids, tries)
    && p.after == p.before.(rows := p.after.rows)
  }

  /** A failed delivery with attempts left is tried again after a legal backoff. */
  ghost predicate RetryLegal(cfg: Settings, n: Notice, t: Try, from: Time, to: Time) {
    !t.delivered && n.attempts + 1 < cfg.notificationMaxAttempts ==>
      BackedOff(cfg, n.attempts + 1, from, to, t.retryAt)
  }

  ghost predicate RetriesLegal(cfg: Settings, rows: Table, ids: seq<JobId>, tries: seq<Try>, from: Time, to: Time) {
    && |tries| == |ids|
    && forall i :: 0 <= i < |ids| ==>
         ids[i] in rows && rows[ids[i]].notices != [] && RetryLegal(cfg, rows[ids[i]].notices[0], tries[i], from, to)
  }

  lemma LegalWider(cfg: Settings, n: Notice, t: Try, from: Time, to: Time, from': Time, to': Time)
    requires RetryLegal(cfg, n, t, from, to) && from' <= from && to <= to'
    ensures RetryLegal(cfg, n, t, from', to')
  {
    if BackedOff(cfg, n.attempts + 1, from, to, t.retryAt) {
      var jitter :| Draw(cfg, n.attempts + 1, jitter) && from <= t.retryAt - Delay(cfg, n.attempts + 1, jitter) <= to;
    }
  }

  lemma OneMoreRetry(cfg: Settings, rows: Table, ids: seq<JobId>, tries: seq<Try>, from: Time, to: Time, id: JobId,
                     t: Try, to': Time)
    requires RetriesLegal(cfg, rows, ids, tries, from, to) && id in rows && rows[id].notices != []
    requires RetryLegal(cfg, rows[id].notices[0], t, to, to') && from <= to <= to'
    ensures RetriesLegal(cfg, rows, ids + [id], tries + [t], from, to')
  {
    forall i | 0 <= i < |ids| ensures RetryLegal(cfg, rows[ids[i]].notices[0], tries[i], from, to') {
      LegalWider(cfg, rows[ids[i]].notices[0], tries[i], from, to, from, to');
    }
    LegalWider(cfg, rows[id].notices[0], t, to, to', from, to');
  }

  /** The k-th failure puts a notification off by the base doubled k - 1 times, or the cap, within the spread. */
  lemma RetryTimeIs(cfg: Settings, n: Notice, t: Try, from: Time, to: Time)
    requires Sensible(cfg) && RetryLegal(cfg, n, t, from, to)
    requires !t.delivered && n.attempts + 1 < cfg.notificationMaxAttempts
    ensures var k := n.attempts + 1;
            from + Doubled(cfg, k) - Spread(cfg, k) <= t.retryAt <= to + Doubled(cfg, k) + Spread(cfg, k)
  {
    BackedOffIs(cfg, n.attempts + 1, from, to, t.retryAt);
  }

  class NotificationDeliveryService {
    const db: Database
    const clock: Clock

    constructor (db: Database, clock: Clock)
      ensures this.db == db && this.clock == clock
    {
      this.db, this.clock := db, clock;
    }

    /** `_attempt` and `_on_failure`: the delivery succeeds or raises an HTTP error. */
    method AttemptOne(id: JobId) returns (ghost delivered: bool, ghost retryAt: Time)
      requires id in db.rows && db.rows[id].notices != []
      modifies db, clock
      ensures old(clock.time) <= clock.time
      ensures db.rows == old(db.rows)[id := NoticeTried(db.cfg, old(db.rows)[id], delivered, retryAt)]
      ensures RetryLegal(db.cfg, old(db.rows)[id].notices[0], Try(delivered, retryAt), old(clock.time), clock.time)
    {
      var s := db.rows[id];
      var n := s.notices[0];
      var ok: bool := *;
      delivered, retryAt := ok, n.nextAttemptAt;
      if ok {
        var _ := clock.Now();
        n := n.(status := NoticeSent, attempts := n.attempts + 1);
      } else if n.attempts + 1 >= db.cfg.notificationMaxAttempts {
        n := n.(status := NoticeFailed, attempts := n.attempts + 1);
      } else {
        var at := clock.Now();
        assert Draw(db.cfg, n.attempts + 1, 0.0);
        var jitter: real :| Draw(db.cfg, n.attempts + 1, jitter);
        var next := at + Delay(db.cfg, n.attempts + 1, jitter);
        retryAt := next;
        assert at == next - Delay(db.cfg, n.attempts + 1, jitter);
        n := n.(attempts := n.attempts + 1, nextAttemptAt := next);
      }
      db.rows := db.rows[id := s.(notices := s.notices[0 := n])];
    }

    method AttemptAll(ids: seq<JobId>) returns (ghost tries: seq<Try>)
      requires Distinct(ids) && forall id :: id in ids ==> id in db.rows && db.rows[id].notices != []
      modifies db, clock
      ensures old(clock.time) <= clock.time
      ensures NoticesTried(db.cfg, old(db.rows), db.rows, ids, tries)
      ensures RetriesLegal(db.cfg, old(db.rows), ids, tries, old(clock.time), clock.time)
    {
      ghost var rows, start := db.rows, clock.time;
      tries := [];
      var i := 0;
      while i < |ids|
        invariant 0 <= i <= |ids| && old(clock.time) <= clock.time
        invariant NoticesTried(db.cfg, rows, db.rows, ids[..i], tries)
        invariant RetriesLegal(db.cfg, rows, ids[..i], tries, start, clock.time)
      {
        var id := ids[i];
        ghost var to := clock.time;
        assert ids[..i + 1] == ids[..i] + [id];
        assert db.rows[id] == rows[id];
        ghost var delivered, retryAt := AttemptOne(id);
        OneMoreRetry(db.cfg, rows, ids[..i], tries, start, to, id, Try(delivered, retryAt), clock.time);
        tries := tries + [Try(delivered, retryAt)];
        i := i + 1;
      }
      assert ids[..|ids|] == ids;
    }

    method DispatchDue(batchSize: nat, locked: set<JobId>, ghost lists: Lists, ghost dead: seq<JobId>)
      returns (count: nat, ghost pass: Passed, ghost tries: seq<Try>)
      modifies db, clock
      ensures old(clock.time) <= pass.at <= clock.time && count == |pass.ids|
      ensures NotifyRan(db.cfg, pass, tries, locked, batchSize)
      ensures RetriesLegal(db.cfg, old(db.rows), pass.ids, tries, pass.at, clock.time)
      ensures pass.before == World(old(db.rows), lists, dead) && pass.after == World(db.rows, lists, dead)
    {
      ghost var before := World(db.rows, lists, dead);
      var at := clock.Now();
      var due := Select(DueNotices(db.rows, at, locked), Keys(db.rows, NoticeKey()), batchSize);
      tries := AttemptAll(due);
      ghost var after := World(db.rows, lists, dead);
      pass := Passed(before, at, due, after, after, after);
      count := |due|;
    }
  }

  datatype CancelOutcome = CancelOutcome(found: bool, status: Option<Status>, conflict: bool)

  class JobCancellationService {
    const db: Database
    const clock: Clock

    constructor (db: Database, clock: Clock)
      ensures this.db == db && this.clock == clock
    {
      this.db, this.clock := db, clock;
    }

    method Cancel(id: JobId, userId: UserId) returns (outcome: CancelOutcome, ghost now: Time)
      modifies db, clock
      ensures old(clock.time) <= now == clock.time
      ensures outcome.found <==> id in old(db.rows) && old(db.rows)[id].job.spec.userId == userId
      ensures !outcome.found ==> db.rows == old(db.rows) && outcome.status.None?
      ensures outcome.found ==> db.rows == old(db.rows)[id := CancelAsked(old(db.rows)[id], now)]
      ensures outcome.found ==> outcome.status == Some(db.rows[id].job.status)
      ensures outcome.conflict <==> outcome.found && old(db.rows)[id].job.status.Terminal()
    {
      var at := clock.Now();
      now := at;
      if id !in db.rows || db.rows[id].job.spec.userId != userId {
        return CancelOutcome(false, None, false), now;
      }
      var status := db.rows[id].job.status;
      if status.Terminal() {
        assert db.rows == db.rows[id := db.rows[id]];
        return CancelOutcome(true, Some(status), true), now;
      }
      if status.Cancelling? {
        assert db.rows == db.rows[id := db.rows[id]];
        return CancelOutcome(true, Some(Cancelling), false), now;
      }
      if status.Running? {
        var _ := db.Update(id, (j: Job) => j.status.Running?, (j: Job) => CancellationRequested(j, at));
        db.RecordEvent(id, CancelRequestedEvent, Cancelling);
        return CancelOutcome(true, Some(Cancelling), false), now;
      }
      var _ := db.Update(id, (j: Job) => InactiveCancellable(j), (j: Job) => CancelledInactive(j, at));
      db.RecordEvent(id, CancelledEvent, Cancelled);
      db.EnqueueNotice(id, CancelledEvent, Cancelled, None, None, at);
      outcome := CancelOutcome(true, Some(Cancelled), false);
    }
  }
}
