// Which rows each pass takes, over the stored columns and the settings.
module Choices {
  import opened Domain
  import opened JobRows
  import opened Selection
  import opened Store
  import opened Services

  /** As many as the limit allows, without repetition, and all of them when it reaches. */
  ghost predicate Filled(ids: seq<JobId>, eligible: set<JobId>, limit: nat) {
    && (forall i, j :: 0 <= i < j < |ids| ==> ids[i] != ids[j])
    && (forall id :: id in ids ==> id in eligible)
    && |ids| == (if limit < |eligible| then limit else |eligible|)
    && (|eligible| <= limit ==> forall id :: id in eligible ==> id in ids)
  }

  /** In ascending order of the given times, and ahead of the eligible rows left out. */
  ghost predicate Earliest(ids: seq<JobId>, eligible: set<JobId>, time: map<JobId, Time>)
    requires eligible <= time.Keys && forall id :: id in ids ==> id in eligible
  {
    && (forall i, j :: 0 <= i < j < |ids| ==> time[ids[i]] <= time[ids[j]])
    && (forall id, other :: id in ids && other in eligible && other !in ids ==> time[id] <= time[other])
  }

  lemma FillsUp(ids: seq<JobId>, eligible: set<JobId>, key: map<JobId, Option<Time>>, limit: nat)
    requires eligible <= key.Keys && Selected(ids, eligible, key, limit)
    ensures Filled(ids, eligible, limit)
  {
    if |eligible| <= limit {
      SelectsAll(ids, eligible, key, limit);
    }
  }

  lemma Sorts(ids: seq<JobId>, eligible: set<JobId>, key: map<JobId, Option<Time>>, time: map<JobId, Time>, limit: nat)
    requires eligible <= key.Keys && eligible <= time.Keys && Selected(ids, eligible, key, limit)
    requires forall id :: id in eligible ==> key[id] == Some(time[id])
    ensures forall id :: id in ids ==> id in eligible
    ensures Earliest(ids, eligible, time)
  {
    forall id, other | id in ids && other in eligible && other !in ids ensures time[id] <= time[other] {
      assert NoLater(key[id], key[other]);
    }
    forall i, j | 0 <= i < j < |ids| ensures time[ids[i]] <= time[ids[j]] {
      assert NoLater(key[ids[i]], key[ids[j]]);
    }
  }

  // ---------- outbox rows

  function Undelivered(rows: Table, locked: set<JobId>): set<JobId> {
    set id | id in rows && id !in locked && !rows[id].published
  }

  function Created(rows: Table): map<JobId, Time> { map id | id in rows :: rows[id].job.spec.createdAt }

  /** The oldest jobs whose dispatch row is unpublished. */
  lemma DispatchChooses(cfg: Settings, p: Passed, locked: set<JobId>, batch: nat)
    requires DispatchRan(cfg, p, locked, batch)
    ensures Filled(p.ids, Undelivered(p.before.rows, locked), batch)
    ensures Earliest(p.ids, Undelivered(p.before.rows, locked), Created(p.before.rows))
  {
    assert Unpublished(p.before.rows, locked) == Undelivered(p.before.rows, locked);
    FillsUp(p.ids, Undelivered(p.before.rows, locked), Keys(p.before.rows, CreatedKey()), batch);
    Sorts(p.ids, Undelivered(p.before.rows, locked), Keys(p.before.rows, CreatedKey()),
          Created(p.before.rows), batch);
  }

  // ---------- retries

  function RetriesDue(rows: Table, locked: set<JobId>, now: Time): set<JobId> {
    set id | id in rows && id !in locked && rows[id].job.status.Retrying? && rows[id].job.nextAttemptAt.Some?
             && rows[id].job.nextAttemptAt.value <= now
  }

  function RetryTimes(rows: Table): map<JobId, Time> {
    map id | id in rows && rows[id].job.nextAttemptAt.Some? :: rows[id].job.nextAttemptAt.value
  }

  /** The RETRYING jobs whose time has come, earliest first. */
  lemma PromoteChooses(cfg: Settings, p: Passed, locked: set<JobId>, batch: nat)
    requires PromoteRan(cfg, p, locked, batch)
    ensures Filled(p.ids, RetriesDue(p.before.rows, locked, p.at), batch)
    ensures Earliest(p.ids, RetriesDue(p.before.rows, locked, p.at), RetryTimes(p.before.rows))
  {
    assert DueRetries(p.before.rows, p.at, locked) == RetriesDue(p.before.rows, locked, p.at);
    FillsUp(p.ids, RetriesDue(p.before.rows, locked, p.at), Keys(p.before.rows, RetryKey()), batch);
    Sorts(p.ids, RetriesDue(p.before.rows, locked, p.at), Keys(p.before.rows, RetryKey()),
          RetryTimes(p.before.rows), batch);
  }

  // ---------- leases

  function LeasesOver(rows: Table, locked: set<JobId>, now: Time): set<JobId> {
    set id | id in rows && id !in locked && rows[id].job.status.Running? && rows[id].job.lockExpiresAt.Some?
             && rows[id].job.lockExpiresAt.value < now
  }

  function LeaseTimes(rows: Table): map<JobId, Time> {
    map id | id in rows && rows[id].job.lockExpiresAt.Some? :: rows[id].job.lockExpiresAt.value
  }

  /** The RUNNING jobs whose lock has expired, longest ago first. */
  lemma ReapChooses(cfg: Settings, p: Passed, locked: set<JobId>, batch: nat)
    requires ReapRan(cfg, p, locked, batch)
    ensures Filled(p.ids, LeasesOver(p.before.rows, locked, p.at), batch)
    ensures Earliest(p.ids, LeasesOver(p.before.rows, locked, p.at), LeaseTimes(p.before.rows))
  {
    assert ExpiredLeases(p.before.rows, p.at, locked) == LeasesOver(p.before.rows, locked, p.at);
    FillsUp(p.ids, LeasesOver(p.before.rows, locked, p.at), Keys(p.before.rows, LeaseKey()), batch);
    Sorts(p.ids, LeasesOver(p.before.rows, locked, p.at), Keys(p.before.rows, LeaseKey()),
          LeaseTimes(p.before.rows), batch);
  }

  // ---------- stuck messages

  function LongQueued(cfg: Settings, rows: Table, locked: set<JobId>, readAt: Time): set<JobId> {
    set id | id in rows && id !in locked && rows[id].job.status.Queued? && rows[id].job.lastDispatchedAt.Some?
             && readAt - rows[id].job.lastDispatchedAt.value > cfg.queueStuckSeconds
  }

  function DispatchTimes(rows: Table): map<JobId, Time> {
    map id | id in rows && rows[id].job.lastDispatchedAt.Some? :: rows[id].job.lastDispatchedAt.value
  }

  /** The QUEUED jobs dispatched longer ago than the cooldown, longest ago first. */
  lemma RedeliverChooses(cfg: Settings, p: Passed, times: seq<Time>, to: Time, locked: set<JobId>, batch: nat)
    requires Tables(cfg, p.before.rows) && RedeliverRan(cfg, p, times, to, locked, batch)
    ensures Filled(p.ids, LongQueued(cfg, p.before.rows, locked, p.at), batch)
    ensures Earliest(p.ids, LongQueued(cfg, p.before.rows, locked, p.at), DispatchTimes(p.before.rows))
  {
    var rows := p.before.rows;
    forall id | id in rows ensures rows[id].job.status.Queued? ==> rows[id].job.lastDispatchedAt.Some? {
      assert RowSound(cfg, rows, id);
    }
    StuckAre(cfg, rows, locked, p.at);
    FillsUp(p.ids, LongQueued(cfg, rows, locked, p.at), Keys(rows, DispatchedKey()), batch);
    Sorts(p.ids, LongQueued(cfg, rows, locked, p.at), Keys(rows, DispatchedKey()), DispatchTimes(rows), batch);
  }

  lemma StuckAre(cfg: Settings, rows: Table, locked: set<JobId>, readAt: Time)
    requires forall id :: id in rows && rows[id].job.status.Queued? ==> rows[id].job.lastDispatchedAt.Some?
    ensures StuckJobs(rows, StuckCutoff(cfg, readAt), locked) == LongQueued(cfg, rows, locked, readAt)
  {
  }

  // ---------- stale jobs

  function TooOld(cfg: Settings, rows: Table, locked: set<JobId>, now: Time): set<JobId> {
    set id | id in rows && id !in locked && (rows[id].job.status.Pending? || rows[id].job.status.Queued?)
             && now - rows[id].job.spec.createdAt > cfg.queueMaxAgeSeconds
  }

  lemma StaleAre(cfg: Settings, rows: Table, locked: set<JobId>, now: Time)
    ensures StaleJobs(rows, StaleCutoff(cfg, now), locked) == TooOld(cfg, rows, locked, now)
  {
  }

  /** The PENDING and QUEUED jobs older than the maximum age, oldest first. */
  lemma ExpireChooses(cfg: Settings, p: Passed, locked: set<JobId>, batch: nat)
    requires ExpireRan(cfg, p, locked, batch)
    ensures Filled(p.ids, TooOld(cfg, p.before.rows, locked, p.at), batch)
    ensures Earliest(p.ids, TooOld(cfg, p.before.rows, locked, p.at), Created(p.before.rows))
  {
    StaleAre(cfg, p.before.rows, locked, p.at);
    FillsUp(p.ids, TooOld(cfg, p.before.rows, locked, p.at), Keys(p.before.rows, CreatedKey()), batch);
    Sorts(p.ids, TooOld(cfg, p.before.rows, locked, p.at), Keys(p.before.rows, CreatedKey()),
          Created(p.before.rows), batch);
  }

  /** A pass whose limit reaches them leaves no unlocked PENDING or QUEUED job older than the maximum age. */
  lemma ExpireLeavesNone(cfg: Settings, p: Passed, locked: set<JobId>, batch: nat)
    requires ExpireRan(cfg, p, locked, batch) && |TooOld(cfg, p.before.rows, locked, p.at)| <= batch
    ensures TooOld(cfg, p.after.rows, locked, p.at) == {}
  {
    ExpireChooses(cfg, p, locked, batch);
    forall id | id in p.after.rows ensures id !in TooOld(cfg, p.after.rows, locked, p.at) {
      assert id in p.ids ==> id in TooOld(cfg, p.before.rows, locked, p.at);
    }
  }

  // ---------- notifications

  function NoticesDue(rows: Table, locked: set<JobId>, now: Time): set<JobId> {
    set id | id in rows && id !in locked && |rows[id].notices| > 0 && rows[id].notices[0].status.NoticePending?
             && rows[id].notices[0].nextAttemptAt <= now
  }

  function NoticeTimes(rows: Table): map<JobId, Time> {
    map id | id in rows && |rows[id].notices| > 0 :: rows[id].notices[0].nextAttemptAt
  }

  /** The pending notifications whose time has come, earliest first. */
  lemma NotifyChooses(cfg: Settings, p: Passed, tries: seq<Try>, locked: set<JobId>, batch: nat)
    requires NotifyRan(cfg, p, tries, locked, batch)
    ensures Filled(p.ids, NoticesDue(p.before.rows, locked, p.at), batch)
    ensures Earliest(p.ids, NoticesDue(p.before.rows, locked, p.at), NoticeTimes(p.before.rows))
  {
    assert DueNotices(p.before.rows, p.at, locked) == NoticesDue(p.before.rows, locked, p.at);
    FillsUp(p.ids, NoticesDue(p.before.rows, locked, p.at), Keys(p.before.rows, NoticeKey()), batch);
    Sorts(p.ids, NoticesDue(p.before.rows, locked, p.at), Keys(p.before.rows, NoticeKey()),
          NoticeTimes(p.before.rows), batch);
  }
}
