// How many ticks recover all jobs when a batch does not reach the table, after the workers have gone.
module Catchup {
  import opened Domain
  import opened JobRows
  import opened Selection
  import opened Lifecycle
  import opened Store
  import opened Services
  import opened Recovery

  /** What a job can be waiting for since before `start`, one kind for each of the first four passes. */
  datatype Lag = Undispatched | Unpromoted | Unreaped | Unsent

  predicate Lags(cfg: Settings, s: JobState, start: Time, lag: Lag) {
    match lag
    case Undispatched => !s.published
    case Unpromoted => s.job.status.Retrying?
    case Unreaped => s.job.status.Running?
    case Unsent => StuckQueued(s.job, StuckCutoff(cfg, start))
  }

  function Lagging(cfg: Settings, rows: Table, locked: set<JobId>, start: Time, lag: Lag): set<JobId> {
    set id | id in rows && id !in locked && Lags(cfg, rows[id], start, lag)
  }

  // ---------- no pass makes a job lag

  predicate RowQuiet(cfg: Settings, rows: Table, rows': Table, start: Time, lag: Lag, id: JobId) {
    id in rows' && Lags(cfg, rows'[id], start, lag) ==> id in rows && Lags(cfg, rows[id], start, lag)
  }

  ghost predicate Quiet(cfg: Settings, rows: Table, rows': Table, start: Time, lag: Lag) {
    forall id :: RowQuiet(cfg, rows, rows', start, lag, id)
  }

  lemma QuietFewer(cfg: Settings, rows: Table, rows': Table, locked: set<JobId>, start: Time, lag: Lag)
    requires Quiet(cfg, rows, rows', start, lag)
    ensures |Lagging(cfg, rows', locked, start, lag)| <= |Lagging(cfg, rows, locked, start, lag)|
  {
    forall id | id in Lagging(cfg, rows', locked, start, lag) ensures id in Lagging(cfg, rows, locked, start, lag) {
      assert RowQuiet(cfg, rows, rows', start, lag, id);
    }
    SubsetSize(Lagging(cfg, rows', locked, start, lag), Lagging(cfg, rows, locked, start, lag));
  }

  lemma PassQuiet(cfg: Settings, s: JobState, now: Time, pass: Pass, start: Time, lag: Lag)
    requires cfg.queueStuckSeconds >= 0.0 && start <= now && Lags(cfg, PassStep(cfg, s, now, pass), start, lag)
    ensures Lags(cfg, s, start, lag)
  {
  }

  lemma CommitQuiet(cfg: Settings, rows: Table, ids: seq<JobId>, now: Time, pass: Pass, start: Time, lag: Lag)
    requires cfg.queueStuckSeconds >= 0.0 && start <= now
    ensures Quiet(cfg, rows, ApplyAll(rows, ids, PassOf(cfg, now, pass)), start, lag)
  {
    var rows' := ApplyAll(rows, ids, PassOf(cfg, now, pass));
    forall id ensures RowQuiet(cfg, rows, rows', start, lag, id) {
      if id in ids && id in rows && Lags(cfg, rows'[id], start, lag) {
        PassQuiet(cfg, rows[id], now, pass, start, lag);
      }
    }
  }

  lemma RestampQuiet(cfg: Settings, rows: Table, rows': Table, ids: seq<JobId>, times: seq<Time>, start: Time, lag: Lag)
    requires cfg.queueStuckSeconds >= 0.0 && Restamped(rows, rows', ids, times)
    requires forall i :: 0 <= i < |times| ==> start <= times[i]
    ensures Quiet(cfg, rows, rows', start, lag)
    ensures forall id :: id in ids && id in rows' ==> !Lags(cfg, rows'[id], start, Unsent)
  {
    forall id ensures RowQuiet(cfg, rows, rows', start, lag, id)
                      && (id in ids && id in rows' ==> !Lags(cfg, rows'[id], start, Unsent)) {
      if id in ids {
        var i :| 0 <= i < |ids| && ids[i] == id;
        assert start <= times[i];
      }
    }
  }

  lemma TryQuiet(cfg: Settings, rows: Table, rows': Table, ids: seq<JobId>, tries: seq<Try>, start: Time, lag: Lag)
    requires NoticesTried(cfg, rows, rows', ids, tries)
    ensures Quiet(cfg, rows, rows', start, lag)
  {
    forall id ensures RowQuiet(cfg, rows, rows', start, lag, id) {
      if id in ids {
        var i :| 0 <= i < |ids| && ids[i] == id;
      }
    }
  }

  // ---------- each pass serves a batch of the jobs that wait for it

  /** A pass that ends the lag of the jobs it selects, and makes no other lag, leaves a batch fewer. */
  lemma ServedFewer(cfg: Settings, rows: Table, rows': Table, ids: seq<JobId>, candidates: set<JobId>,
                    key: map<JobId, Option<Time>>, locked: set<JobId>, start: Time, batch: nat, lag: Lag)
    requires candidates <= key.Keys && Selected(ids, candidates, key, batch)
    requires Quiet(cfg, rows, rows', start, lag)
    requires forall id :: id in ids && id in rows' ==> !Lags(cfg, rows'[id], start, lag)
    requires forall id :: id in Lagging(cfg, rows, locked, start, lag) ==> id in candidates
    requires forall id, x ::
               id in candidates && x in Lagging(cfg, rows, locked, start, lag) && NoLater(key[id], key[x]) ==>
                 id in Lagging(cfg, rows, locked, start, lag)
    ensures |Lagging(cfg, rows', locked, start, lag)| <= Less(|Lagging(cfg, rows, locked, start, lag)|, batch)
  {
    var waiting := Lagging(cfg, rows, locked, start, lag);
    OldestFirst(ids, candidates, key, batch, waiting);
    forall id | id in Lagging(cfg, rows', locked, start, lag) ensures id in Unserved(waiting, ids) {
      assert RowQuiet(cfg, rows, rows', start, lag, id);
    }
    SubsetSize(Lagging(cfg, rows', locked, start, lag), Unserved(waiting, ids));
  }

  lemma DispatchServes(cfg: Settings, p: Passed, locked: set<JobId>, start: Time, batch: nat)
    requires DispatchRan(cfg, p, locked, batch) && cfg.queueStuckSeconds >= 0.0 && start <= p.at
    ensures |Lagging(cfg, p.committed.rows, locked, start, Undispatched)|
            <= Less(|Lagging(cfg, p.before.rows, locked, start, Undispatched)|, batch)
  {
    var rows := p.before.rows;
    CommitQuiet(cfg, rows, p.ids, p.at, DispatchRow, start, Undispatched);
    assert Unpublished(rows, locked) == Lagging(cfg, rows, locked, start, Undispatched);
    ServedFewer(cfg, rows, p.committed.rows, p.ids, Unpublished(rows, locked), Keys(rows, CreatedKey()), locked, start,
                batch, Undispatched);
  }

  lemma PromoteServes(cfg: Settings, p: Passed, locked: set<JobId>, start: Time, batch: nat)
    requires PromoteRan(cfg, p, locked, batch) && cfg.queueStuckSeconds >= 0.0 && start <= p.at
    requires AllOnTrack(cfg, p.before, locked, start, {})
    ensures |Lagging(cfg, p.committed.rows, locked, start, Unpromoted)|
            <= Less(|Lagging(cfg, p.before.rows, locked, start, Unpromoted)|, batch)
  {
    var rows := p.before.rows;
    CommitQuiet(cfg, rows, p.ids, p.at, PromoteRetry, start, Unpromoted);
    forall id ensures id in DueRetries(rows, p.at, locked) <==> id in Lagging(cfg, rows, locked, start, Unpromoted) {
      assert RowOnTrack(cfg, p.before, locked, start, {}, id);
    }
    ServedFewer(cfg, rows, p.committed.rows, p.ids, DueRetries(rows, p.at, locked), Keys(rows, RetryKey()), locked,
                start, batch, Unpromoted);
  }

  lemma ReapServes(cfg: Settings, p: Passed, locked: set<JobId>, start: Time, batch: nat)
    requires ReapRan(cfg, p, locked, batch) && cfg.queueStuckSeconds >= 0.0 && start <= p.at
    requires AllOnTrack(cfg, p.before, locked, start, {})
    ensures |Lagging(cfg, p.committed.rows, locked, start, Unreaped)|
            <= Less(|Lagging(cfg, p.before.rows, locked, start, Unreaped)|, batch)
  {
    var rows := p.before.rows;
    CommitQuiet(cfg, rows, p.ids, p.at, ReapLease, start, Unreaped);
    forall id ensures id in ExpiredLeases(rows, p.at, locked) <==> id in Lagging(cfg, rows, locked, start, Unreaped) {
      assert RowOnTrack(cfg, p.before, locked, start, {}, id);
    }
    ServedFewer(cfg, rows, p.committed.rows, p.ids, ExpiredLeases(rows, p.at, locked), Keys(rows, LeaseKey()), locked,
                start, batch, Unreaped);
  }

  lemma RedeliverServes(cfg: Settings, p: Passed, times: seq<Time>, to: Time, locked: set<JobId>, start: Time,
                        batch: nat)
    requires RedeliverRan(cfg, p, times, to, locked, batch) && cfg.queueStuckSeconds >= 0.0 && start <= p.at
    ensures |Lagging(cfg, p.committed.rows, locked, start, Unsent)|
            <= Less(|Lagging(cfg, p.before.rows, locked, start, Unsent)|, batch)
  {
    var rows, key := p.before.rows, Keys(p.before.rows, DispatchedKey());
    var candidates := StuckJobs(rows, StuckCutoff(cfg, p.at), locked);
    var waiting := Lagging(cfg, rows, locked, start, Unsent);
    RestampQuiet(cfg, rows, p.committed.rows, p.ids, times, start, Unsent);
    forall id, x | id in candidates && x in waiting && NoLater(key[id], key[x]) ensures id in waiting {
    }
    ServedFewer(cfg, rows, p.committed.rows, p.ids, candidates, key, locked, start, batch, Unsent);
  }

  // ---------- one tick

  function Size(cfg: Settings, rows: Table, locked: set<JobId>, start: Time, lag: Lag): nat {
    |Lagging(cfg, rows, locked, start, lag)|
  }

  /** The size after a pass that serves one kind of lag. */
  function Cut(size: nat, batch: nat, lag: Lag, served: Lag): nat { if lag == served then Less(size, batch) else size }

  lemma DispatchFewer(cfg: Settings, p: Passed, locked: set<JobId>, start: Time, batch: nat, lag: Lag)
    requires DispatchRan(cfg, p, locked, batch) && cfg.queueStuckSeconds >= 0.0 && start <= p.at
    ensures Size(cfg, p.committed.rows, locked, start, lag)
            <= Cut(Size(cfg, p.before.rows, locked, start, lag), batch, lag, Undispatched)
  {
    CommitQuiet(cfg, p.before.rows, p.ids, p.at, DispatchRow, start, lag);
    QuietFewer(cfg, p.before.rows, p.committed.rows, locked, start, lag);
    DispatchServes(cfg, p, locked, start, batch);
  }

  lemma PromoteFewer(cfg: Settings, p: Passed, locked: set<JobId>, start: Time, batch: nat, lag: Lag)
    requires PromoteRan(cfg, p, locked, batch) && cfg.queueStuckSeconds >= 0.0 && start <= p.at
    requires AllOnTrack(cfg, p.before, locked, start, {})
    ensures Size(cfg, p.committed.rows, locked, start, lag)
            <= Cut(Size(cfg, p.before.rows, locked, start, lag), batch, lag, Unpromoted)
  {
    CommitQuiet(cfg, p.before.rows, p.ids, p.at, PromoteRetry, start, lag);
    QuietFewer(cfg, p.before.rows, p.committed.rows, locked, start, lag);
    PromoteServes(cfg, p, locked, start, batch);
  }

  lemma ReapFewer(cfg: Settings, p: Passed, locked: set<JobId>, start: Time, batch: nat, lag: Lag)
    requires ReapRan(cfg, p, locked, batch) && cfg.queueStuckSeconds >= 0.0 && start <= p.at
    requires AllOnTrack(cfg, p.before, locked, start, {})
    ensures Size(cfg, p.committed.rows, locked, start, lag)
            <= Cut(Size(cfg, p.before.rows, locked, start, lag), batch, lag, Unreaped)
  {
    CommitQuiet(cfg, p.before.rows, p.ids, p.at, ReapLease, start, lag);
    QuietFewer(cfg, p.before.rows, p.committed.rows, locked, start, lag);
    ReapServes(cfg, p, locked, start, batch);
  }

  lemma RedeliverFewer(cfg: Settings, p: Passed, times: seq<Time>, to: Time, locked: set<JobId>, start: Time,
                       batch: nat, lag: Lag)
    requires RedeliverRan(cfg, p, times, to, locked, batch) && cfg.queueStuckSeconds >= 0.0 && start <= p.at
    ensures Size(cfg, p.committed.rows, locked, start, lag)
            <= Cut(Size(cfg, p.before.rows, locked, start, lag), batch, lag, Unsent)
  {
    RestampQuiet(cfg, p.before.rows, p.committed.rows, p.ids, times, start, lag);
    QuietFewer(cfg, p.before.rows, p.committed.rows, locked, start, lag);
    RedeliverServes(cfg, p, times, to, locked, start, batch);
  }

  lemma ExpireFewer(cfg: Settings, p: Passed, locked: set<JobId>, start: Time, batch: nat, lag: Lag)
    requires ExpireRan(cfg, p, locked, batch) && cfg.queueStuckSeconds >= 0.0 && start <= p.at
    ensures Size(cfg, p.after.rows, locked, start, lag) <= Size(cfg, p.before.rows, locked, start, lag)
  {
    CommitQuiet(cfg, p.before.rows, p.ids, p.at, ExpireStale, start, lag);
    QuietFewer(cfg, p.before.rows, p.after.rows, locked, start, lag);
  }

  lemma NotifyFewer(cfg: Settings, p: Passed, tries: seq<Try>, locked: set<JobId>, start: Time, batch: nat, lag: Lag)
    requires NotifyRan(cfg, p, tries, locked, batch)
    ensures Size(cfg, p.after.rows, locked, start, lag) <= Size(cfg, p.before.rows, locked, start, lag)
  {
    TryQuiet(cfg, p.before.rows, p.after.rows, p.ids, tries, start, lag);
    QuietFewer(cfg, p.before.rows, p.after.rows, locked, start, lag);
  }

  /** Nobody else acts during the tick. */
  ghost predicate Alone(log: TickLog) {
    && log.dispatched.resumed == log.dispatched.committed && log.promoted.before == log.dispatched.after
    && log.promoted.resumed == log.promoted.committed && log.reaped.before == log.promoted.after
    && log.reaped.resumed == log.reaped.committed && log.redelivered.before == log.reaped.after
    && log.redelivered.resumed == log.redelivered.committed && log.expired.before == log.redelivered.after
    && log.notified.before == log.expired.after
  }

  ghost predicate Since(log: TickLog, start: Time) {
    && start <= log.dispatched.at && start <= log.promoted.at && start <= log.reaped.at
    && start <= log.redelivered.at && start <= log.expired.at
  }

  lemma Still(w: World, spared: set<JobId>)
    ensures Untouched(w, w, spared)
  {
    forall id ensures RowUntouched(w, w, spared, id) { }
  }

  lemma AloneIsUndisturbed(log: TickLog, spared: set<JobId>)
    requires Alone(log)
    ensures Undisturbed(log, spared)
  {
    Still(log.dispatched.committed, spared);
    Still(log.promoted.before, spared);
    Still(log.promoted.committed, spared);
    Still(log.reaped.before, spared);
    Still(log.reaped.committed, spared);
    Still(log.redelivered.before, spared);
    Still(log.redelivered.committed, spared);
    Still(log.expired.before, spared);
    Still(log.notified.before, spared);
  }

  /** Between its first three passes, too, a tick keeps every job on track. */
  lemma MidTick(cfg: Settings, a: Passed, b: Passed, c: World, locked: set<JobId>, start: Time, batch: nat)
    requires Tables(cfg, a.before.rows) && DispatchRan(cfg, a, locked, batch) && PromoteRan(cfg, b, locked, batch)
    requires a.resumed == a.committed && b.before == a.after && b.resumed == b.committed && c == b.after
    requires start <= b.at && AllOnTrack(cfg, a.before, locked, start, {})
    ensures AllOnTrack(cfg, b.before, locked, start, {}) && AllOnTrack(cfg, c, locked, start, {})
  {
    Still(a.committed, locked);
    Still(a.after, locked);
    Still(b.committed, locked);
    Still(b.after, locked);
    var left := FirstPass(cfg, a, b.before, locked, locked, start, batch);
    FewerLeft(cfg, b.before, locked, start, left);
    left := SecondPass(cfg, b, c, locked, locked, start, batch, left);
    FewerLeft(cfg, c, locked, start, left);
  }

  /** The tables of consecutive passes, when nobody else acts. */
  lemma AloneRows(cfg: Settings, log: TickLog, locked: set<JobId>, batch: nat)
    requires Ticked(cfg, log, locked, batch) && Alone(log)
    ensures log.promoted.before.rows == log.dispatched.committed.rows
    ensures log.reaped.before.rows == log.promoted.committed.rows
    ensures log.redelivered.before.rows == log.reaped.committed.rows
    ensures log.expired.before.rows == log.redelivered.committed.rows
    ensures log.notified.before.rows == log.expired.after.rows
  {
  }

  /** The size after the first three passes. */
  function Third(size: nat, batch: nat, lag: Lag): nat { if lag.Unsent? then size else Less(size, batch) }

  lemma FirstChain(cfg: Settings, a: Passed, b: Passed, c: Passed, locked: set<JobId>, start: Time, batch: nat,
                   lag: Lag)
    requires b.before.rows == a.committed.rows && c.before.rows == b.committed.rows
    requires Size(cfg, a.committed.rows, locked, start, lag)
             <= Cut(Size(cfg, a.before.rows, locked, start, lag), batch, lag, Undispatched)
    requires Size(cfg, b.committed.rows, locked, start, lag)
             <= Cut(Size(cfg, b.before.rows, locked, start, lag), batch, lag, Unpromoted)
    requires Size(cfg, c.committed.rows, locked, start, lag)
             <= Cut(Size(cfg, c.before.rows, locked, start, lag), batch, lag, Unreaped)
    ensures Size(cfg, c.committed.rows, locked, start, lag)
            <= Third(Size(cfg, a.before.rows, locked, start, lag), batch, lag)
  {
  }

  lemma WholeChain(cfg: Settings, a: Passed, c: Passed, d: Passed, n: Passed, locked: set<JobId>, start: Time,
                   batch: nat, lag: Lag)
    requires d.before.rows == c.committed.rows
    requires Size(cfg, c.committed.rows, locked, start, lag)
             <= Third(Size(cfg, a.before.rows, locked, start, lag), batch, lag)
    requires Size(cfg, n.after.rows, locked, start, lag)
             <= Cut(Size(cfg, d.before.rows, locked, start, lag), batch, lag, Unsent)
    ensures Size(cfg, n.after.rows, locked, start, lag)
            <= Less(Size(cfg, a.before.rows, locked, start, lag), batch)
  {
  }

  lemma FirstSizes(cfg: Settings, a: Passed, b: Passed, c: Passed, locked: set<JobId>, start: Time, batch: nat,
                   lag: Lag)
    requires DispatchRan(cfg, a, locked, batch) && PromoteRan(cfg, b, locked, batch) && ReapRan(cfg, c, locked, batch)
    requires cfg.queueStuckSeconds >= 0.0 && start <= a.at && start <= b.at && start <= c.at
    requires AllOnTrack(cfg, b.before, locked, start, {}) && AllOnTrack(cfg, c.before, locked, start, {})
    requires b.before.rows == a.committed.rows && c.before.rows == b.committed.rows
    ensures Size(cfg, c.committed.rows, locked, start, lag)
            <= Third(Size(cfg, a.before.rows, locked, start, lag), batch, lag)
  {
    DispatchFewer(cfg, a, locked, start, batch, lag);
    PromoteFewer(cfg, b, locked, start, batch, lag);
    ReapFewer(cfg, c, locked, start, batch, lag);
    FirstChain(cfg, a, b, c, locked, start, batch, lag);
  }

  lemma LastSizes(cfg: Settings, d: Passed, times: seq<Time>, to: Time, e: Passed, n: Passed, tries: seq<Try>,
                  locked: set<JobId>, start: Time, batch: nat, lag: Lag)
    requires RedeliverRan(cfg, d, times, to, locked, batch) && ExpireRan(cfg, e, locked, batch)
    requires NotifyRan(cfg, n, tries, locked, batch)
    requires cfg.queueStuckSeconds >= 0.0 && start <= d.at && start <= e.at
    requires e.before.rows == d.committed.rows && n.before.rows == e.after.rows
    ensures Size(cfg, n.after.rows, locked, start, lag)
            <= Cut(Size(cfg, d.before.rows, locked, start, lag), batch, lag, Unsent)
  {
    RedeliverFewer(cfg, d, times, to, locked, start, batch, lag);
    ExpireFewer(cfg, e, locked, start, batch, lag);
    NotifyFewer(cfg, n, tries, locked, start, batch, lag);
  }

  /** A tick serves a batch of every kind of lag. */
  lemma TickServes(cfg: Settings, log: TickLog, locked: set<JobId>, start: Time, batch: nat, lag: Lag)
    requires Tables(cfg, log.dispatched.before.rows) && Ticked(cfg, log, locked, batch)
    requires Alone(log) && Since(log, start)
    requires cfg.queueStuckSeconds >= 0.0 && AllOnTrack(cfg, log.dispatched.before, locked, start, {})
    ensures Size(cfg, log.notified.after.rows, locked, start, lag)
            <= Less(Size(cfg, log.dispatched.before.rows, locked, start, lag), batch)
  {
    AloneRows(cfg, log, locked, batch);
    MidTick(cfg, log.dispatched, log.promoted, log.reaped.before, locked, start, batch);
    FirstSizes(cfg, log.dispatched, log.promoted, log.reaped, locked, start, batch, lag);
    LastSizes(cfg, log.redelivered, log.times, log.to, log.expired, log.notified, log.tries, locked, start, batch, lag);
    WholeChain(cfg, log.dispatched, log.reaped, log.redelivered, log.notified, locked, start, batch, lag);
  }

  // ---------- a run of ticks

  /** Ticks one after the other, with nobody else acting. */
  ghost predicate TickAt(cfg: Settings, logs: seq<TickLog>, locked: set<JobId>, start: Time, batch: nat, i: int) {
    0 <= i < |logs| ==>
      && Ticked(cfg, logs[i], locked, batch) && Alone(logs[i]) && Since(logs[i], start)
      && (i > 0 ==> logs[i].dispatched.before == logs[i - 1].notified.after)
  }

  ghost predicate Ticks(cfg: Settings, logs: seq<TickLog>, locked: set<JobId>, start: Time, batch: nat) {
    forall i :: TickAt(cfg, logs, locked, start, batch, i)
  }

  lemma {:induction false} TicksKeep(cfg: Settings, logs: seq<TickLog>, locked: set<JobId>, start: Time, batch: nat,
                                     n: nat)
    requires n < |logs| && Ticks(cfg, logs, locked, start, batch)
    requires Tables(cfg, logs[0].dispatched.before.rows)
    requires AllOnTrack(cfg, logs[0].dispatched.before, locked, start, {})
    ensures Tables(cfg, logs[n].dispatched.before.rows) && Tables(cfg, logs[n].notified.after.rows)
    ensures AllOnTrack(cfg, logs[n].dispatched.before, locked, start, {})
    ensures AllOnTrack(cfg, logs[n].notified.after, locked, start, {})
  {
    if n > 0 {
      TicksKeep(cfg, logs, locked, start, batch, n - 1);
    }
    NextTick(cfg, logs, locked, start, batch, n);
  }

  lemma NextTick(cfg: Settings, logs: seq<TickLog>, locked: set<JobId>, start: Time, batch: nat, n: nat)
    requires n < |logs| && Ticks(cfg, logs, locked, start, batch)
    requires var w := if n == 0 then logs[0].dispatched.before else logs[n - 1].notified.after;
             Tables(cfg, w.rows) && AllOnTrack(cfg, w, locked, start, {})
    ensures Tables(cfg, logs[n].dispatched.before.rows) && Tables(cfg, logs[n].notified.after.rows)
    ensures AllOnTrack(cfg, logs[n].dispatched.before, locked, start, {})
    ensures AllOnTrack(cfg, logs[n].notified.after, locked, start, {})
  {
    assert TickAt(cfg, logs, locked, start, batch, n);
    OneTick(cfg, logs[n], locked, start, batch);
  }

  lemma OneTick(cfg: Settings, log: TickLog, locked: set<JobId>, start: Time, batch: nat)
    requires Ticked(cfg, log, locked, batch) && Alone(log) && Since(log, start)
    requires Tables(cfg, log.dispatched.before.rows) && AllOnTrack(cfg, log.dispatched.before, locked, start, {})
    ensures Tables(cfg, log.notified.after.rows) && AllOnTrack(cfg, log.notified.after, locked, start, {})
  {
    AloneIsUndisturbed(log, locked);
    TickActs(cfg, log, locked, batch);
    TickRecovers(cfg, log, locked, locked, start, batch);
  }

  lemma TickServesAt(cfg: Settings, logs: seq<TickLog>, locked: set<JobId>, start: Time, batch: nat, lag: Lag, n: nat)
    requires n < |logs| && Ticks(cfg, logs, locked, start, batch) && cfg.queueStuckSeconds >= 0.0
    requires Tables(cfg, logs[n].dispatched.before.rows)
    requires AllOnTrack(cfg, logs[n].dispatched.before, locked, start, {})
    ensures Size(cfg, logs[n].notified.after.rows, locked, start, lag)
            <= Less(Size(cfg, logs[n].dispatched.before.rows, locked, start, lag), batch)
    ensures n > 0 ==> logs[n].dispatched.before == logs[n - 1].notified.after
  {
    assert TickAt(cfg, logs, locked, start, batch, n);
    TickServes(cfg, logs[n], locked, start, batch, lag);
  }

  lemma {:induction false} LagShrinks(cfg: Settings, logs: seq<TickLog>, locked: set<JobId>, start: Time, batch: nat,
                                      lag: Lag, n: nat)
    requires n < |logs| && Ticks(cfg, logs, locked, start, batch) && cfg.queueStuckSeconds >= 0.0
    requires Tables(cfg, logs[0].dispatched.before.rows)
    requires AllOnTrack(cfg, logs[0].dispatched.before, locked, start, {})
    ensures Size(cfg, logs[n].notified.after.rows, locked, start, lag)
            <= Remaining(Size(cfg, logs[0].dispatched.before.rows, locked, start, lag), batch, n + 1)
  {
    TicksKeep(cfg, logs, locked, start, batch, n);
    TickServesAt(cfg, logs, locked, start, batch, lag, n);
    if n > 0 {
      LagShrinks(cfg, logs, locked, start, batch, lag, n - 1);
    } else {
      assert Remaining(Size(cfg, logs[0].dispatched.before.rows, locked, start, lag), batch, 0)
          == Size(cfg, logs[0].dispatched.before.rows, locked, start, lag);
    }
  }

  /** A job on track that lags in no way is settled. */
  lemma NoLagSettles(cfg: Settings, w: World, locked: set<JobId>, start: Time)
    requires Tables(cfg, w.rows) && AllOnTrack(cfg, w, locked, start, {})
    requires forall lag :: Size(cfg, w.rows, locked, start, lag) == 0
    ensures AllSettled(w, locked)
  {
    forall id ensures RowSettled(w, locked, id) {
      if id in w.rows && id !in locked {
        assert RowSound(cfg, w.rows, id) && RowOnTrack(cfg, w, locked, start, {}, id);
        forall lag: Lag ensures !Lags(cfg, w.rows[id], start, lag) {
          assert Size(cfg, w.rows, locked, start, lag) == 0;
          assert id !in Lagging(cfg, w.rows, locked, start, lag);
        }
        assert !Lags(cfg, w.rows[id], start, Undispatched) && !Lags(cfg, w.rows[id], start, Unpromoted);
        assert !Lags(cfg, w.rows[id], start, Unreaped) && !Lags(cfg, w.rows[id], start, Unsent);
      }
    }
  }

  /**
   * When the workers have gone, ceil(n/b) ticks with batch b recover n jobs, however many are due at once:
   * each job is then terminal, or CANCELLING, or QUEUED with its id in its priority list.
   */
  lemma CatchUp(cfg: Settings, logs: seq<TickLog>, locked: set<JobId>, start: Time, batch: nat)
    requires logs != [] && Ticks(cfg, logs, locked, start, batch) && cfg.queueStuckSeconds >= 0.0
    requires Tables(cfg, logs[0].dispatched.before.rows)
    requires AllOnTrack(cfg, logs[0].dispatched.before, locked, start, {})
    requires |logs[0].dispatched.before.rows| <= |logs| * batch
    ensures AllSettled(logs[|logs| - 1].notified.after, locked)
  {
    var w, rows := logs[|logs| - 1].notified.after, logs[0].dispatched.before.rows;
    TicksKeep(cfg, logs, locked, start, batch, |logs| - 1);
    forall lag: Lag ensures Size(cfg, w.rows, locked, start, lag) == 0 {
      LagShrinks(cfg, logs, locked, start, batch, lag, |logs| - 1);
      SubsetSize(Lagging(cfg, rows, locked, start, lag), rows.Keys);
      RemainingIs(Size(cfg, rows, locked, start, lag), batch, |logs|);
    }
    NoLagSettles(cfg, w, locked, start);
  }
}
