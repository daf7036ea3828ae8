// What the passes of one scheduler tick do for the jobs, whatever was lost before it, while the other
// processes act between the passes and between each commit and its pushes.
module Recovery {
  import opened Domain
  import opened JobRows
  import opened Selection
  import opened Lifecycle
  import opened Invariants
  import opened Store
  import opened Evolution
  import opened Services
  import opened Refinement

  /** The job's id is in the list of its priority. */
  predicate Listed(lists: Lists, id: JobId, s: JobState) { id in lists(s.job.spec.priority) }

  /** Every deadline of the row lies before `start`, unless the job is queued and listed. */
  predicate OnTrack(cfg: Settings, s: JobState, listed: bool, start: Time) {
    && (s.job.status.Retrying? ==> s.job.nextAttemptAt.Some? && s.job.nextAttemptAt.value <= start)
    && (s.job.status.Running? ==> s.job.lockExpiresAt.Some? && s.job.lockExpiresAt.value < start)
    && (s.job.status.Queued? ==>
          listed || s.job.lastDispatchedAt.None? || start - s.job.lastDispatchedAt.value > cfg.queueStuckSeconds)
  }

  /** Terminal, waiting for its worker to honour a cancel, or queued with a message in its list. */
  predicate Settled(s: JobState, listed: bool) {
    s.job.status.Terminal() || s.job.status.Cancelling? || (s.job.status.Queued? && listed)
  }

  predicate RowOnTrack(cfg: Settings, w: World, spared: set<JobId>, start: Time, left: set<Status>, id: JobId) {
    id in w.rows && id !in spared ==>
      OnTrack(cfg, w.rows[id], Listed(w.lists, id, w.rows[id]), start) && w.rows[id].job.status !in left
  }

  /** All jobs but the spared ones are on track and in none of the `left` statuses. */
  ghost predicate AllOnTrack(cfg: Settings, w: World, spared: set<JobId>, start: Time, left: set<Status>) {
    forall id :: RowOnTrack(cfg, w, spared, start, left, id)
  }

  predicate RowSettled(w: World, spared: set<JobId>, id: JobId) {
    id in w.rows && id !in spared ==> Settled(w.rows[id], Listed(w.lists, id, w.rows[id]))
  }

  ghost predicate AllSettled(w: World, spared: set<JobId>) { forall id :: RowSettled(w, spared, id) }

  // ---------- what the others leave alone

  predicate RowUntouched(w: World, w': World, spared: set<JobId>, id: JobId) {
    id in w'.rows && id !in spared ==>
      id in w.rows && w'.rows[id] == w.rows[id]
      && (Listed(w.lists, id, w.rows[id]) ==> Listed(w'.lists, id, w.rows[id]))
  }

  /** The others have acted on spared jobs only: they changed no other row and took no other message. */
  ghost predicate Untouched(w: World, w': World, spared: set<JobId>) { forall id :: RowUntouched(w, w', spared, id) }

  lemma GapOnTrack(cfg: Settings, w: World, w': World, spared: set<JobId>, start: Time, left: set<Status>)
    requires AllOnTrack(cfg, w, spared, start, left) && Untouched(w, w', spared)
    ensures AllOnTrack(cfg, w', spared, start, left)
  {
    forall id ensures RowOnTrack(cfg, w', spared, start, left, id) {
      assert RowOnTrack(cfg, w, spared, start, left, id) && RowUntouched(w, w', spared, id);
    }
  }

  lemma GapSettled(w: World, w': World, spared: set<JobId>)
    requires AllSettled(w, spared) && Untouched(w, w', spared)
    ensures AllSettled(w', spared)
  {
    forall id ensures RowSettled(w', spared, id) {
      assert RowSettled(w, spared, id) && RowUntouched(w, w', spared, id);
    }
  }

  /** Where the push leaves a job that the others have not touched since the commit. */
  lemma Sending(cfg: Settings, p: Passed, sent: seq<JobId>, spared: set<JobId>, id: JobId)
    requires Interrupted(cfg, p) && Untouched(p.committed, p.resumed, spared)
    requires (forall x :: x in sent ==> x in p.before.rows)
    requires PushedFor(p.resumed.lists, p.after.lists, p.before.rows, sent)
    requires id in p.after.rows && id !in spared && id in p.before.rows && id in p.committed.rows
    requires p.committed.rows[id].job.spec == p.before.rows[id].job.spec
    ensures p.after.rows[id] == p.committed.rows[id]
    ensures Listed(p.before.lists, id, p.before.rows[id]) || id in sent ==> Listed(p.after.lists, id, p.after.rows[id])
  {
    assert RowUntouched(p.committed, p.resumed, spared, id);
    var q := p.before.rows[id].job.spec.priority;
    Pushed(p.resumed.lists(q), MessagesFor(p.before.rows, sent), q, id);
    if id in sent {
      var i :| 0 <= i < |sent| && sent[i] == id;
      assert MessagesFor(p.before.rows, sent)[i] == Message(id, q);
    }
  }

  lemma KnownBefore(cfg: Settings, p: Passed, spared: set<JobId>, id: JobId)
    requires Interrupted(cfg, p) && Untouched(p.committed, p.resumed, spared)
    requires p.committed.rows.Keys == p.before.rows.Keys && id in p.after.rows && id !in spared
    ensures id in p.before.rows && id in p.committed.rows
  {
    assert RowUntouched(p.committed, p.resumed, spared, id);
  }

  // ---------- one job, one pass

  lemma DispatchTrack(cfg: Settings, s: JobState, listed: bool, start: Time, now: Time, chosen: bool)
    requires Inv(cfg, s) && OnTrack(cfg, s, listed, start) && (chosen ==> !s.published)
    ensures var s' := if chosen then PassStep(cfg, s, now, DispatchRow) else s;
            && OnTrack(cfg, s', listed || chosen, start) && s'.job.spec == s.job.spec
            && (s'.job.status == s.job.status || s'.job.status.Queued?)
            && (s.published || chosen ==> !s'.job.status.Pending?)
  {
  }

  lemma PromoteTrack(cfg: Settings, s: JobState, listed: bool, start: Time, now: Time, chosen: bool)
    requires OnTrack(cfg, s, listed, start) && start <= now && (chosen ==> DueRetry(s.job, now))
    ensures var s' := if chosen then PassStep(cfg, s, now, PromoteRetry) else s;
            && OnTrack(cfg, s', listed || chosen, start) && s'.job.spec == s.job.spec
            && (s'.job.status == s.job.status || s'.job.status.Queued?)
            && (chosen || !DueRetry(s.job, now) ==> !s'.job.status.Retrying?)
  {
  }

  lemma ReapTrack(cfg: Settings, s: JobState, listed: bool, start: Time, now: Time, chosen: bool)
    requires OnTrack(cfg, s, listed, start) && start <= now && (chosen ==> LeaseExpired(s.job, now))
    ensures var s' := if chosen then PassStep(cfg, s, now, ReapLease) else s;
            var sent := chosen && s.job.attempts < s.job.spec.maxAttempts;
            && OnTrack(cfg, s', listed || sent, start) && s'.job.spec == s.job.spec
            && (s'.job.status == s.job.status || s'.job.status.Queued? || s'.job.status.Failed?)
            && (chosen || !LeaseExpired(s.job, now) ==> !s'.job.status.Running?)
  {
  }

  // ---------- all jobs, one pass

  /** With a batch that reaches the table, a selection takes every candidate. */
  lemma Chosen(ids: seq<JobId>, candidates: set<JobId>, rows: Table, key: JobState -> Option<Time>, batch: nat)
    requires candidates <= rows.Keys && Selected(ids, candidates, Keys(rows, key), batch) && |rows| <= batch
    ensures forall id :: id in ids <==> id in candidates
  {
    SubsetSize(candidates, rows.Keys);
    SelectsAll(ids, candidates, Keys(rows, key), batch);
  }

  /** A pass whose batch reaches the table leaves no job in the status it serves. */
  function Served(left: set<Status>, status: Status, p: Passed, batch: nat): set<Status> {
    if |p.before.rows| <= batch then left + {status} else left
  }

  lemma DispatchedRow(cfg: Settings, p: Passed, locked: set<JobId>, spared: set<JobId>, start: Time, batch: nat,
                      left: set<Status>, id: JobId)
    requires Tables(cfg, p.before.rows) && DispatchRan(cfg, p, locked, batch)
    requires Untouched(p.committed, p.resumed, spared) && RowOnTrack(cfg, p.before, spared, start, left, id)
    requires Queued !in left
    ensures RowOnTrack(cfg, p.after, spared, start, left, id)
    ensures id in p.after.rows && id !in spared ==>
              id in p.before.rows
              && (p.before.rows[id].published || id in p.ids ==> !p.after.rows[id].job.status.Pending?)
  {
    if id in p.after.rows && id !in spared {
      KnownBefore(cfg, p, spared, id);
      var s := p.before.rows[id];
      assert RowSound(cfg, p.before.rows, id);
      DispatchTrack(cfg, s, Listed(p.before.lists, id, s), start, p.at, id in p.ids);
      Sending(cfg, p, p.ids, spared, id);
    }
  }

  lemma DispatchRecovers(cfg: Settings, p: Passed, locked: set<JobId>, spared: set<JobId>, start: Time, batch: nat,
                         left: set<Status>)
    requires Tables(cfg, p.before.rows) && DispatchRan(cfg, p, locked, batch)
    requires locked <= spared && Untouched(p.committed, p.resumed, spared) && Queued !in left
    requires AllOnTrack(cfg, p.before, spared, start, left)
    ensures AllOnTrack(cfg, p.after, spared, start, Served(left, Pending, p, batch))
  {
    if |p.before.rows| <= batch {
      Chosen(p.ids, Unpublished(p.before.rows, locked), p.before.rows, CreatedKey(), batch);
    }
    forall id ensures RowOnTrack(cfg, p.after, spared, start, Served(left, Pending, p, batch), id) {
      assert RowOnTrack(cfg, p.before, spared, start, left, id);
      DispatchedRow(cfg, p, locked, spared, start, batch, left, id);
    }
  }

  lemma PromotedRow(cfg: Settings, p: Passed, locked: set<JobId>, spared: set<JobId>, start: Time, batch: nat,
                    left: set<Status>, id: JobId)
    requires PromoteRan(cfg, p, locked, batch) && start <= p.at
    requires Untouched(p.committed, p.resumed, spared) && RowOnTrack(cfg, p.before, spared, start, left, id)
    requires Queued !in left
    ensures RowOnTrack(cfg, p.after, spared, start, left, id)
    ensures id in p.after.rows && id !in spared ==>
              id in p.before.rows
              && (!DueRetry(p.before.rows[id].job, p.at) || id in p.ids ==> !p.after.rows[id].job.status.Retrying?)
  {
    if id in p.after.rows && id !in spared {
      KnownBefore(cfg, p, spared, id);
      var s := p.before.rows[id];
      PromoteTrack(cfg, s, Listed(p.before.lists, id, s), start, p.at, id in p.ids);
      Sending(cfg, p, p.ids, spared, id);
    }
  }

  lemma PromoteRecovers(cfg: Settings, p: Passed, locked: set<JobId>, spared: set<JobId>, start: Time, batch: nat,
                        left: set<Status>)
    requires PromoteRan(cfg, p, locked, batch) && start <= p.at
    requires locked <= spared && Untouched(p.committed, p.resumed, spared) && Queued !in left
    requires AllOnTrack(cfg, p.before, spared, start, left)
    ensures AllOnTrack(cfg, p.after, spared, start, Served(left, Retrying, p, batch))
  {
    if |p.before.rows| <= batch {
      Chosen(p.ids, DueRetries(p.before.rows, p.at, locked), p.before.rows, RetryKey(), batch);
    }
    forall id ensures RowOnTrack(cfg, p.after, spared, start, Served(left, Retrying, p, batch), id) {
      assert RowOnTrack(cfg, p.before, spared, start, left, id);
      PromotedRow(cfg, p, locked, spared, start, batch, left, id);
    }
  }

  lemma ReapedRow(cfg: Settings, p: Passed, locked: set<JobId>, spared: set<JobId>, start: Time, batch: nat,
                  left: set<Status>, id: JobId)
    requires ReapRan(cfg, p, locked, batch) && start <= p.at
    requires Untouched(p.committed, p.resumed, spared) && RowOnTrack(cfg, p.before, spared, start, left, id)
    requires Queued !in left && Failed !in left
    ensures RowOnTrack(cfg, p.after, spared, start, left, id)
    ensures id in p.after.rows && id !in spared ==>
              id in p.before.rows
              && (!LeaseExpired(p.before.rows[id].job, p.at) || id in p.ids ==> !p.after.rows[id].job.status.Running?)
  {
    if id in p.after.rows && id !in spared {
      KnownBefore(cfg, p, spared, id);
      var s := p.before.rows[id];
      ReapTrack(cfg, s, Listed(p.before.lists, id, s), start, p.at, id in p.ids);
      Sending(cfg, p, Partition(p.before.rows, p.ids, false), spared, id);
    }
  }

  lemma ReapRecovers(cfg: Settings, p: Passed, locked: set<JobId>, spared: set<JobId>, start: Time, batch: nat,
                     left: set<Status>)
    requires ReapRan(cfg, p, locked, batch) && start <= p.at
    requires locked <= spared && Untouched(p.committed, p.resumed, spared) && Queued !in left && Failed !in left
    requires AllOnTrack(cfg, p.before, spared, start, left)
    ensures AllOnTrack(cfg, p.after, spared, start, Served(left, Running, p, batch))
  {
    if |p.before.rows| <= batch {
      Chosen(p.ids, ExpiredLeases(p.before.rows, p.at, locked), p.before.rows, LeaseKey(), batch);
    }
    forall id ensures RowOnTrack(cfg, p.after, spared, start, Served(left, Running, p, batch), id) {
      assert RowOnTrack(cfg, p.before, spared, start, left, id);
      ReapedRow(cfg, p, locked, spared, start, batch, left, id);
    }
  }

  /** A redelivery changes no status, and lists the jobs it restamps. */
  lemma RedeliverTracks(cfg: Settings, p: Passed, times: seq<Time>, to: Time, locked: set<JobId>,
                        spared: set<JobId>, start: Time, batch: nat, left: set<Status>)
    requires RedeliverRan(cfg, p, times, to, locked, batch) && Untouched(p.committed, p.resumed, spared)
    requires AllOnTrack(cfg, p.before, spared, start, left)
    ensures AllOnTrack(cfg, p.after, spared, start, left)
  {
    forall id ensures RowOnTrack(cfg, p.after, spared, start, left, id) {
      if id in p.after.rows && id !in spared {
        KnownBefore(cfg, p, spared, id);
        assert RowOnTrack(cfg, p.before, spared, start, left, id);
        if id in p.ids {
          var i :| 0 <= i < |p.ids| && p.ids[i] == id;
        }
        Sending(cfg, p, p.ids, spared, id);
      }
    }
  }

  lemma RedeliverRecovers(cfg: Settings, p: Passed, times: seq<Time>, to: Time, locked: set<JobId>,
                          spared: set<JobId>, start: Time, batch: nat)
    requires RedeliverRan(cfg, p, times, to, locked, batch) && Untouched(p.committed, p.resumed, spared)
    requires locked <= spared && start <= p.at && |p.before.rows| <= batch
    requires AllOnTrack(cfg, p.before, spared, start, {Pending, Retrying, Running})
    ensures AllSettled(p.after, spared)
  {
    Chosen(p.ids, StuckJobs(p.before.rows, StuckCutoff(cfg, p.at), locked), p.before.rows, DispatchedKey(), batch);
    forall id ensures RowSettled(p.after, spared, id) {
      if id in p.after.rows && id !in spared {
        KnownBefore(cfg, p, spared, id);
        assert RowOnTrack(cfg, p.before, spared, start, {Pending, Retrying, Running}, id);
        if id in p.ids {
          var i :| 0 <= i < |p.ids| && p.ids[i] == id;
        }
        Sending(cfg, p, p.ids, spared, id);
      }
    }
  }

  lemma ExpireTracks(cfg: Settings, p: Passed, locked: set<JobId>, spared: set<JobId>, start: Time, batch: nat,
                     left: set<Status>)
    requires ExpireRan(cfg, p, locked, batch) && Expired !in left
    ensures AllOnTrack(cfg, p.before, spared, start, left) ==> AllOnTrack(cfg, p.after, spared, start, left)
    ensures AllSettled(p.before, spared) ==> AllSettled(p.after, spared)
  {
    if AllOnTrack(cfg, p.before, spared, start, left) {
      forall id ensures RowOnTrack(cfg, p.after, spared, start, left, id) {
        assert RowOnTrack(cfg, p.before, spared, start, left, id);
      }
    }
    if AllSettled(p.before, spared) {
      forall id ensures RowSettled(p.after, spared, id) {
        assert RowSettled(p.before, spared, id);
      }
    }
  }

  lemma NotifyTracks(cfg: Settings, p: Passed, tries: seq<Try>, locked: set<JobId>, spared: set<JobId>, start: Time,
                     batch: nat, left: set<Status>)
    requires NotifyRan(cfg, p, tries, locked, batch)
    ensures AllOnTrack(cfg, p.before, spared, start, left) ==> AllOnTrack(cfg, p.after, spared, start, left)
    ensures AllSettled(p.before, spared) ==> AllSettled(p.after, spared)
  {
    forall id | id in p.before.rows ensures p.after.rows[id].job == p.before.rows[id].job {
      if id in p.ids {
        var i :| 0 <= i < |p.ids| && p.ids[i] == id;
      }
    }
    if AllOnTrack(cfg, p.before, spared, start, left) {
      forall id ensures RowOnTrack(cfg, p.after, spared, start, left, id) {
        assert RowOnTrack(cfg, p.before, spared, start, left, id);
      }
    }
    if AllSettled(p.before, spared) {
      forall id ensures RowSettled(p.after, spared, id) {
        assert RowSettled(p.before, spared, id);
      }
    }
  }

  // ---------- one whole tick

  /** The six passes of a tick, with what the others did between them. */
  datatype TickLog = TickLog(dispatched: Passed, promoted: Passed, reaped: Passed, redelivered: Passed,
                             times: seq<Time>, to: Time, expired: Passed, notified: Passed, tries: seq<Try>)

  ghost predicate Ticked(cfg: Settings, log: TickLog, locked: set<JobId>, batch: nat) {
    && DispatchRan(cfg, log.dispatched, locked, batch)
    && Acted(cfg, log.dispatched.after, log.promoted.before)
    && PromoteRan(cfg, log.promoted, locked, batch)
    && Acted(cfg, log.promoted.after, log.reaped.before)
    && ReapRan(cfg, log.reaped, locked, batch)
    && Acted(cfg, log.reaped.after, log.redelivered.before)
    && RedeliverRan(cfg, log.redelivered, log.times, log.to, locked, batch)
    && Acted(cfg, log.redelivered.after, log.expired.before)
    && ExpireRan(cfg, log.expired, locked, batch)
    && Acted(cfg, log.expired.after, log.notified.before)
    && NotifyRan(cfg, log.notified, log.tries, locked, batch)
  }

  lemma SixPasses(cfg: Settings, log: TickLog, locked: set<JobId>, batch: nat)
    requires DispatchRan(cfg, log.dispatched, locked, batch)
    requires Acted(cfg, log.dispatched.after, log.promoted.before)
    requires PromoteRan(cfg, log.promoted, locked, batch)
    requires Acted(cfg, log.promoted.after, log.reaped.before)
    requires ReapRan(cfg, log.reaped, locked, batch)
    requires Acted(cfg, log.reaped.after, log.redelivered.before)
    requires RedeliverRan(cfg, log.redelivered, log.times, log.to, locked, batch)
    requires Acted(cfg, log.redelivered.after, log.expired.before)
    requires ExpireRan(cfg, log.expired, locked, batch)
    requires Acted(cfg, log.expired.after, log.notified.before)
    requires NotifyRan(cfg, log.notified, log.tries, locked, batch)
    ensures Ticked(cfg, log, locked, batch)
  {
  }

  /** A tick takes only steps of the protocol, keeps what is sound and sends only what it may. */
  lemma TickActs(cfg: Settings, log: TickLog, locked: set<JobId>, batch: nat)
    requires Ticked(cfg, log, locked, batch)
    ensures Acted(cfg, log.redelivered.before, log.notified.after)
    ensures Acted(cfg, log.dispatched.before, log.notified.after)
  {
    var w, v := log.dispatched.before, log.redelivered.before;
    DispatchActs(cfg, log.dispatched, locked, batch);
    ActedOn(cfg, w, log.dispatched.after, log.promoted.before);
    PromoteActs(cfg, log.promoted, locked, batch);
    ActedOn(cfg, w, log.promoted.before, log.promoted.after);
    ActedOn(cfg, w, log.promoted.after, log.reaped.before);
    ReapActs(cfg, log.reaped, locked, batch);
    ActedOn(cfg, w, log.reaped.before, log.reaped.after);
    ActedOn(cfg, w, log.reaped.after, v);
    RedeliverActs(cfg, log.redelivered, log.times, log.to, locked, batch);
    ActedOn(cfg, v, log.redelivered.after, log.expired.before);
    ExpireActs(cfg, log.expired, locked, batch);
    ActedOn(cfg, v, log.expired.before, log.expired.after);
    ActedOn(cfg, v, log.expired.after, log.notified.before);
    NotifyActs(cfg, log.notified, log.tries, locked, batch);
    ActedOn(cfg, v, log.notified.before, log.notified.after);
    ActedOn(cfg, w, v, log.notified.after);
  }

  /** During the tick the others have acted on spared jobs only. */
  ghost predicate Undisturbed(log: TickLog, spared: set<JobId>) {
    && Untouched(log.dispatched.committed, log.dispatched.resumed, spared)
    && Untouched(log.dispatched.after, log.promoted.before, spared)
    && Untouched(log.promoted.committed, log.promoted.resumed, spared)
    && Untouched(log.promoted.after, log.reaped.before, spared)
    && Untouched(log.reaped.committed, log.reaped.resumed, spared)
    && Untouched(log.reaped.after, log.redelivered.before, spared)
    && Untouched(log.redelivered.committed, log.redelivered.resumed, spared)
    && Untouched(log.redelivered.after, log.expired.before, spared)
    && Untouched(log.expired.after, log.notified.before, spared)
  }

  lemma Grows(cfg: Settings, w: World, w': World)
    requires Acted(cfg, w, w')
    ensures |w.rows| <= |w'.rows|
  {
    forall id | id in w.rows ensures id in w'.rows {
      assert RowEvolved(cfg, w.rows, w'.rows, id);
    }
    SubsetSize(w.rows.Keys, w'.rows.Keys);
  }

  /** The passes only ever make a job queued, failed or expired. */
  predicate Lasting(left: set<Status>) { Queued !in left && Failed !in left && Expired !in left }

  /** Each of the first three passes, and what the others do before the next. */
  lemma FirstPass(cfg: Settings, p: Passed, next: World, locked: set<JobId>, spared: set<JobId>, start: Time,
                  batch: nat)
    returns (left: set<Status>)
    requires Tables(cfg, p.before.rows) && DispatchRan(cfg, p, locked, batch) && locked <= spared
    requires Untouched(p.committed, p.resumed, spared) && Untouched(p.after, next, spared)
    requires AllOnTrack(cfg, p.before, spared, start, {})
    ensures AllOnTrack(cfg, next, spared, start, left) && Lasting(left)
    ensures |p.before.rows| <= batch ==> left == {Pending}
  {
    left := Served({}, Pending, p, batch);
    DispatchRecovers(cfg, p, locked, spared, start, batch, {});
    GapOnTrack(cfg, p.after, next, spared, start, left);
  }

  lemma SecondPass(cfg: Settings, p: Passed, next: World, locked: set<JobId>, spared: set<JobId>, start: Time,
                   batch: nat, before: set<Status>)
    returns (left: set<Status>)
    requires PromoteRan(cfg, p, locked, batch) && locked <= spared && start <= p.at
    requires Untouched(p.committed, p.resumed, spared) && Untouched(p.after, next, spared)
    requires AllOnTrack(cfg, p.before, spared, start, before) && Lasting(before)
    ensures AllOnTrack(cfg, next, spared, start, left) && Lasting(left)
    ensures |p.before.rows| <= batch ==> left == before + {Retrying}
  {
    left := Served(before, Retrying, p, batch);
    PromoteRecovers(cfg, p, locked, spared, start, batch, before);
    GapOnTrack(cfg, p.after, next, spared, start, left);
  }

  lemma ThirdPass(cfg: Settings, p: Passed, next: World, locked: set<JobId>, spared: set<JobId>, start: Time,
                  batch: nat, before: set<Status>)
    returns (left: set<Status>)
    requires ReapRan(cfg, p, locked, batch) && locked <= spared && start <= p.at
    requires Untouched(p.committed, p.resumed, spared) && Untouched(p.after, next, spared)
    requires AllOnTrack(cfg, p.before, spared, start, before) && Lasting(before)
    ensures AllOnTrack(cfg, next, spared, start, left) && Lasting(left)
    ensures |p.before.rows| <= batch ==> left == before + {Running}
  {
    left := Served(before, Running, p, batch);
    ReapRecovers(cfg, p, locked, spared, start, batch, before);
    GapOnTrack(cfg, p.after, next, spared, start, left);
  }

  lemma FourthPass(cfg: Settings, p: Passed, times: seq<Time>, to: Time, next: World, locked: set<JobId>,
                   spared: set<JobId>, start: Time, batch: nat, left: set<Status>)
    requires RedeliverRan(cfg, p, times, to, locked, batch) && locked <= spared && start <= p.at
    requires Untouched(p.committed, p.resumed, spared) && Untouched(p.after, next, spared)
    requires AllOnTrack(cfg, p.before, spared, start, left)
    ensures AllOnTrack(cfg, next, spared, start, left)
    ensures |p.before.rows| <= batch && left == {Pending, Retrying, Running} ==> AllSettled(next, spared)
  {
    RedeliverTracks(cfg, p, times, to, locked, spared, start, batch, left);
    GapOnTrack(cfg, p.after, next, spared, start, left);
    if |p.before.rows| <= batch && left == {Pending, Retrying, Running} {
      RedeliverRecovers(cfg, p, times, to, locked, spared, start, batch);
      GapSettled(p.after, next, spared);
    }
  }

  lemma LastPasses(cfg: Settings, p: Passed, q: Passed, tries: seq<Try>, locked: set<JobId>, spared: set<JobId>,
                   start: Time, batch: nat, left: set<Status>)
    requires ExpireRan(cfg, p, locked, batch) && NotifyRan(cfg, q, tries, locked, batch)
    requires Untouched(p.after, q.before, spared) && Lasting(left)
    requires AllOnTrack(cfg, p.before, spared, start, left)
    ensures AllOnTrack(cfg, q.after, spared, start, left)
    ensures AllSettled(p.before, spared) ==> AllSettled(q.after, spared)
  {
    ExpireTracks(cfg, p, locked, spared, start, batch, left);
    GapOnTrack(cfg, p.after, q.before, spared, start, left);
    NotifyTracks(cfg, q, tries, locked, spared, start, batch, left);
    if AllSettled(p.before, spared) {
      GapSettled(p.after, q.before, spared);
    }
  }

  lemma FewerLeft(cfg: Settings, w: World, spared: set<JobId>, start: Time, left: set<Status>)
    requires AllOnTrack(cfg, w, spared, start, left)
    ensures AllOnTrack(cfg, w, spared, start, {})
  {
    forall id ensures RowOnTrack(cfg, w, spared, start, {}, id) {
      assert RowOnTrack(cfg, w, spared, start, left, id);
    }
  }

  lemma FirstThree(cfg: Settings, a: Passed, b: Passed, c: Passed, next: World, locked: set<JobId>,
                   spared: set<JobId>, start: Time, batch: nat)
    returns (left: set<Status>)
    requires Tables(cfg, a.before.rows) && locked <= spared && start <= b.at && start <= c.at
    requires DispatchRan(cfg, a, locked, batch) && PromoteRan(cfg, b, locked, batch) && ReapRan(cfg, c, locked, batch)
    requires Untouched(a.committed, a.resumed, spared) && Untouched(a.after, b.before, spared)
    requires Untouched(b.committed, b.resumed, spared) && Untouched(b.after, c.before, spared)
    requires Untouched(c.committed, c.resumed, spared) && Untouched(c.after, next, spared)
    requires AllOnTrack(cfg, a.before, spared, start, {})
    ensures AllOnTrack(cfg, next, spared, start, left) && Lasting(left)
    ensures |a.before.rows| <= |b.before.rows| <= |c.before.rows| <= batch ==> left == {Pending, Retrying, Running}
  {
    left := FirstPass(cfg, a, b.before, locked, spared, start, batch);
    left := SecondPass(cfg, b, c.before, locked, spared, start, batch, left);
    left := ThirdPass(cfg, c, next, locked, spared, start, batch, left);
  }

  /**
   * A tick leaves every job on track that was, and when the batch reaches the table and every deadline lies
   * before its clock readings, it settles every job that no other transaction has locked and no other process
   * has touched meanwhile, whatever messages were lost and whichever workers crashed before.
   */
  lemma TickRecovers(cfg: Settings, log: TickLog, locked: set<JobId>, spared: set<JobId>, start: Time, batch: nat)
    requires Tables(cfg, log.dispatched.before.rows) && Ticked(cfg, log, locked, batch)
    requires Undisturbed(log, spared) && locked <= spared
    requires start <= log.promoted.at && start <= log.reaped.at && start <= log.redelivered.at
    requires AllOnTrack(cfg, log.dispatched.before, spared, start, {})
    ensures AllOnTrack(cfg, log.notified.after, spared, start, {})
    ensures |log.notified.after.rows| <= batch ==> AllSettled(log.notified.after, spared)
  {
    var a, b, c, d, e := log.dispatched, log.promoted, log.reaped, log.redelivered, log.expired;
    SmallThroughout(cfg, log, locked, batch);
    var left := FirstThree(cfg, a, b, c, d.before, locked, spared, start, batch);
    FourthPass(cfg, d, log.times, log.to, e.before, locked, spared, start, batch, left);
    LastPasses(cfg, e, log.notified, log.tries, locked, spared, start, batch, left);
    FewerLeft(cfg, log.notified.after, spared, start, left);
  }

  lemma SmallThroughout(cfg: Settings, log: TickLog, locked: set<JobId>, batch: nat)
    requires Ticked(cfg, log, locked, batch)
    ensures |log.dispatched.before.rows| <= |log.promoted.before.rows| <= |log.reaped.before.rows|
            <= |log.redelivered.before.rows| <= |log.notified.after.rows|
  {
    DispatchActs(cfg, log.dispatched, locked, batch);
    ActedOn(cfg, log.dispatched.before, log.dispatched.after, log.promoted.before);
    Grows(cfg, log.dispatched.before, log.promoted.before);
    PromoteActs(cfg, log.promoted, locked, batch);
    ActedOn(cfg, log.promoted.before, log.promoted.after, log.reaped.before);
    Grows(cfg, log.promoted.before, log.reaped.before);
    ReapActs(cfg, log.reaped, locked, batch);
    ActedOn(cfg, log.reaped.before, log.reaped.after, log.redelivered.before);
    Grows(cfg, log.reaped.before, log.redelivered.before);
    TickActs(cfg, log, locked, batch);
    Grows(cfg, log.redelivered.before, log.notified.after);
  }
}
