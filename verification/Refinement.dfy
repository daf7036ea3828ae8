// Every pass of the scheduler takes only steps of the protocol, keeps what is sound, and sends only what it
// may; so every theorem about runs of a job holds of the whole system.
module Refinement {
  import opened Domain
  import opened Lifecycle
  import opened Invariants
  import opened Safety
  import opened Budget
  import opened JobRows
  import opened Store
  import opened Evolution
  import opened Services

  // ---------- the commits

  lemma PassEvolves(cfg: Settings, rows: Table, ids: seq<JobId>, now: Time, pass: Pass)
    ensures Evolved(cfg, rows, ApplyAll(rows, ids, PassOf(cfg, now, pass)))
  {
    var rows' := ApplyAll(rows, ids, PassOf(cfg, now, pass));
    forall id ensures RowEvolved(cfg, rows, rows', id) {
      if id in rows {
        ReachesItself(cfg, rows[id]);
        ReachesStep(cfg, rows[id], PassStep(cfg, rows[id], now, pass), now, Scheduled(pass));
      }
    }
  }

  lemma CommitActs(cfg: Settings, w: World, ids: seq<JobId>, now: Time, pass: Pass)
    ensures Acted(cfg, w, w.(rows := ApplyAll(w.rows, ids, PassOf(cfg, now, pass))))
  {
    var w' := w.(rows := ApplyAll(w.rows, ids, PassOf(cfg, now, pass)));
    PassEvolves(cfg, w.rows, ids, now, pass);
    if Tables(cfg, w.rows) {
      PassKeepsTable(cfg, w.rows, ids, now, pass);
    }
    RowsAct(cfg, w, w');
  }

  lemma RestampedKeeps(cfg: Settings, rows: Table, rows': Table, ids: seq<JobId>, readAt: Time, times: seq<Time>)
    requires Tables(cfg, rows) && Restamped(rows, rows', ids, times)
    requires forall id :: id in ids ==> id in rows && StuckQueued(rows[id].job, StuckCutoff(cfg, readAt))
    requires forall i :: 0 <= i < |times| ==> readAt <= times[i]
    ensures Tables(cfg, rows')
  {
    forall id ensures RowSound(cfg, rows', id) && (id in rows ==> rows'[id].job.spec == rows[id].job.spec) {
      assert RowSound(cfg, rows, id);
      if id in ids {
        var i :| 0 <= i < |ids| && ids[i] == id;
        RedeliveredKeeps(cfg, rows[id], readAt, times[i]);
        assert rows'[id] == Redelivered(cfg, rows[id], readAt, times[i]);
      }
    }
  }

  lemma RestampedEvolves(cfg: Settings, rows: Table, rows': Table, ids: seq<JobId>, readAt: Time, times: seq<Time>)
    requires Restamped(rows, rows', ids, times)
    requires forall id :: id in ids ==> id in rows && StuckQueued(rows[id].job, StuckCutoff(cfg, readAt))
    requires forall i :: 0 <= i < |times| ==> readAt <= times[i]
    ensures Evolved(cfg, rows, rows')
  {
    forall id ensures RowEvolved(cfg, rows, rows', id) {
      if id in ids {
        var i :| 0 <= i < |ids| && ids[i] == id;
        ReachesStep(cfg, rows[id], Redelivered(cfg, rows[id], readAt, times[i]), times[i],
                    Scheduled(Redeliver(readAt)));
      } else if id in rows {
        ReachesItself(cfg, rows[id]);
      }
    }
  }

  lemma TriedOnceKeeps(cfg: Settings, s: JobState, now: Time, delivered: bool, retryAt: Time)
    requires Inv(cfg, s) && s.notices != [] && DueNotice(s.notices[0], now)
    ensures Inv(cfg, NoticeTried(cfg, s, delivered, retryAt))
  {
    StepKeeps(cfg, s, now, Deliver(0, delivered, retryAt));
  }

  lemma TriedKeeps(cfg: Settings, rows: Table, rows': Table, ids: seq<JobId>, now: Time, tries: seq<Try>)
    requires Tables(cfg, rows) && NoticesTried(cfg, rows, rows', ids, tries)
    requires forall id :: id in ids ==> id in DueNotices(rows, now, {})
    ensures Tables(cfg, rows')
  {
    forall id ensures RowSound(cfg, rows', id) && (id in rows ==> rows'[id].job.spec == rows[id].job.spec) {
      assert RowSound(cfg, rows, id);
      if id in ids {
        var i :| 0 <= i < |ids| && ids[i] == id;
        TriedOnceKeeps(cfg, rows[id], now, tries[i].delivered, tries[i].retryAt);
      }
    }
  }

  lemma TriedEvolves(cfg: Settings, rows: Table, rows': Table, ids: seq<JobId>, now: Time, tries: seq<Try>)
    requires NoticesTried(cfg, rows, rows', ids, tries)
    requires forall id :: id in ids ==> id in DueNotices(rows, now, {})
    ensures Evolved(cfg, rows, rows')
  {
    forall id ensures RowEvolved(cfg, rows, rows', id) {
      if id in ids {
        var i :| 0 <= i < |ids| && ids[i] == id;
        ReachesStep(cfg, rows[id], NoticeTried(cfg, rows[id], tries[i].delivered, tries[i].retryAt), now,
                    Deliver(0, tries[i].delivered, tries[i].retryAt));
      } else if id in rows {
        ReachesItself(cfg, rows[id]);
      }
    }
  }

  // ---------- the pushes

  lemma {:induction false} ReversedHas(ids: seq<JobId>, id: JobId)
    ensures id in Reversed(ids) <==> id in ids
  {
    if ids != [] {
      var n := |ids| - 1;
      ReversedHas(ids[..n], id);
      assert ids == ids[..n] + [ids[n]];
    }
  }

  /** A job that a pass has committed to send, as the others have left it by the time of the push. */
  lemma StillSendable(cfg: Settings, rows: Table, committed: Table, resumed: Table, id: JobId)
    requires Evolved(cfg, rows, committed) && Evolved(cfg, committed, resumed)
    requires id in rows && id in committed && committed[id].published
    ensures id in resumed && Sent(resumed, id, rows[id].job.spec.priority)
  {
    assert RowEvolved(cfg, rows, committed, id) && RowEvolved(cfg, committed, resumed, id);
    var a :| After(cfg, rows[id], a) == committed[id];
    var b :| After(cfg, committed[id], b) == resumed[id];
    SpecForever(cfg, rows[id], a);
    SpecForever(cfg, committed[id], b);
    PublishedForever(cfg, committed[id], b);
  }

  lemma PushSends(rows: Table, lists: Lists, lists': Lists, ids: seq<JobId>, p: Priority, id: JobId)
    requires (forall x :: x in ids ==> x in rows) && PushedFor(lists, lists', rows, ids) && id in lists'(p)
    ensures id in lists(p) || (id in ids && rows[id].job.spec.priority == p)
  {
    Pushed(lists(p), MessagesFor(rows, ids), p, id);
    if id !in lists(p) {
      var i :| 0 <= i < |ids| && MessagesFor(rows, ids)[i] == Message(id, p);
    }
  }

  /** From the commit through the others' steps to the pushes. */
  lemma PassActs(cfg: Settings, p: Passed, sent: seq<JobId>)
    requires Acted(cfg, p.before, p.committed) && Interrupted(cfg, p)
    requires forall id :: id in sent ==> id in p.before.rows && id in p.committed.rows
    requires Tables(cfg, p.before.rows) ==> forall id :: id in sent ==> p.committed.rows[id].published
    requires PushedFor(p.resumed.lists, p.after.lists, p.before.rows, sent)
    requires forall id :: id in p.after.dead ==> id in p.resumed.dead || Dead(p.resumed.rows, id)
    ensures Acted(cfg, p.before, p.after)
  {
    ActedOn(cfg, p.before, p.committed, p.resumed);
    forall q, id | id in p.after.lists(q) && Tables(cfg, p.before.rows)
      ensures id in p.resumed.lists(q) || Sent(p.resumed.rows, id, q)
    {
      PushSends(p.before.rows, p.resumed.lists, p.after.lists, sent, q, id);
      if id in sent {
        StillSendable(cfg, p.before.rows, p.committed.rows, p.resumed.rows, id);
      }
    }
    if Tables(cfg, p.before.rows) {
      SendingActs(cfg, p.resumed, p.after);
      ActedOn(cfg, p.before, p.resumed, p.after);
    } else {
      EvolvedItself(cfg, p.resumed.rows);
    }
  }

  // ---------- the six passes

  lemma DispatchActs(cfg: Settings, p: Passed, locked: set<JobId>, batch: nat)
    requires DispatchRan(cfg, p, locked, batch)
    ensures Acted(cfg, p.before, p.after)
  {
    CommitActs(cfg, p.before, p.ids, p.at, DispatchRow);
    PassActs(cfg, p, p.ids);
  }

  lemma PromoteActs(cfg: Settings, p: Passed, locked: set<JobId>, batch: nat)
    requires PromoteRan(cfg, p, locked, batch)
    ensures Acted(cfg, p.before, p.after)
  {
    CommitActs(cfg, p.before, p.ids, p.at, PromoteRetry);
    forall id | id in p.ids && Tables(cfg, p.before.rows) ensures p.committed.rows[id].published {
      assert RowSound(cfg, p.before.rows, id);
    }
    PassActs(cfg, p, p.ids);
  }

  lemma ReapActs(cfg: Settings, p: Passed, locked: set<JobId>, batch: nat)
    requires ReapRan(cfg, p, locked, batch)
    ensures Acted(cfg, p.before, p.after)
  {
    CommitActs(cfg, p.before, p.ids, p.at, ReapLease);
    var requeued, failed := Partition(p.before.rows, p.ids, false), Partition(p.before.rows, p.ids, true);
    forall id | id in requeued && Tables(cfg, p.before.rows) ensures p.committed.rows[id].published {
      assert RowSound(cfg, p.before.rows, id);
    }
    forall id | id in p.after.dead ensures id in p.resumed.dead || Dead(p.resumed.rows, id) {
      ReversedHas(failed, id);
      if id in failed {
        FailedStays(cfg, p.committed.rows, p.resumed.rows, id);
      }
    }
    PassActs(cfg, p, requeued);
  }

  lemma RedeliverActs(cfg: Settings, p: Passed, times: seq<Time>, to: Time, locked: set<JobId>, batch: nat)
    requires RedeliverRan(cfg, p, times, to, locked, batch)
    ensures Acted(cfg, p.before, p.after)
  {
    RestampedEvolves(cfg, p.before.rows, p.committed.rows, p.ids, p.at, times);
    if Tables(cfg, p.before.rows) {
      RestampedKeeps(cfg, p.before.rows, p.committed.rows, p.ids, p.at, times);
    }
    RowsAct(cfg, p.before, p.committed);
    forall id | id in p.ids && Tables(cfg, p.before.rows) ensures p.committed.rows[id].published {
      assert RowSound(cfg, p.before.rows, id);
      var i :| 0 <= i < |p.ids| && p.ids[i] == id;
    }
    PassActs(cfg, p, p.ids);
  }

  lemma ExpireActs(cfg: Settings, p: Passed, locked: set<JobId>, batch: nat)
    requires ExpireRan(cfg, p, locked, batch)
    ensures Acted(cfg, p.before, p.after)
  {
    CommitActs(cfg, p.before, p.ids, p.at, ExpireStale);
  }

  lemma NotifyActs(cfg: Settings, p: Passed, tries: seq<Try>, locked: set<JobId>, batch: nat)
    requires NotifyRan(cfg, p, tries, locked, batch)
    ensures Acted(cfg, p.before, p.after)
  {
    TriedEvolves(cfg, p.before.rows, p.after.rows, p.ids, p.at, tries);
    if Tables(cfg, p.before.rows) {
      TriedKeeps(cfg, p.before.rows, p.after.rows, p.ids, p.at, tries);
    }
    RowsAct(cfg, p.before, p.after);
  }

  /** So does a cancel. */
  lemma CancelActs(cfg: Settings, w: World, id: JobId, now: Time)
    requires id in w.rows
    ensures Acted(cfg, w, w.(rows := w.rows[id := CancelAsked(w.rows[id], now)]))
  {
    StepActs(cfg, w, id, now, RequestCancel);
  }

  /**
   * What every state of the whole system satisfies, from the empty database on, whichever services ran,
   * crashed or were interleaved: each job is sound, is within its budget of attempts, has its
   * notification exactly when it is terminal, and has a winning attempt exactly when it is SUCCEEDED.
   */
  lemma SystemSafety(cfg: Settings, rows: Table, id: JobId)
    requires Evolved(cfg, map[], rows) && id in rows
    ensures var s := rows[id];
            && Inv(cfg, s)
            && s.job.attempts <= 2 * s.job.spec.maxAttempts - 1
            && |s.notices| == (if s.job.status.Terminal() then 1 else 0)
            && Replay(s.events) == s.job.status
            && |Winners(s)| == (if s.job.status.Succeeded? then 1 else 0)
  {
    assert RowEvolved(cfg, map[], rows, id);
    var spec: JobSpec :| spec.maxAttempts >= 1 && Reaches(cfg, Submitted(spec), rows[id]);
    var trace :| After(cfg, Submitted(spec), trace) == rows[id];
    SubmittedInv(cfg, spec);
    AlwaysInv(cfg, Submitted(spec), trace);
    SpecForever(cfg, Submitted(spec), trace);
    AttemptBudget(cfg, spec, trace);
    SingleCommit(cfg, Submitted(spec), trace);
  }
}
