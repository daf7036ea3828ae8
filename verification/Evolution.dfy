// How the tables and lists evolve under the steps of all processes, and the processes beside the one at hand.
module Evolution {
  import opened Domain
  import opened Traces
  import opened Lifecycle
  import opened Invariants
  import opened Safety
  import opened Store

  // ---------- the tables

  ghost predicate Reaches(cfg: Settings, s: JobState, s': JobState) { exists trace :: After(cfg, s, trace) == s' }

  ghost predicate Born(cfg: Settings, s: JobState) {
    exists spec: JobSpec :: spec.maxAttempts >= 1 && Reaches(cfg, Submitted(spec), s)
  }

  /** Every job has taken steps of the protocol, and every new one was submitted. */
  ghost predicate Evolved(cfg: Settings, rows: Table, rows': Table) { forall id :: RowEvolved(cfg, rows, rows', id) }

  ghost predicate RowEvolved(cfg: Settings, rows: Table, rows': Table, id: JobId) {
    if id in rows then id in rows' && Reaches(cfg, rows[id], rows'[id]) else id in rows' ==> Born(cfg, rows'[id])
  }

  lemma ReachesItself(cfg: Settings, s: JobState)
    ensures Reaches(cfg, s, s)
  {
    assert After(cfg, s, []) == s;
  }

  lemma ReachesStep(cfg: Settings, s: JobState, s': JobState, now: Time, a: Action)
    requires s' == Step(cfg, s, now, a)
    ensures Reaches(cfg, s, s')
  {
    FoldSnoc(Stepper(cfg), s, [], At(now, a));
    assert [] + [At(now, a)] == [At(now, a)];
    assert After(cfg, s, [At(now, a)]) == s';
  }

  lemma ReachesOn(cfg: Settings, s: JobState, t: JobState, u: JobState)
    requires Reaches(cfg, s, t) && Reaches(cfg, t, u)
    ensures Reaches(cfg, s, u)
  {
    var a :| After(cfg, s, a) == t;
    var b :| After(cfg, t, b) == u;
    FoldConcat(Stepper(cfg), s, a, b);
    assert After(cfg, s, a + b) == u;
  }

  lemma EvolvedItself(cfg: Settings, rows: Table)
    ensures Evolved(cfg, rows, rows)
  {
    forall id ensures RowEvolved(cfg, rows, rows, id) {
      if id in rows {
        ReachesItself(cfg, rows[id]);
      }
    }
  }

  lemma EvolvedOn(cfg: Settings, a: Table, b: Table, c: Table)
    requires Evolved(cfg, a, b) && Evolved(cfg, b, c)
    ensures Evolved(cfg, a, c)
  {
    forall id ensures RowEvolved(cfg, a, c, id) {
      assert RowEvolved(cfg, a, b, id) && RowEvolved(cfg, b, c, id);
      if id in a {
        ReachesOn(cfg, a[id], b[id], c[id]);
      } else if id in b {
        var spec: JobSpec :| spec.maxAttempts >= 1 && Reaches(cfg, Submitted(spec), b[id]);
        ReachesOn(cfg, Submitted(spec), b[id], c[id]);
      }
    }
  }

  /** One row has changed, by a step or by its insertion. */
  lemma EvolvedRow(cfg: Settings, rows: Table, id: JobId, s': JobState)
    requires if id in rows then Reaches(cfg, rows[id], s') else Born(cfg, s')
    ensures Evolved(cfg, rows, rows[id := s'])
  {
    var rows' := rows[id := s'];
    forall k ensures RowEvolved(cfg, rows, rows', k) {
      if k in rows {
        ReachesItself(cfg, rows[k]);
      }
    }
  }

  /** One step of one job. */
  lemma EvolvedStep(cfg: Settings, rows: Table, id: JobId, s': JobState, now: Time, a: Action)
    requires id in rows && s' == Step(cfg, rows[id], now, a)
    ensures Evolved(cfg, rows, rows[id := s'])
  {
    ReachesStep(cfg, rows[id], s', now, a);
    EvolvedRow(cfg, rows, id, s');
  }

  lemma SoundStep(cfg: Settings, rows: Table, id: JobId, s': JobState, now: Time, a: Action)
    requires Tables(cfg, rows) && id in rows && s' == Step(cfg, rows[id], now, a)
    ensures Tables(cfg, rows[id := s'])
  {
    var rows' := rows[id := s'];
    forall k ensures RowSound(cfg, rows', k) {
      assert RowSound(cfg, rows, k);
      if k == id {
        StepKeeps(cfg, rows[id], now, a);
      }
    }
    SpecStep(cfg, rows[id], now, a);
    assert forall k :: k in rows' ==> rows'[k].job.spec == rows[k].job.spec;
  }

  predicate Fresh(rows: Table, id: JobId, spec: JobSpec) {
    id !in rows && spec.maxAttempts >= 1 && forall k :: k in rows ==> !SameKey(rows[k].job.spec, spec)
  }

  lemma InsertEvolves(cfg: Settings, rows: Table, id: JobId, spec: JobSpec)
    requires Fresh(rows, id, spec)
    ensures Evolved(cfg, rows, rows[id := Submitted(spec)])
  {
    ReachesItself(cfg, Submitted(spec));
    EvolvedRow(cfg, rows, id, Submitted(spec));
  }

  lemma Inserted(cfg: Settings, rows: Table, id: JobId, spec: JobSpec)
    requires Tables(cfg, rows) && Fresh(rows, id, spec)
    ensures Tables(cfg, rows[id := Submitted(spec)]) && Evolved(cfg, rows, rows[id := Submitted(spec)])
  {
    var rows' := rows[id := Submitted(spec)];
    forall k ensures RowSound(cfg, rows', k) {
      assert RowSound(cfg, rows, k);
      SubmittedInv(cfg, spec);
    }
    ReachesItself(cfg, Submitted(spec));
    EvolvedRow(cfg, rows, id, Submitted(spec));
  }

  // ---------- the messages

  /** Every queued id names a committed job whose dispatch row was published, in the list of its priority. */
  ghost predicate QueueSound(rows: Table, lists: Lists) {
    forall p, id :: id in lists(p) ==> Sent(rows, id, p)
  }

  predicate Sent(rows: Table, id: JobId, p: Priority) {
    id in rows && rows[id].published && rows[id].job.spec.priority == p
  }

  /** So no message ever names a job that is still PENDING. */
  lemma QueuedIsCommitted(cfg: Settings, rows: Table, lists: Lists, p: Priority, id: JobId)
    requires Tables(cfg, rows) && QueueSound(rows, lists) && id in lists(p)
    ensures id in rows && !rows[id].job.status.Pending? && rows[id].job.spec.priority == p
  {
    assert Sent(rows, id, p);
    assert RowSound(cfg, rows, id);
  }

  lemma PublishedStep(cfg: Settings, s: JobState, now: Time, a: Action)
    requires s.published
    ensures Step(cfg, s, now, a).published
  {
  }

  lemma PublishedForever(cfg: Settings, s: JobState, trace: seq<Stamped>)
    requires s.published
    ensures After(cfg, s, trace).published
  {
    var f, inv := Stepper(cfg), (t: JobState) => t.published;
    forall t: JobState, e: Stamped | inv(t) ensures inv(f(t, e)) { PublishedStep(cfg, t, e.now, e.action); }
    FoldInvariant(f, s, trace, inv);
  }

  /** Whatever the processes do to the tables, the messages already sent stay sound. */
  lemma EvolvedKeepsQueue(cfg: Settings, rows: Table, rows': Table, lists: Lists, lists': Lists)
    requires QueueSound(rows, lists) && Evolved(cfg, rows, rows')
    requires forall p, id :: id in lists'(p) ==> id in lists(p)
    ensures QueueSound(rows', lists')
  {
    forall p, id | id in lists'(p) ensures Sent(rows', id, p) {
      assert Sent(rows, id, p) && RowEvolved(cfg, rows, rows', id);
      var trace :| After(cfg, rows[id], trace) == rows'[id];
      SpecForever(cfg, rows[id], trace);
      PublishedForever(cfg, rows[id], trace);
    }
  }

  // ---------- the dead-letter list

  /** Every dead letter names a job that failed for good and is marked so. */
  ghost predicate DeadSound(rows: Table, dead: seq<JobId>) { forall id :: id in dead ==> Dead(rows, id) }

  predicate Dead(rows: Table, id: JobId) {
    id in rows && rows[id].job.status.Failed? && rows[id].job.deadLetteredAt.Some?
  }

  lemma EvolvedKeepsDead(cfg: Settings, rows: Table, rows': Table, dead: seq<JobId>)
    requires DeadSound(rows, dead) && Evolved(cfg, rows, rows')
    ensures DeadSound(rows', dead)
  {
    forall id | id in dead ensures Dead(rows', id) {
      assert Dead(rows, id) && RowEvolved(cfg, rows, rows', id);
      var trace :| After(cfg, rows[id], trace) == rows'[id];
      TerminalForever(cfg, rows[id], trace);
    }
  }

  lemma FailedStays(cfg: Settings, rows: Table, rows': Table, id: JobId)
    requires Evolved(cfg, rows, rows') && Dead(rows, id)
    ensures Dead(rows', id)
  {
    EvolvedKeepsDead(cfg, rows, rows', [id]);
    assert id in [id];
  }

  // ---------- all processes acting on tables and lists

  /** What any processes can have done: only steps of the protocol, keeping what is sound. */
  ghost predicate Acted(cfg: Settings, w: World, w': World) {
    && Evolved(cfg, w.rows, w'.rows)
    && (Tables(cfg, w.rows) ==>
          && Tables(cfg, w'.rows)
          && (QueueSound(w.rows, w.lists) ==> QueueSound(w'.rows, w'.lists))
          && (DeadSound(w.rows, w.dead) ==> DeadSound(w'.rows, w'.dead)))
  }

  lemma ActedOn(cfg: Settings, a: World, b: World, c: World)
    requires Acted(cfg, a, b) && Acted(cfg, b, c)
    ensures Acted(cfg, a, c)
  {
    EvolvedOn(cfg, a.rows, b.rows, c.rows);
  }

  /** The rows evolve, messages may be lost. */
  lemma RowsAct(cfg: Settings, w: World, w': World)
    requires Evolved(cfg, w.rows, w'.rows) && (Tables(cfg, w.rows) ==> Tables(cfg, w'.rows))
    requires w'.dead == w.dead && forall p, id :: id in w'.lists(p) ==> id in w.lists(p)
    ensures Acted(cfg, w, w')
  {
    if QueueSound(w.rows, w.lists) {
      EvolvedKeepsQueue(cfg, w.rows, w'.rows, w.lists, w'.lists);
    }
    if DeadSound(w.rows, w.dead) {
      EvolvedKeepsDead(cfg, w.rows, w'.rows, w.dead);
    }
  }

  /** Messages and dead letters are added for jobs they may name. */
  lemma SendingActs(cfg: Settings, w: World, w': World)
    requires w'.rows == w.rows
    requires forall p, id :: id in w'.lists(p) ==> id in w.lists(p) || (Tables(cfg, w.rows) ==> Sent(w.rows, id, p))
    requires forall id :: id in w'.dead ==> id in w.dead || Dead(w.rows, id)
    ensures Acted(cfg, w, w')
  {
    EvolvedItself(cfg, w.rows);
  }

  lemma StepActs(cfg: Settings, w: World, id: JobId, now: Time, a: Action)
    requires id in w.rows
    ensures Acted(cfg, w, w.(rows := w.rows[id := Step(cfg, w.rows[id], now, a)]))
  {
    var s' := Step(cfg, w.rows[id], now, a);
    EvolvedStep(cfg, w.rows, id, s', now, a);
    if Tables(cfg, w.rows) {
      SoundStep(cfg, w.rows, id, s', now, a);
    }
    RowsAct(cfg, w, w.(rows := w.rows[id := s']));
  }

  lemma InsertActs(cfg: Settings, w: World, id: JobId, spec: JobSpec)
    requires Fresh(w.rows, id, spec)
    ensures Acted(cfg, w, w.(rows := w.rows[id := Submitted(spec)]))
  {
    InsertEvolves(cfg, w.rows, id, spec);
    if Tables(cfg, w.rows) {
      Inserted(cfg, w.rows, id, spec);
    }
    RowsAct(cfg, w, w.(rows := w.rows[id := Submitted(spec)]));
  }

  /** All the processes beside the one that calls it. */
  class Others {
    const db: Database
    const queue: JobQueue
    const clock: Clock

    constructor (db: Database, queue: JobQueue, clock: Clock)
      ensures this.db == db && this.queue == queue && this.clock == clock
    {
      this.db, this.queue, this.clock := db, queue, clock;
    }

    /** A step of any job, a submission, a consumed message, a message or a dead letter. */
    method ActOnce()
      modifies db, queue, clock
      ensures Acted(db.cfg, old(State(db, queue)), State(db, queue))
      ensures old(clock.time) <= clock.time
    {
      ghost var w := State(db, queue);
      var at := clock.Now();
      var kind: int := *;
      var id: JobId := *;
      var a: Action := *;
      var spec: JobSpec := *;
      var p: Priority := *;
      if kind == 0 && id in db.rows {
        StepActs(db.cfg, w, id, at, a);
        db.rows := db.rows[id := Step(db.cfg, db.rows[id], at, a)];
      } else if kind == 1 && Fresh(db.rows, id, spec) {
        InsertActs(db.cfg, w, id, spec);
        db.rows := db.rows[id := Submitted(spec)];
      } else {
        EvolvedItself(db.cfg, db.rows);
        if kind == 2 && Sent(db.rows, id, p) {
          queue.Publish(id, p);
        } else if kind == 3 && Dead(db.rows, id) {
          queue.DeadLetter(id);
        } else {
          var _ := queue.Consume();
        }
        SendingActs(db.cfg, w, State(db, queue));
      }
    }

    method Act()
      modifies db, queue, clock
      ensures Acted(db.cfg, old(State(db, queue)), State(db, queue))
      ensures old(clock.time) <= clock.time
    {
      ghost var w := State(db, queue);
      EvolvedItself(db.cfg, db.rows);
      var steps: nat := *;
      var i := 0;
      while i < steps
        invariant Acted(db.cfg, w, State(db, queue))
        invariant old(clock.time) <= clock.time
      {
        ghost var before := State(db, queue);
        ActOnce();
        ActedOn(db.cfg, w, before, State(db, queue));
        i := i + 1;
      }
    }
  }
}
