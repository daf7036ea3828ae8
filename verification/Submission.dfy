// Submission of jobs (backend/app/services/job_submission_service.py): idempotency keys and the cap on
// a user's unfinished jobs, with other processes acting between any two transactions.
module Submission {
  import opened Domain
  import opened Traces
  import opened Lifecycle
  import opened Safety
  import opened Selection
  import opened Store
  import opened Evolution

  /** A request; `payload` is what normalization makes of it, if it accepts it. */
  datatype Request = Request(
    userId: UserId, payload: Option<Payload>, payloadBytes: int, priority: Priority, maxAttempts: Option<int>,
    key: Option<string>)

  datatype Reply =
    | Accepted(job: JobId, created: bool)
    | PayloadTooLarge
    | InvalidPayload
    | TooManyActive
    | IntegrityError

  predicate HasKey(spec: JobSpec, userId: UserId, key: string) {
    spec.userId == userId && spec.idempotencyKey == Some(key)
  }

  predicate KeyTaken(rows: Table, userId: UserId, key: string) {
    exists id :: id in rows && HasKey(rows[id].job.spec, userId, key)
  }

  function AttemptsLimit(cfg: Settings, r: Request): int {
    if r.maxAttempts.Some? then r.maxAttempts.value else cfg.defaultMaxAttempts
  }

  predicate Answers(spec: JobSpec, r: Request) { spec.userId == r.userId && spec.idempotencyKey == r.key }

  /** The rows that `count_active_for_user` counts. */
  function Active(rows: Table, userId: UserId): set<JobId> {
    set id | id in rows && rows[id].job.spec.userId == userId && !rows[id].job.status.Terminal()
  }

  /** They are the user's jobs that have not finished. */
  lemma ActiveIs(rows: Table, userId: UserId, id: JobId)
    ensures id in Active(rows, userId) <==>
            id in rows && rows[id].job.spec.userId == userId
            && (var status := rows[id].job.status;
                status.Pending? || status.Queued? || status.Running? || status.Retrying? || status.Cancelling?)
  {
  }

  /** Every job of the user in the table has finished. */
  ghost predicate AllFinished(rows: Table, userId: UserId) {
    forall id :: id in rows && rows[id].job.spec.userId == userId ==>
      var status := rows[id].job.status;
      status.Succeeded? || status.Failed? || status.Cancelled? || status.Expired?
  }

  lemma NoneActive(rows: Table, userId: UserId)
    ensures AllFinished(rows, userId) <==> |Active(rows, userId)| == 0
  {
    if id :| id in Active(rows, userId) {
      ActiveIs(rows, userId, id);
    } else {
      assert Active(rows, userId) == {};
      forall id | id in rows && rows[id].job.spec.userId == userId ensures id !in Active(rows, userId) { }
    }
  }

  // ---------- rows are never deleted and their keys never change

  lemma RowStays(cfg: Settings, rows: Table, rows': Table, id: JobId)
    requires Evolved(cfg, rows, rows') && id in rows
    ensures id in rows' && rows'[id].job.spec == rows[id].job.spec
  {
    assert RowEvolved(cfg, rows, rows', id);
    var trace :| After(cfg, rows[id], trace) == rows'[id];
    SpecForever(cfg, rows[id], trace);
  }

  lemma KeyStays(cfg: Settings, rows: Table, rows': Table, userId: UserId, key: string)
    requires Evolved(cfg, rows, rows') && KeyTaken(rows, userId, key)
    ensures KeyTaken(rows', userId, key)
  {
    var id :| id in rows && HasKey(rows[id].job.spec, userId, key);
    RowStays(cfg, rows, rows', id);
  }

  /**
   * Two submits with one user and key that are both accepted name the same job, whenever each of them
   * returned and whatever ran between: `rows` is the table when the first returned, `rows'` when the
   * second did.
   */
  lemma SameKeySameJob(cfg: Settings, rows: Table, rows': Table, a: JobId, b: JobId, r: Request, r': Request)
    requires Tables(cfg, rows') && Evolved(cfg, rows, rows')
    requires a in rows && Answers(rows[a].job.spec, r) && b in rows' && Answers(rows'[b].job.spec, r')
    requires r.userId == r'.userId && r.key == r'.key && r.key.Some?
    ensures a == b
  {
    RowStays(cfg, rows, rows', a);
    assert SameKey(rows'[a].job.spec, rows'[b].job.spec);
  }

  lemma {:induction false} Above(keys: set<JobId>) returns (bound: nat)
    ensures forall k :: k in keys ==> k < bound
  {
    bound := 0;
    if keys != {} {
      var top :| top in keys;
      var rest := Above(keys - {top});
      bound := if top < rest then rest else top + 1;
      forall k | k in keys ensures k < bound {
        assert k == top || k in keys - {top};
      }
    }
  }

  // ---------- the cap on unfinished jobs

  /** What the other submissions of the user and all other processes can do. */
  datatype QuotaEvent =
    | Counted(submission: nat)
    | InsertedAfter(submission: nat, id: JobId, spec: JobSpec)
    | GivenUp(submission: nat)
    | Stepped(id: JobId, at: Stamped)
    | Unrelated(id: JobId, spec: JobSpec)

  /** The jobs, and the user's submissions that have counted and not yet inserted. */
  datatype Quota = Quota(rows: Table, between: set<nat>)

  /** An event of that submission. */
  predicate OfSubmission(e: QuotaEvent, n: nat) {
    match e
    case Counted(m) => m == n
    case InsertedAfter(m, _, _) => m == n
    case GivenUp(m) => m == n
    case _ => false
  }

  function QuotaStep(cfg: Settings, userId: UserId, q: Quota, e: QuotaEvent): Quota {
    match e
    case Counted(n) =>
      if |Active(q.rows, userId)| < cfg.maxInFlightPerUser then q.(between := q.between + {n}) else q
    case InsertedAfter(n, id, spec) =>
      if n in q.between && Fresh(q.rows, id, spec) && spec.userId == userId
      then Quota(q.rows[id := Submitted(spec)], q.between - {n}) else q
    case GivenUp(n) => q.(between := q.between - {n})
    case Stepped(id, at) =>
      if id in q.rows then q.(rows := q.rows[id := Step(cfg, q.rows[id], at.now, at.action)]) else q
    case Unrelated(id, spec) =>
      if Fresh(q.rows, id, spec) && spec.userId != userId then q.(rows := q.rows[id := Submitted(spec)]) else q
  }

  function QuotaStepper(cfg: Settings, userId: UserId): (Quota, QuotaEvent) -> Quota {
    (q: Quota, e: QuotaEvent) => QuotaStep(cfg, userId, q, e)
  }

  function QuotaAfter(cfg: Settings, userId: UserId, events: seq<QuotaEvent>): Quota {
    Fold(QuotaStepper(cfg, userId), Quota(map[], {}), events)
  }

  /** Never more than `k` submissions of the user between their count and their insert. */
  predicate AtMost(cfg: Settings, userId: UserId, events: seq<QuotaEvent>, k: nat) {
    forall i :: 0 <= i <= |events| ==> |QuotaAfter(cfg, userId, events[..i]).between| <= k
  }

  /** The most unfinished jobs a user can have. */
  function Cap(cfg: Settings, k: nat): nat {
    if cfg.maxInFlightPerUser <= 0 || k == 0 then 0 else cfg.maxInFlightPerUser + k - 1
  }

  /** Room for every submission that has counted. */
  predicate WithinCap(cfg: Settings, userId: UserId, q: Quota, k: nat) {
    |Active(q.rows, userId)| + |q.between| <= Cap(cfg, k)
  }

  /** A step frees exactly one place if it finishes a job of the user, and otherwise none; it never takes one. */
  lemma StepsFreeRoom(cfg: Settings, userId: UserId, rows: Table, id: JobId, at: Stamped)
    requires id in rows
    ensures var s, s' := rows[id], Step(cfg, rows[id], at.now, at.action);
            |Active(rows[id := s'], userId)| == |Active(rows, userId)|
            - if s.job.spec.userId == userId && !s.job.status.Terminal() && s'.job.status.Terminal() then 1 else 0
  {
    var s' := Step(cfg, rows[id], at.now, at.action);
    SpecStep(cfg, rows[id], at.now, at.action);
    if rows[id].job.status.Terminal() {
      TerminalStep(cfg, rows[id], at.now, at.action);
    }
    var before, after := Active(rows, userId), Active(rows[id := s'], userId);
    assert after - {id} == before - {id};
    if id in before && id !in after {
      assert after == before - {id};
    } else {
      assert after == before;
    }
  }

  lemma InsertTakesRoom(rows: Table, userId: UserId, id: JobId, spec: JobSpec)
    requires id !in rows
    ensures |Active(rows[id := Submitted(spec)], userId)|
            == |Active(rows, userId)| + if spec.userId == userId then 1 else 0
  {
    var rows' := rows[id := Submitted(spec)];
    assert Active(rows', userId) == Active(rows, userId) + if spec.userId == userId then {id} else {};
  }

  lemma CapGrows(cfg: Settings, k: nat, k': nat)
    requires k <= k'
    ensures Cap(cfg, k) <= Cap(cfg, k')
  {
  }

  lemma QuotaEvolves(cfg: Settings, userId: UserId, q: Quota, e: QuotaEvent)
    requires Tables(cfg, q.rows)
    ensures Tables(cfg, QuotaStep(cfg, userId, q, e).rows) && Evolved(cfg, q.rows, QuotaStep(cfg, userId, q, e).rows)
  {
    EvolvedItself(cfg, q.rows);
    match e
    case InsertedAfter(_, id, spec) => if Fresh(q.rows, id, spec) { Inserted(cfg, q.rows, id, spec); }
    case Unrelated(id, spec) => if Fresh(q.rows, id, spec) { Inserted(cfg, q.rows, id, spec); }
    case Stepped(id, at) =>
      if id in q.rows {
        var s' := Step(cfg, q.rows[id], at.now, at.action);
        SoundStep(cfg, q.rows, id, s', at.now, at.action);
        EvolvedStep(cfg, q.rows, id, s', at.now, at.action);
      }
    case _ =>
  }

  lemma QuotaKeeps(cfg: Settings, userId: UserId, q: Quota, e: QuotaEvent, k: nat)
    requires WithinCap(cfg, userId, q, k) && |QuotaStep(cfg, userId, q, e).between| <= k
    ensures WithinCap(cfg, userId, QuotaStep(cfg, userId, q, e), k)
  {
    match e
    case InsertedAfter(_, id, spec) => if id !in q.rows { InsertTakesRoom(q.rows, userId, id, spec); }
    case Stepped(id, at) => if id in q.rows { StepsFreeRoom(cfg, userId, q.rows, id, at); }
    case Unrelated(id, spec) => if id !in q.rows { InsertTakesRoom(q.rows, userId, id, spec); }
    case _ =>
  }

  /**
   * With at most k submissions between count and insert a user never has more than
   * max_in_flight + k - 1 unfinished jobs; with k = 1 the cap is exact.
   */
  lemma {:induction false} QuotaBound(cfg: Settings, userId: UserId, events: seq<QuotaEvent>, k: nat)
    requires AtMost(cfg, userId, events, k)
    ensures WithinCap(cfg, userId, QuotaAfter(cfg, userId, events), k)
    ensures var active := |Active(QuotaAfter(cfg, userId, events).rows, userId)|;
            && (cfg.maxInFlightPerUser >= 1 && k >= 1 ==> active <= cfg.maxInFlightPerUser + k - 1)
            && (cfg.maxInFlightPerUser <= 0 || k == 0 ==> active == 0)
  {
    if events == [] {
      assert Active(map[], userId) == {};
    } else {
      var n := |events| - 1;
      assert forall i :: 0 <= i <= n ==> events[..n][..i] == events[..i];
      QuotaBound(cfg, userId, events[..n], k);
      assert events[..n + 1] == events;
      QuotaKeeps(cfg, userId, QuotaAfter(cfg, userId, events[..n]), events[n], k);
    }
  }

  // ---------- the service

  class JobSubmissionService {
    const db: Database
    const clock: Clock
    /** The submissions of the calling user, of all processes, that have counted and not yet inserted. */
    var between: set<nat>
    /** The most of them there have been at once. */
    ghost var peak: nat

    constructor (db: Database, clock: Clock)
      ensures this.db == db && this.clock == clock && between == {} && peak == 0
    {
      this.db, this.clock := db, clock;
      between, peak := {}, 0;
    }

    /** The user's unfinished jobs are within the cap that goes with the peak. */
    ghost predicate Room(userId: UserId)
      reads this, db
    {
      |between| <= peak && WithinCap(db.cfg, userId, Quota(db.rows, between), peak)
    }

    /** An event of the user's quota, and what it does to the room. */
    ghost method Note(userId: UserId, rows: Table, before: set<nat>, e: QuotaEvent)
      requires Quota(db.rows, between) == QuotaStep(db.cfg, userId, Quota(rows, before), e)
      modifies this`peak
      ensures peak >= old(peak)
      ensures |before| <= old(peak) && WithinCap(db.cfg, userId, Quota(rows, before), old(peak)) ==> Room(userId)
    {
      ghost var was := peak;
      if peak < |between| {
        peak := |between|;
      }
      if |before| <= was && WithinCap(db.cfg, userId, Quota(rows, before), was) {
        CapGrows(db.cfg, was, peak);
        QuotaKeeps(db.cfg, userId, Quota(rows, before), e, peak);
      }
    }

    /** One event of another process: anything but an event of submission `me`. */
    method ForeignStep(userId: UserId, me: nat)
      requires db.Valid()
      modifies this, db, clock
      ensures db.Valid() && Evolved(db.cfg, old(db.rows), db.rows) && old(clock.time) <= clock.time
      ensures (me in between <==> me in old(between)) && (old(Room(userId)) ==> Room(userId))
    {
      var at := clock.Now();
      var e: QuotaEvent := *;
      EvolvedItself(db.cfg, db.rows);
      if !OfSubmission(e, me) {
        e := match e case Stepped(id, x) => Stepped(id, At(at, x.action)) case _ => e;
        ghost var rows, before := db.rows, between;
        QuotaEvolves(db.cfg, userId, Quota(rows, before), e);
        var q := QuotaStep(db.cfg, userId, Quota(db.rows, between), e);
        db.rows, between := q.rows, q.between;
        Note(userId, rows, before, e);
      }
    }

    /** Between two statements every other process takes any steps and submits any jobs. */
    method Interfere(userId: UserId, me: nat)
      requires db.Valid()
      modifies this, db, clock
      ensures db.Valid() && Evolved(db.cfg, old(db.rows), db.rows) && old(clock.time) <= clock.time
      ensures (me in between <==> me in old(between)) && (old(Room(userId)) ==> Room(userId))
    {
      ghost var start, mine, room := db.rows, me in between, Room(userId);
      EvolvedItself(db.cfg, start);
      var steps: nat := *;
      var i := 0;
      while i < steps
        invariant db.Valid() && Evolved(db.cfg, start, db.rows) && old(clock.time) <= clock.time
        invariant (me in between <==> mine) && (room ==> Room(userId))
      {
        ghost var before := db.rows;
        ForeignStep(userId, me);
        EvolvedOn(db.cfg, start, before, db.rows);
        i := i + 1;
      }
    }

    method FindExisting(userId: UserId, key: string) returns (found: Option<JobId>)
      ensures found.None? <==> !KeyTaken(db.rows, userId, key)
      ensures found.Some? ==> found.value in db.rows && HasKey(db.rows[found.value].job.spec, userId, key)
    {
      if id :| id in db.rows && HasKey(db.rows[id].job.spec, userId, key) {
        return Some(id);
      }
      return None;
    }

    /** The insert: both constraints of the table are checked, and the row gets a new id. */
    method Insert(spec: JobSpec) returns (id: Option<JobId>)
      requires db.Valid()
      modifies db
      ensures db.Valid() && Evolved(db.cfg, old(db.rows), db.rows)
      ensures id.None? ==> db.rows == old(db.rows)
      ensures id.None? <==> spec.maxAttempts < 1
                            || (spec.idempotencyKey.Some?
                                && KeyTaken(old(db.rows), spec.userId, spec.idempotencyKey.value))
      ensures id.Some? ==> id.value !in old(db.rows) && db.rows == old(db.rows)[id.value := Submitted(spec)]
    {
      EvolvedItself(db.cfg, db.rows);
      if spec.maxAttempts < 1 || exists k :: k in db.rows && SameKey(db.rows[k].job.spec, spec) {
        assert spec.maxAttempts >= 1 ==> KeyTaken(db.rows, spec.userId, spec.idempotencyKey.value);
        return None;
      }
      ghost var bound := Above(db.rows.Keys);
      assert bound !in db.rows;
      var newId: JobId :| newId !in db.rows;
      Inserted(db.cfg, db.rows, newId, spec);
      db.rows := db.rows[newId := Submitted(spec)];
      return Some(newId);
    }

    /** The count: the submission goes on only below the cap. */
    method CountActive(userId: UserId, me: nat) returns (tooMany: bool)
      requires me !in between
      modifies this
      ensures tooMany <==> |Active(db.rows, userId)| >= db.cfg.maxInFlightPerUser
      ensures me in between <==> !tooMany
      ensures old(Room(userId)) ==> Room(userId)
    {
      var active := |Active(db.rows, userId)|;
      tooMany := active >= db.cfg.maxInFlightPerUser;
      ghost var before := between;
      if !tooMany {
        between := between + {me};
      }
      Note(userId, db.rows, before, Counted(me));
    }

    /** The insert of a submission that has counted. */
    method InsertCounted(spec: JobSpec, me: nat) returns (id: Option<JobId>)
      requires db.Valid() && me in between
      modifies this, db
      ensures db.Valid() && Evolved(db.cfg, old(db.rows), db.rows) && me !in between
      ensures id.None? ==> db.rows == old(db.rows)
      ensures id.None? <==> spec.maxAttempts < 1
                            || (spec.idempotencyKey.Some?
                                && KeyTaken(old(db.rows), spec.userId, spec.idempotencyKey.value))
      ensures id.Some? ==> id.value !in old(db.rows) && db.rows == old(db.rows)[id.value := Submitted(spec)]
      ensures old(Room(spec.userId)) ==> Room(spec.userId)
    {
      ghost var rows, before := db.rows, between;
      id := Insert(spec);
      between := between - {me};
      if id.Some? {
        assert Fresh(rows, id.value, spec);
        Note(spec.userId, rows, before, InsertedAfter(me, id.value, spec));
      } else {
        Note(spec.userId, rows, before, GivenUp(me));
      }
    }

    /** `_create`: the count and the insert are two statements. */
    method Create(r: Request, payload: Payload) returns (reply: Reply, ghost counted: Table, ghost inserted: Table)
      requires db.Valid()
      modifies this, db, clock
      ensures db.Valid() && Evolved(db.cfg, old(db.rows), counted) && Evolved(db.cfg, counted, inserted)
      ensures Evolved(db.cfg, inserted, db.rows)
      ensures reply.TooManyActive? <==> |Active(counted, r.userId)| >= db.cfg.maxInFlightPerUser
      ensures reply.TooManyActive? || reply.IntegrityError? || (reply.Accepted? && reply.created)
      ensures reply.IntegrityError? ==>
                AttemptsLimit(db.cfg, r) < 1 || (r.key.Some? && KeyTaken(inserted, r.userId, r.key.value))
      ensures reply.Accepted? ==> reply.job !in inserted && reply.job in db.rows && AttemptsLimit(db.cfg, r) >= 1
      ensures reply.Accepted? ==>
                exists at :: db.rows[reply.job] ==
                  Submitted(JobSpec(r.userId, r.priority, payload, r.key, AttemptsLimit(db.cfg, r), at))
      ensures old(Room(r.userId)) ==> Room(r.userId)
    {
      var now := clock.Now();
      ghost var bound := Above(between);
      assert bound !in between;
      var me: nat :| me !in between;
      Interfere(r.userId, me);
      counted := db.rows;
      var tooMany := CountActive(r.userId, me);
      if tooMany {
        inserted := counted;
        EvolvedItself(db.cfg, counted);
        return TooManyActive, counted, inserted;
      }
      Interfere(r.userId, me);
      inserted := db.rows;
      var id := InsertCounted(JobSpec(r.userId, r.priority, payload, r.key, AttemptsLimit(db.cfg, r), now), me);
      reply := if id.Some? then Accepted(id.value, true) else IntegrityError;
    }

    /**
     * `submit`. A key that is taken when the call starts is answered with its job and nothing is inserted;
     * a conflict with a concurrent submit is too; so the integrity error escapes only for a request whose
     * attempt limit violates the table's check constraint. `counted` is the table whose unfinished jobs
     * were counted, if the call came so far: the cap decides between rejection and a job. The user's unfinished
     * jobs stay within the cap with the slack of the submissions that were between count and insert at once.
     */
    method Submit(r: Request) returns (reply: Reply, ghost counted: Option<Table>)
      requires db.Valid()
      modifies this, db, clock
      ensures old(Room(r.userId)) ==> Room(r.userId)
      ensures db.Valid() && Evolved(db.cfg, old(db.rows), db.rows)
      ensures reply.PayloadTooLarge? <==> r.payloadBytes > db.cfg.maxPayloadBytes
      ensures reply.InvalidPayload? <==> r.payloadBytes <= db.cfg.maxPayloadBytes && r.payload.None?
      ensures reply.PayloadTooLarge? || reply.InvalidPayload? ==> db.rows == old(db.rows)
      ensures reply.Accepted? ==> reply.job in db.rows && Answers(db.rows[reply.job].job.spec, r)
      ensures reply.Accepted? && reply.created ==>
                reply.job !in old(db.rows) && r.payload.Some?
                && db.rows[reply.job] == Submitted(db.rows[reply.job].job.spec)
                && var spec := db.rows[reply.job].job.spec;
                   && spec.userId == r.userId && spec.payload == r.payload.value && spec.priority == r.priority
                   && spec.idempotencyKey == r.key
                   && spec.maxAttempts == if r.maxAttempts.Some? then r.maxAttempts.value else db.cfg.defaultMaxAttempts
      ensures reply.Accepted? && !reply.created ==> r.key.Some?
      ensures r.payloadBytes <= db.cfg.maxPayloadBytes && r.payload.Some? && r.key.Some?
              && KeyTaken(old(db.rows), r.userId, r.key.value) ==>
                reply.Accepted? && !reply.created
      ensures reply.IntegrityError? ==> AttemptsLimit(db.cfg, r) < 1
      ensures counted.None? ==> reply.PayloadTooLarge? || reply.InvalidPayload? || (reply.Accepted? && !reply.created)
      ensures counted.Some? ==>
                && Evolved(db.cfg, old(db.rows), counted.value) && Evolved(db.cfg, counted.value, db.rows)
                && (reply.TooManyActive? <==> |Active(counted.value, r.userId)| >= db.cfg.maxInFlightPerUser)
                && (!reply.TooManyActive? && AttemptsLimit(db.cfg, r) >= 1 ==> reply.Accepted?)
                && (AllFinished(counted.value, r.userId) && db.cfg.maxInFlightPerUser >= 1 ==> !reply.TooManyActive?)
    {
      counted := None;
      ghost var start := db.rows;
      EvolvedItself(db.cfg, start);
      if r.payloadBytes > db.cfg.maxPayloadBytes {
        return PayloadTooLarge, None;
      }
      if r.payload.None? {
        return InvalidPayload, None;
      }
      if r.key.Some? {
        Interfere(r.userId, 0);
        var existing := FindExisting(r.userId, r.key.value);
        if existing.Some? {
          return Accepted(existing.value, false), None;
        }
        if KeyTaken(start, r.userId, r.key.value) {
          KeyStays(db.cfg, start, db.rows, r.userId, r.key.value);
        }
      }
      ghost var found := db.rows;
      ghost var seen, inserted;
      reply, seen, inserted := Create(r, r.payload.value);
      counted := Some(seen);
      NoneActive(seen, r.userId);
      ghost var created := db.rows;
      EvolvedOn(db.cfg, start, found, seen);
      EvolvedOn(db.cfg, start, seen, inserted);
      EvolvedOn(db.cfg, start, inserted, created);
      EvolvedOn(db.cfg, seen, inserted, created);
      if reply.Accepted? && reply.job in start {
        RowStays(db.cfg, start, inserted, reply.job);
      }
      if reply.IntegrityError? && r.key.Some? {
        if KeyTaken(inserted, r.userId, r.key.value) {
          KeyStays(db.cfg, inserted, created, r.userId, r.key.value);
        }
        Interfere(r.userId, 0);
        EvolvedOn(db.cfg, start, created, db.rows);
        EvolvedOn(db.cfg, seen, created, db.rows);
        if KeyTaken(created, r.userId, r.key.value) {
          KeyStays(db.cfg, created, db.rows, r.userId, r.key.value);
        }
        var existing := FindExisting(r.userId, r.key.value);
        if existing.Some? {
          return Accepted(existing.value, false), counted;
        }
      }
    }
  }

  // ---------- the bound is attained

  lemma Extended(cfg: Settings, userId: UserId, events: seq<QuotaEvent>, e: QuotaEvent, k: nat)
    requires AtMost(cfg, userId, events, k)
    requires |QuotaStep(cfg, userId, QuotaAfter(cfg, userId, events), e).between| <= k
    ensures AtMost(cfg, userId, events + [e], k)
    ensures QuotaAfter(cfg, userId, events + [e]) == QuotaStep(cfg, userId, QuotaAfter(cfg, userId, events), e)
  {
    var more := events + [e];
    FoldSnoc(QuotaStepper(cfg, userId), Quota(map[], {}), events, e);
    forall i | 0 <= i <= |more| ensures |QuotaAfter(cfg, userId, more[..i]).between| <= k {
      if i <= |events| {
        assert more[..i] == events[..i];
      } else {
        assert more[..i] == more;
      }
    }
  }

  /** The submissions `first` up to, not including, `end`. */
  function Window(first: nat, end: nat): set<nat> { if first < end then Window(first, end - 1) + {end - 1} else {} }

  lemma {:induction false} WindowHas(first: nat, end: nat)
    requires first <= end
    ensures |Window(first, end)| == end - first && forall i :: i in Window(first, end) <==> first <= i < end
    decreases end
  {
    if first < end {
      WindowHas(first, end - 1);
    }
  }

  lemma WindowShrinks(j: nat, k: nat)
    requires 1 <= j <= k
    ensures j - 1 in Window(j - 1, k) && Window(j - 1, k) - {j - 1} == Window(j, k)
  {
    WindowHas(j - 1, k);
    WindowHas(j, k);
  }

  function Plain(userId: UserId): JobSpec { JobSpec(userId, Normal, AlwaysFail, None, 1, 0.0) }

  /** The user has the `n` unfinished jobs 0 to n-1, none of them with a key. */
  ghost predicate Filled(q: Quota, userId: UserId, n: nat) {
    && |Active(q.rows, userId)| == n
    && forall id :: id in q.rows ==> id < n && q.rows[id].job.spec.idempotencyKey.None?
  }

  /** A waiting submission inserts the next job. */
  lemma OneInsert(cfg: Settings, userId: UserId, events: seq<QuotaEvent>, k: nat, sub: nat, n: nat)
    returns (more: seq<QuotaEvent>)
    requires AtMost(cfg, userId, events, k) && Filled(QuotaAfter(cfg, userId, events), userId, n)
    requires sub in QuotaAfter(cfg, userId, events).between
    ensures AtMost(cfg, userId, more, k) && Filled(QuotaAfter(cfg, userId, more), userId, n + 1)
    ensures QuotaAfter(cfg, userId, more).between == QuotaAfter(cfg, userId, events).between - {sub}
  {
    var q, e := QuotaAfter(cfg, userId, events), InsertedAfter(sub, n, Plain(userId));
    assert |QuotaAfter(cfg, userId, events[..|events|]).between| <= k && events[..|events|] == events;
    SubsetSize(q.between - {sub}, q.between);
    InsertTakesRoom(q.rows, userId, n, Plain(userId));
    Extended(cfg, userId, events, e, k);
    more := events + [e];
  }

  lemma OneCount(cfg: Settings, userId: UserId, events: seq<QuotaEvent>, k: nat, sub: nat)
    returns (more: seq<QuotaEvent>)
    requires AtMost(cfg, userId, events, k)
    requires var q := QuotaAfter(cfg, userId, events);
             |q.between + {sub}| <= k && |Active(q.rows, userId)| < cfg.maxInFlightPerUser
    ensures AtMost(cfg, userId, more, k)
    ensures var q := QuotaAfter(cfg, userId, events);
            QuotaAfter(cfg, userId, more) == q.(between := q.between + {sub})
  {
    Extended(cfg, userId, events, Counted(sub), k);
    more := events + [Counted(sub)];
  }

  /** One submission after the other, up to one below the cap. */
  lemma {:induction false} OneByOne(cfg: Settings, userId: UserId, k: nat, n: nat) returns (events: seq<QuotaEvent>)
    requires k >= 1 && n < cfg.maxInFlightPerUser
    ensures AtMost(cfg, userId, events, k) && Filled(QuotaAfter(cfg, userId, events), userId, n)
    ensures QuotaAfter(cfg, userId, events).between == {}
  {
    events := [];
    if n == 0 {
      assert Active(map[], userId) == {};
    } else {
      events := OneByOne(cfg, userId, k, n - 1);
      assert |{} + {0}| == 1;
      events := OneCount(cfg, userId, events, k, 0);
      events := OneInsert(cfg, userId, events, k, 0, n - 1);
    }
  }

  /** Then `j` submissions count before any of them inserts. */
  lemma {:induction false} CountAll(cfg: Settings, userId: UserId, k: nat, j: nat) returns (events: seq<QuotaEvent>)
    requires 1 <= k && j <= k && cfg.maxInFlightPerUser >= 1
    ensures AtMost(cfg, userId, events, k)
    ensures Filled(QuotaAfter(cfg, userId, events), userId, cfg.maxInFlightPerUser - 1)
    ensures QuotaAfter(cfg, userId, events).between == Window(0, j)
  {
    if j == 0 {
      events := OneByOne(cfg, userId, k, cfg.maxInFlightPerUser - 1);
    } else {
      events := CountAll(cfg, userId, k, j - 1);
      WindowHas(0, j);
      events := OneCount(cfg, userId, events, k, j - 1);
    }
  }

  /** And all of them insert. */
  lemma {:induction false} InsertAll(cfg: Settings, userId: UserId, k: nat, j: nat) returns (events: seq<QuotaEvent>)
    requires 1 <= k && j <= k && cfg.maxInFlightPerUser >= 1
    ensures AtMost(cfg, userId, events, k)
    ensures Filled(QuotaAfter(cfg, userId, events), userId, cfg.maxInFlightPerUser - 1 + j)
    ensures QuotaAfter(cfg, userId, events).between == Window(j, k)
  {
    if j == 0 {
      events := CountAll(cfg, userId, k, k);
    } else {
      events := InsertAll(cfg, userId, k, j - 1);
      WindowShrinks(j, k);
      events := OneInsert(cfg, userId, events, k, j - 1, cfg.maxInFlightPerUser - 2 + j);
    }
  }

  /** The slack is real: for every positive cap and every k some run reaches max_in_flight + k - 1. */
  lemma QuotaIsAttained(cfg: Settings, userId: UserId, k: nat) returns (events: seq<QuotaEvent>)
    requires k >= 1 && cfg.maxInFlightPerUser >= 1
    ensures AtMost(cfg, userId, events, k)
    ensures |Active(QuotaAfter(cfg, userId, events).rows, userId)| == cfg.maxInFlightPerUser + k - 1
  {
    events := InsertAll(cfg, userId, k, k);
  }
}
