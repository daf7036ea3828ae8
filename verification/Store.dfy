// The shared state every process works on: the clock, the Redis lists and the PostgreSQL tables.
module Store {
  import opened Domain
  import opened Lifecycle
  import opened Invariants
  import opened Safety

  class Clock {
    var time: Time

    constructor (start: Time)
      ensures time == start
    {
      time := start;
    }

    /** Some time has passed since the last reading, possibly none. */
    method Now() returns (now: Time)
      modifies this
      ensures old(time) <= now == time
    {
      var elapsed: real := *;
      if elapsed > 0.0 {
        time := time + elapsed;
      }
      now := time;
    }
  }

  const PRIORITY_ORDER: seq<Priority> := [High, Normal, Low]

  datatype Message = Message(id: JobId, priority: Priority)

  /** The list `p` after the messages have been pushed in order. */
  function PushAll(list: seq<JobId>, messages: seq<Message>, p: Priority): seq<JobId> {
    if messages == [] then list else
    var before, m := PushAll(list, messages[..|messages| - 1], p), messages[|messages| - 1];
    if m.priority == p then [m.id] + before else before
  }

  lemma {:induction false} Pushed(list: seq<JobId>, messages: seq<Message>, p: Priority, id: JobId)
    ensures id in PushAll(list, messages, p) <==> id in list || Message(id, p) in messages
  {
    if messages != [] {
      var n := |messages| - 1;
      Pushed(list, messages[..n], p, id);
      assert messages == messages[..n] + [messages[n]];
    }
  }

  type Lists = Priority -> seq<JobId>

  /** Three Redis lists, pushed at the left and popped at the right, and the dead-letter list. */
  class JobQueue {
    var high: seq<JobId>
    var normal: seq<JobId>
    var low: seq<JobId>
    var deadLetters: seq<JobId>

    constructor ()
      ensures high == normal == low == deadLetters == []
    {
      high, normal, low, deadLetters := [], [], [], [];
    }

    function List(p: Priority): seq<JobId>
      reads this
    {
      match p
      case High => high
      case Normal => normal
      case Low => low
    }

    /** The contents of the three lists, as a value. */
    ghost function Lists(): (lists: Lists)
      reads this
      ensures forall p :: lists(p) == List(p)
    {
      var h, n, l := high, normal, low;
      (p: Priority) => match p case High => h case Normal => n case Low => l
    }

    method Publish(id: JobId, p: Priority)
      modifies this
      ensures List(p) == [id] + old(List(p))
      ensures forall other :: other != p ==> List(other) == old(List(other))
      ensures deadLetters == old(deadLetters)
    {
      match p
      case High => high := [id] + high;
      case Normal => normal := [id] + normal;
      case Low => low := [id] + low;
    }

    /** The loop that every service runs after its commit. */
    method PublishAll(messages: seq<Message>)
      modifies this
      ensures forall p :: List(p) == PushAll(old(List(p)), messages, p)
      ensures deadLetters == old(deadLetters)
    {
      var i := 0;
      while i < |messages|
        invariant 0 <= i <= |messages|
        invariant forall p :: List(p) == PushAll(old(List(p)), messages[..i], p)
        invariant deadLetters == old(deadLetters)
      {
        Publish(messages[i].id, messages[i].priority);
        assert messages[..i + 1][..i] == messages[..i];
        i := i + 1;
      }
      assert messages[..|messages|] == messages;
    }

    /** The oldest message of the first nonempty list in priority order, if there is one. */
    method Consume() returns (id: Option<JobId>)
      modifies this
      ensures deadLetters == old(deadLetters)
      ensures id.None? ==> forall p :: old(List(p)) == List(p) == []
      ensures id.Some? <==> old(high) != [] || old(normal) != [] || old(low) != []
      ensures old(high) != [] ==> old(high) == high + [id.value] && normal == old(normal) && low == old(low)
      ensures old(high) == [] && old(normal) != [] ==>
                high == [] && old(normal) == normal + [id.value] && low == old(low)
      ensures old(high) == [] && old(normal) == [] && old(low) != [] ==>
                high == [] && normal == [] && old(low) == low + [id.value]
      ensures id.Some? ==>
                exists i :: 0 <= i < |PRIORITY_ORDER|
                            && old(List(PRIORITY_ORDER[i])) == List(PRIORITY_ORDER[i]) + [id.value]
                            && (forall j :: 0 <= j < i ==> old(List(PRIORITY_ORDER[j])) == [])
                            && (forall p :: p != PRIORITY_ORDER[i] ==> List(p) == old(List(p)))
    {
      id := None;
      if high != [] {
        id, high := Some(high[|high| - 1]), high[..|high| - 1];
        assert old(List(PRIORITY_ORDER[0])) == List(PRIORITY_ORDER[0]) + [id.value];
      } else if normal != [] {
        id, normal := Some(normal[|normal| - 1]), normal[..|normal| - 1];
        assert old(List(PRIORITY_ORDER[1])) == List(PRIORITY_ORDER[1]) + [id.value];
      } else if low != [] {
        id, low := Some(low[|low| - 1]), low[..|low| - 1];
        assert old(List(PRIORITY_ORDER[2])) == List(PRIORITY_ORDER[2]) + [id.value];
      }
    }

    method DeadLetter(id: JobId)
      modifies this
      ensures deadLetters == [id] + old(deadLetters)
      ensures forall p :: List(p) == old(List(p))
    {
      deadLetters := [id] + deadLetters;
    }

    method Depth() returns (total: nat)
      ensures total == |high| + |normal| + |low|
    {
      total := 0;
      var i := 0;
      while i < |PRIORITY_ORDER|
        invariant 0 <= i <= 3
        invariant total == (if i > 0 then |high| else 0) + (if i > 1 then |normal| else 0)
                           + (if i > 2 then |low| else 0)
      {
        total := total + |List(PRIORITY_ORDER[i])|;
        i := i + 1;
      }
    }
  }

  // ---------- whole tables of job states

  type Table = map<JobId, JobState>

  ghost predicate RowSound(cfg: Settings, rows: Table, id: JobId) { id in rows ==> Inv(cfg, rows[id]) }

  ghost predicate AllInv(cfg: Settings, rows: Table) { forall id :: RowSound(cfg, rows, id) }

  predicate SameKey(a: JobSpec, b: JobSpec) {
    a.userId == b.userId && a.idempotencyKey.Some? && a.idempotencyKey == b.idempotencyKey
  }

  /** The partial unique index on (user_id, idempotency_key). */
  ghost predicate UniqueKeys(rows: Table) {
    forall a, b :: a in rows && b in rows && SameKey(rows[a].job.spec, rows[b].job.spec) ==> a == b
  }

  /** Every row sound, no key used twice. */
  ghost predicate Tables(cfg: Settings, rows: Table) { AllInv(cfg, rows) && UniqueKeys(rows) }

  /** One update of every listed row. */
  function ApplyAll(rows: Table, ids: seq<JobId>, f: JobState -> JobState): Table {
    map id | id in rows :: if id in ids then f(rows[id]) else rows[id]
  }

  lemma ApplyAllNext(rows: Table, ids: seq<JobId>, id: JobId, f: JobState -> JobState)
    requires id in rows && id !in ids
    ensures ApplyAll(rows, ids + [id], f) == ApplyAll(rows, ids, f)[id := f(rows[id])]
    ensures ApplyAll(rows, ids, f)[id] == rows[id]
  {
  }

  function PassOf(cfg: Settings, now: Time, pass: Pass): JobState -> JobState {
    s => PassStep(cfg, s, now, pass)
  }

  lemma ApplyAllKeepsKeys(rows: Table, ids: seq<JobId>, f: JobState -> JobState)
    requires UniqueKeys(rows) && forall s :: f(s).job.spec == s.job.spec
    ensures UniqueKeys(ApplyAll(rows, ids, f))
  {
    var rows' := ApplyAll(rows, ids, f);
    assert forall id :: id in rows' ==> rows'[id].job.spec == rows[id].job.spec;
  }

  /** A transformation that keeps the invariant and the immutable columns of every row. */
  ghost predicate KeepsRows(cfg: Settings, f: JobState -> JobState) {
    && (forall s :: Inv(cfg, s) ==> Inv(cfg, f(s)))
    && (forall s :: f(s).job.spec == s.job.spec)
  }

  lemma KeepsTable(cfg: Settings, rows: Table, ids: seq<JobId>, f: JobState -> JobState)
    requires Tables(cfg, rows) && KeepsRows(cfg, f)
    ensures Tables(cfg, ApplyAll(rows, ids, f))
  {
    forall id ensures RowSound(cfg, ApplyAll(rows, ids, f), id) {
      assert RowSound(cfg, rows, id);
    }
    ApplyAllKeepsKeys(rows, ids, f);
  }

  lemma PassKeepsRows(cfg: Settings, now: Time, pass: Pass)
    ensures KeepsRows(cfg, PassOf(cfg, now, pass))
  {
    var f := PassOf(cfg, now, pass);
    forall s | Inv(cfg, s) ensures Inv(cfg, f(s)) { PassStepKeeps(cfg, s, now, pass); }
    forall s ensures f(s).job.spec == s.job.spec { SpecStep(cfg, s, now, Scheduled(pass)); }
  }

  /** A pass over any rows is one step of each of their jobs, so it keeps what steps keep. */
  lemma PassKeepsTable(cfg: Settings, rows: Table, ids: seq<JobId>, now: Time, pass: Pass)
    requires Tables(cfg, rows)
    ensures var rows' := ApplyAll(rows, ids, PassOf(cfg, now, pass)); Tables(cfg, rows')
  {
    PassKeepsRows(cfg, now, pass);
    KeepsTable(cfg, rows, ids, PassOf(cfg, now, pass));
  }

  /** The jobs, the priority lists and the dead-letter list. */
  datatype World = World(rows: Table, lists: Lists, dead: seq<JobId>)

  // ---------- the database

  /**
   * The five tables, grouped by the job id every row carries, with the running coroutines of the
   * job beside them; the methods are the statements the repositories issue.
   */
  class Database {
    const cfg: Settings
    var rows: Table

    constructor (cfg: Settings)
      ensures this.cfg == cfg && Valid() && rows == map[]
    {
      this.cfg := cfg;
      rows := map[];
    }

    ghost predicate Valid()
      reads this
    {
      Tables(cfg, rows)
    }

    /** `UPDATE jobs SET ... WHERE id = :id AND ...`, returning rowcount > 0. */
    method Update(id: JobId, where: Job -> bool, values: Job -> Job) returns (changed: bool)
      modifies this
      ensures changed == (id in old(rows) && where(old(rows)[id].job))
      ensures rows == if changed then old(rows)[id := old(rows)[id].(job := values(old(rows)[id].job))] else old(rows)
    {
      changed := id in rows && where(rows[id].job);
      if changed {
        rows := rows[id := rows[id].(job := values(rows[id].job))];
      }
    }

    method MarkPublished(id: JobId)
      requires id in rows
      modifies this
      ensures rows == old(rows)[id := old(rows)[id].(published := true)]
    {
      rows := rows[id := rows[id].(published := true)];
    }

    /** Append to the event log. */
    method RecordEvent(id: JobId, kind: EventType, toStatus: Status)
      requires id in rows
      modifies this
      ensures rows == old(rows)[id := Record(old(rows)[id], kind, toStatus)]
    {
      rows := rows[id := rows[id].(events := rows[id].events + [Event(kind, toStatus)])];
    }

    /** Insert an attempt row; its fresh id is its place among the job's attempts. */
    method StartAttempt(id: JobId, number: nat, worker: WorkerId) returns (attempt: nat)
      requires id in rows
      modifies this
      ensures attempt == |old(rows)[id].attempts|
      ensures rows == old(rows)[id :=
                old(rows)[id].(attempts := old(rows)[id].attempts + [Attempt(number, worker, Running, None)])]
    {
      attempt := |rows[id].attempts|;
      rows := rows[id := rows[id].(attempts := rows[id].attempts + [Attempt(number, worker, Running, None)])];
    }

    method FinishAttempt(id: JobId, attempt: nat, status: Status, code: Option<string>)
      requires id in rows
      modifies this
      ensures rows == old(rows)[id :=
                old(rows)[id].(attempts := Finish(old(rows)[id].attempts, attempt, status, code))]
    {
      if attempt < |rows[id].attempts| {
        var finished := rows[id].attempts[attempt].(status := status, errorCode := code);
        rows := rows[id := rows[id].(attempts := rows[id].attempts[attempt := finished])];
      }
    }

    // The running coroutines are no rows: no statement reads them, and a coroutine writes only its own.

    method Join(id: JobId, attempt: nat, l: Live)
      requires id in rows
      modifies this
      ensures rows == old(rows)[id := old(rows)[id].(live := old(rows)[id].live[attempt := l])]
    {
      rows := rows[id := rows[id].(live := rows[id].live[attempt := l])];
    }

    method Leave(id: JobId, attempt: nat)
      requires id in rows
      modifies this
      ensures rows == old(rows)[id := old(rows)[id].(live := old(rows)[id].live - {attempt})]
    {
      rows := rows[id := rows[id].(live := rows[id].live - {attempt})];
    }

    /** `INSERT ... ON CONFLICT (dedupe_key) DO NOTHING`. */
    method EnqueueNotice(id: JobId, event: EventType, status: Status, result: Option<Result>, code: Option<string>,
                         now: Time)
      requires id in rows
      modifies this
      ensures rows == old(rows)[id := Notify(old(rows)[id], event, status, result, code, now)]
    {
      var notices := rows[id].notices;
      var conflict, i := false, 0;
      while i < |notices|
        invariant 0 <= i <= |notices|
        invariant conflict <==> exists k :: 0 <= k < i && notices[k].event == event
      {
        if notices[i].event == event {
          conflict := true;
        }
        i := i + 1;
      }
      if !conflict {
        notices := notices + [Notice(event, status, result, code, NoticePending, 0, now)];
      }
      rows := rows[id := rows[id].(notices := notices)];
    }
  }

  ghost function State(db: Database, queue: JobQueue): World
    reads db, queue
  {
    World(db.rows, queue.Lists(), queue.deadLetters)
  }
}
