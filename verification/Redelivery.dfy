// How often and how fairly stuck jobs are sent again.
module Redelivery {
  import opened Domain
  import opened JobRows
  import opened Selection
  import opened Traces
  import opened Lifecycle
  import opened Safety
  import opened Store
  import opened Services

  // ---------- the cooldown between two redeliveries of one job

  predicate DispatchedSince(s: JobState, t: Time) {
    s.job.lastDispatchedAt.Some? && t <= s.job.lastDispatchedAt.value
  }

  lemma {:induction false} StaysDispatched(cfg: Settings, s: JobState, trace: seq<Stamped>, t: Time)
    requires DispatchedSince(s, t) && forall i :: 0 <= i < |trace| ==> t <= trace[i].now
    ensures DispatchedSince(After(cfg, s, trace), t)
  {
    if trace != [] {
      var n := |trace| - 1;
      StaysDispatched(cfg, s, trace[..n], t);
      StampsForward(cfg, After(cfg, s, trace[..n]), trace[n].now, trace[n].action, t);
    }
  }

  lemma StampsForward(cfg: Settings, s: JobState, now: Time, a: Action, t: Time)
    requires t <= now
    ensures var s' := Step(cfg, s, now, a);
            && (DispatchedSince(s, t) ==> DispatchedSince(s', t))
            && (StuckQueued(s'.job, t) ==>
                  StuckQueued(s.job, t) && s.job.lastDispatchedAt == s'.job.lastDispatchedAt)
  {
  }

  /** Step `i` of the run sends the job again. */
  predicate RedeliveredAt(cfg: Settings, s: JobState, trace: seq<Stamped>, i: nat)
    requires i < |trace|
  {
    && trace[i].action.Scheduled? && trace[i].action.pass.Redeliver?
    && trace[i].action.pass.readAt <= trace[i].now
    && StuckQueued(After(cfg, s, trace[..i]).job, StuckCutoff(cfg, trace[i].action.pass.readAt))
  }

  lemma ResentStamps(cfg: Settings, s: JobState, readAt: Time, now: Time)
    requires readAt <= now && StuckQueued(s.job, StuckCutoff(cfg, readAt))
    ensures DispatchedSince(Step(cfg, s, now, Scheduled(Redeliver(readAt))), now)
  {
  }

  lemma Resent(cfg: Settings, s: JobState, trace: seq<Stamped>, i: nat)
    requires i < |trace| && RedeliveredAt(cfg, s, trace, i)
    ensures DispatchedSince(After(cfg, s, trace[..i + 1]), trace[i].now)
  {
    ResentStamps(cfg, After(cfg, s, trace[..i]), trace[i].action.pass.readAt, trace[i].now);
    assert trace[..i + 1] == trace[..i] + [trace[i]];
    FoldSnoc(Stepper(cfg), s, trace[..i], trace[i]);
  }

  lemma StuckSince(cfg: Settings, s: JobState, t: Time, readAt: Time)
    requires DispatchedSince(s, t) && StuckQueued(s.job, StuckCutoff(cfg, readAt))
    ensures t + cfg.queueStuckSeconds < readAt
  {
  }

  /** Two redeliveries of one job are more than the cooldown apart, whatever happens in between. */
  lemma RedeliveryRate(cfg: Settings, s: JobState, trace: seq<Stamped>, i: nat, j: nat)
    requires i < j < |trace| && forall k, l :: 0 <= k < l < |trace| ==> trace[k].now <= trace[l].now
    requires RedeliveredAt(cfg, s, trace, i) && RedeliveredAt(cfg, s, trace, j)
    ensures trace[i].now + cfg.queueStuckSeconds < trace[j].now
  {
    Resent(cfg, s, trace, i);
    StaysDispatched(cfg, After(cfg, s, trace[..i + 1]), trace[i + 1..j], trace[i].now);
    Onwards(cfg, s, trace, i + 1, j);
    StuckSince(cfg, After(cfg, s, trace[..j]), trace[i].now, trace[j].action.pass.readAt);
  }

  // ---------- fairness of consecutive passes

  /** One redelivery pass, with the rows other transactions had locked while it ran. */
  datatype Round = Round(locked: set<JobId>, pass: Passed, times: seq<Time>, to: Time)

  /** The jobs whose last dispatch lies before the cutoff. */
  function Stuck(w: World, cutoff: Time): set<JobId> {
    set id | id in w.rows && StuckQueued(w.rows[id].job, cutoff)
  }

  /** Other steps, none before `t`, have led from one table to the next. */
  ghost predicate Carried(rows: Table, rows': Table, t: Time) {
    forall id :: id in rows' && StuckQueued(rows'[id].job, t) ==>
      id in rows && rows[id].job.status.Queued? && rows[id].job.lastDispatchedAt == rows'[id].job.lastDispatchedAt
  }

  lemma {:induction false} CarriedRow(cfg: Settings, s: JobState, trace: seq<Stamped>, t: Time)
    requires forall i :: 0 <= i < |trace| ==> t <= trace[i].now
    requires StuckQueued(After(cfg, s, trace).job, t)
    ensures StuckQueued(s.job, t) && s.job.lastDispatchedAt == After(cfg, s, trace).job.lastDispatchedAt
  {
    if trace != [] {
      var n := |trace| - 1;
      StampsForward(cfg, After(cfg, s, trace[..n]), trace[n].now, trace[n].action, t);
      CarriedRow(cfg, s, trace[..n], t);
    }
  }

  /** Any steps of any jobs, and any submissions, carry one table to the next. */
  lemma StepsCarry(cfg: Settings, rows: Table, rows': Table, origin: Table, traces: map<JobId, seq<Stamped>>, t: Time)
    requires rows'.Keys == origin.Keys == traces.Keys
    requires forall id :: id in origin ==> if id in rows then origin[id] == rows[id] else origin[id].job.status.Pending?
    requires forall id :: id in traces ==>
               && rows'[id] == After(cfg, origin[id], traces[id])
               && forall i :: 0 <= i < |traces[id]| ==> t <= traces[id][i].now
    ensures Carried(rows, rows', t)
  {
    forall id | id in rows' && StuckQueued(rows'[id].job, t)
      ensures id in rows && rows[id].job.status.Queued?
              && rows[id].job.lastDispatchedAt == rows'[id].job.lastDispatchedAt
    {
      CarriedRow(cfg, origin[id], traces[id], t);
    }
  }

  /**
   * Passes one after the other, each at most a cooldown after the first, with arbitrary other steps in
   * between, and no job that was stuck at the start locked by another transaction during a pass.
   */
  ghost predicate Consecutive(cfg: Settings, rounds: seq<Round>, batch: nat)
    requires rounds != []
  {
    && (forall i :: PassingAt(cfg, rounds, rounds[0].pass.at, batch, i))
    && (forall i :: CarriedTo(rounds, rounds[0].pass.at, i))
  }

  ghost predicate PassingAt(cfg: Settings, rounds: seq<Round>, t: Time, batch: nat, i: int) {
    0 <= i < |rounds| ==> Passing(cfg, rounds[i], t, batch)
  }

  /** Pass `i` starts from what the pass before it and the others have left. */
  ghost predicate CarriedTo(rounds: seq<Round>, t: Time, i: int) {
    0 < i < |rounds| ==> Carried(rounds[i - 1].pass.committed.rows, rounds[i].pass.before.rows, t)
  }

  ghost predicate Passing(cfg: Settings, r: Round, t: Time, batch: nat) {
    && RedeliverRan(cfg, r.pass, r.times, r.to, r.locked, batch)
    && t <= r.pass.at <= t + cfg.queueStuckSeconds
    && r.locked !! Stuck(r.pass.before, StuckCutoff(cfg, t))
  }

  lemma RestampedFresh(cfg: Settings, r: Round, t: Time, batch: nat, id: JobId)
    requires Passing(cfg, r, t, batch) && id in r.pass.committed.rows
    ensures id in r.pass.before.rows
    ensures id in r.pass.ids ==> !StuckQueued(r.pass.committed.rows[id].job, t)
    ensures id !in r.pass.ids ==> r.pass.committed.rows[id] == r.pass.before.rows[id]
  {
    if id in r.pass.ids {
      var i :| 0 <= i < |r.pass.ids| && r.pass.ids[i] == id;
      assert r.pass.at <= r.times[i];
    }
  }

  lemma LeftBehind(cfg: Settings, r: Round, t: Time, batch: nat)
    requires cfg.queueStuckSeconds >= 0.0 && Passing(cfg, r, t, batch)
    ensures var cutoff := StuckCutoff(cfg, t);
            Stuck(r.pass.committed, cutoff) == Unserved(Stuck(r.pass.before, cutoff), r.pass.ids)
  {
    var cutoff := StuckCutoff(cfg, t);
    var waiting, left := Stuck(r.pass.before, cutoff), Stuck(r.pass.committed, cutoff);
    forall id ensures id in left <==> id in waiting && id !in r.pass.ids {
      if id in r.pass.committed.rows {
        RestampedFresh(cfg, r, t, batch, id);
      }
    }
  }

  lemma OldestServed(cfg: Settings, r: Round, t: Time, batch: nat, waiting: set<JobId>)
    requires cfg.queueStuckSeconds >= 0.0 && Passing(cfg, r, t, batch)
    requires waiting == Stuck(r.pass.before, StuckCutoff(cfg, t))
    ensures |Unserved(waiting, r.pass.ids)| <= Less(|waiting|, batch)
  {
    var cutoff := StuckCutoff(cfg, r.pass.at);
    var candidates, key := StuckJobs(r.pass.before.rows, cutoff, r.locked), Keys(r.pass.before.rows, DispatchedKey());
    assert forall id :: id in waiting ==> id in candidates;
    forall id, x | id in candidates && x in waiting && NoLater(key[id], key[x]) ensures id in waiting {
    }
    OldestFirst(r.pass.ids, candidates, key, batch, waiting);
  }

  /** One pass leaves a batch fewer of the jobs that were stuck at the first cutoff. */
  lemma Served(cfg: Settings, r: Round, t: Time, batch: nat)
    requires cfg.queueStuckSeconds >= 0.0 && Passing(cfg, r, t, batch)
    ensures var cutoff := StuckCutoff(cfg, t);
            |Stuck(r.pass.committed, cutoff)| <= Less(|Stuck(r.pass.before, cutoff)|, batch)
  {
    LeftBehind(cfg, r, t, batch);
    OldestServed(cfg, r, t, batch, Stuck(r.pass.before, StuckCutoff(cfg, t)));
  }

  lemma CarriedStuck(w: World, w': World, t: Time, cutoff: Time)
    requires Carried(w.rows, w'.rows, t) && cutoff <= t
    ensures |Stuck(w', cutoff)| <= |Stuck(w, cutoff)|
  {
    SubsetSize(Stuck(w', cutoff), Stuck(w, cutoff));
  }

  function WaitingBefore(rounds: seq<Round>, cutoff: Time): seq<nat> {
    seq(|rounds|, i requires 0 <= i < |rounds| => |Stuck(rounds[i].pass.before, cutoff)|)
  }

  function WaitingAfter(rounds: seq<Round>, cutoff: Time): seq<nat> {
    seq(|rounds|, i requires 0 <= i < |rounds| => |Stuck(rounds[i].pass.committed, cutoff)|)
  }

  lemma RoundShrinks(cfg: Settings, rounds: seq<Round>, batch: nat, i: nat, cutoff: Time)
    requires i < |rounds| && cfg.queueStuckSeconds >= 0.0 && Consecutive(cfg, rounds, batch)
    requires cutoff == StuckCutoff(cfg, rounds[0].pass.at)
    ensures WaitingAfter(rounds, cutoff)[i] <= Less(WaitingBefore(rounds, cutoff)[i], batch)
  {
    assert PassingAt(cfg, rounds, rounds[0].pass.at, batch, i);
    Served(cfg, rounds[i], rounds[0].pass.at, batch);
  }

  lemma RoundCarries(cfg: Settings, rounds: seq<Round>, batch: nat, i: nat, cutoff: Time)
    requires 0 < i < |rounds| && cfg.queueStuckSeconds >= 0.0 && Consecutive(cfg, rounds, batch)
    requires cutoff == StuckCutoff(cfg, rounds[0].pass.at)
    ensures WaitingBefore(rounds, cutoff)[i] <= WaitingAfter(rounds, cutoff)[i - 1]
  {
    assert CarriedTo(rounds, rounds[0].pass.at, i);
    CarriedStuck(rounds[i - 1].pass.committed, rounds[i].pass.before, rounds[0].pass.at, cutoff);
  }

  lemma RoundsShrink(cfg: Settings, rounds: seq<Round>, batch: nat, cutoff: Time, before: seq<nat>, after: seq<nat>)
    requires rounds != [] && cfg.queueStuckSeconds >= 0.0 && Consecutive(cfg, rounds, batch)
    requires cutoff == StuckCutoff(cfg, rounds[0].pass.at)
    requires before == WaitingBefore(rounds, cutoff) && after == WaitingAfter(rounds, cutoff)
    ensures forall i :: 0 <= i < |rounds| ==> after[i] <= Less(before[i], batch)
    ensures forall i :: 0 < i < |rounds| ==> before[i] <= after[i - 1]
  {
    forall i | 0 <= i < |rounds| ensures after[i] <= Less(before[i], batch) {
      RoundShrinks(cfg, rounds, batch, i, cutoff);
    }
    forall i | 0 < i < |rounds| ensures before[i] <= after[i - 1] {
      RoundCarries(cfg, rounds, batch, i, cutoff);
    }
  }

  /** What is still waiting after the last round has shrunk by a batch a round. */
  lemma WaitingShrinks(cfg: Settings, rounds: seq<Round>, batch: nat, cutoff: Time)
    requires rounds != [] && cfg.queueStuckSeconds >= 0.0 && Consecutive(cfg, rounds, batch)
    requires cutoff == StuckCutoff(cfg, rounds[0].pass.at)
    ensures |Stuck(rounds[|rounds| - 1].pass.committed, cutoff)|
            <= Remaining(|Stuck(rounds[0].pass.before, cutoff)|, batch, |rounds|)
  {
    var before, after := WaitingBefore(rounds, cutoff), WaitingAfter(rounds, cutoff);
    RoundsShrink(cfg, rounds, batch, cutoff, before, after);
    Shrinks(before, after, batch, |rounds| - 1);
  }

  predicate NotStuck(rows: Table, t: Time, id: JobId) { id in rows ==> !StuckQueued(rows[id].job, t) }

  lemma CarriedFresh(rows: Table, rows': Table, t: Time, id: JobId)
    requires Carried(rows, rows', t) && NotStuck(rows, t, id)
    ensures NotStuck(rows', t, id)
  {
  }

  lemma PassedFresh(cfg: Settings, r: Round, t: Time, batch: nat, id: JobId)
    requires Passing(cfg, r, t, batch) && (id in r.pass.ids || NotStuck(r.pass.before.rows, t, id))
    ensures NotStuck(r.pass.committed.rows, t, id)
  {
    if id in r.pass.committed.rows {
      RestampedFresh(cfg, r, t, batch, id);
    }
  }

  lemma CommittedFresh(cfg: Settings, rounds: seq<Round>, batch: nat, j: nat, id: JobId)
    requires j < |rounds| && Consecutive(cfg, rounds, batch)
    requires id in rounds[j].pass.ids || NotStuck(rounds[j].pass.before.rows, rounds[0].pass.at, id)
    ensures NotStuck(rounds[j].pass.committed.rows, rounds[0].pass.at, id)
  {
    assert PassingAt(cfg, rounds, rounds[0].pass.at, batch, j);
    PassedFresh(cfg, rounds[j], rounds[0].pass.at, batch, id);
  }

  lemma FreshNext(cfg: Settings, rounds: seq<Round>, batch: nat, j: nat, id: JobId)
    requires 0 < j < |rounds| && Consecutive(cfg, rounds, batch)
    requires NotStuck(rounds[j - 1].pass.committed.rows, rounds[0].pass.at, id)
    ensures NotStuck(rounds[j].pass.before.rows, rounds[0].pass.at, id)
  {
    assert CarriedTo(rounds, rounds[0].pass.at, j);
    CarriedFresh(rounds[j - 1].pass.committed.rows, rounds[j].pass.before.rows, rounds[0].pass.at, id);
  }

  /** A job sent again in round `i` is not stuck when round `j` reads the table. */
  lemma {:induction false} FreshUntil(cfg: Settings, rounds: seq<Round>, batch: nat, i: nat, j: nat, id: JobId)
    requires i < j < |rounds| && Consecutive(cfg, rounds, batch) && id in rounds[i].pass.ids
    ensures NotStuck(rounds[j].pass.before.rows, rounds[0].pass.at, id)
    decreases j
  {
    if i < j - 1 {
      FreshUntil(cfg, rounds, batch, i, j - 1, id);
    }
    CommittedFresh(cfg, rounds, batch, j - 1, id);
    FreshNext(cfg, rounds, batch, j, id);
  }

  /** Within one cooldown no job at all is sent twice. */
  lemma AtMostOnce(cfg: Settings, rounds: seq<Round>, batch: nat, i: nat, j: nat, id: JobId)
    requires i < j < |rounds| && Consecutive(cfg, rounds, batch) && id in rounds[i].pass.ids
    ensures id !in rounds[j].pass.ids
  {
    FreshUntil(cfg, rounds, batch, i, j, id);
    assert PassingAt(cfg, rounds, rounds[0].pass.at, batch, j);
  }

  /** Something else than a redelivery ended the job's wait, between rounds `i - 1` and `i`. */
  predicate TakenBefore(rounds: seq<Round>, cutoff: Time, i: nat, id: JobId)
    requires 0 < i < |rounds|
  {
    id in Stuck(rounds[i - 1].pass.committed, cutoff) && id !in Stuck(rounds[i].pass.before, cutoff)
  }

  lemma {:induction false} WaitsUntil(cfg: Settings, rounds: seq<Round>, batch: nat, n: nat, cutoff: Time, id: JobId)
    requires n < |rounds| && cfg.queueStuckSeconds >= 0.0 && Consecutive(cfg, rounds, batch)
    requires cutoff == StuckCutoff(cfg, rounds[0].pass.at) && id in Stuck(rounds[0].pass.before, cutoff)
    requires forall i :: 0 <= i <= n ==> id !in rounds[i].pass.ids
    requires forall i :: 0 < i <= n ==> !TakenBefore(rounds, cutoff, i, id)
    ensures id in Stuck(rounds[n].pass.committed, cutoff)
  {
    if n > 0 {
      WaitsUntil(cfg, rounds, batch, n - 1, cutoff, id);
      assert !TakenBefore(rounds, cutoff, n, id);
    }
    assert PassingAt(cfg, rounds, rounds[0].pass.at, batch, n);
    LeftBehind(cfg, rounds[n], rounds[0].pass.at, batch);
  }

  /**
   * With q jobs stuck at first and batch b, ceil(q/b) passes within one cooldown reach every one of
   * them: each is sent again in exactly one pass, unless another step took it out of the queue.
   */
  lemma RedeliveryFairness(cfg: Settings, rounds: seq<Round>, batch: nat, cutoff: Time, id: JobId)
    requires rounds != [] && cfg.queueStuckSeconds >= 0.0 && Consecutive(cfg, rounds, batch)
    requires cutoff == StuckCutoff(cfg, rounds[0].pass.at)
    requires |Stuck(rounds[0].pass.before, cutoff)| <= |rounds| * batch
    requires id in Stuck(rounds[0].pass.before, cutoff)
    requires forall i :: 0 < i < |rounds| ==> !TakenBefore(rounds, cutoff, i, id)
    ensures exists i :: 0 <= i < |rounds| && id in rounds[i].pass.ids
                        && forall j :: 0 <= j < |rounds| && j != i ==> id !in rounds[j].pass.ids
  {
    var n := |rounds| - 1;
    WaitingShrinks(cfg, rounds, batch, cutoff);
    RemainingIs(|Stuck(rounds[0].pass.before, cutoff)|, batch, |rounds|);
    if forall i :: 0 <= i <= n ==> id !in rounds[i].pass.ids {
      WaitsUntil(cfg, rounds, batch, n, cutoff, id);
      assert false;
    }
    var i :| 0 <= i <= n && id in rounds[i].pass.ids;
    forall j | 0 <= j < |rounds| && j != i ensures id !in rounds[j].pass.ids {
      if i < j {
        AtMostOnce(cfg, rounds, batch, i, j, id);
      } else if id in rounds[j].pass.ids {
        AtMostOnce(cfg, rounds, batch, j, i, id);
      }
    }
  }
}
