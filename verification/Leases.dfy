// Mutual exclusion of execution while every worker renews its lease in time.
module Leases {
  import opened Domain
  import opened JobRows
  import opened Lifecycle
  import opened Invariants
  import opened Budget

  /** At time `now` no running coroutine has gone longer than the lease since its last beat. */
  predicate Timely(cfg: Settings, s: JobState, now: Time) {
    forall id :: id in s.live ==> now <= s.live[id].beatAt + cfg.leaseSeconds
  }

  /** Only the newest attempt runs, it owns the row, and the row's lease dates from its last beat. */
  predicate Exclusive(cfg: Settings, s: JobState) {
    forall id :: id in s.live ==>
      && id + 1 == s.job.attempts
      && s.job.status.Held()
      && (s.job.status.Running? ==> s.job.lockExpiresAt == Some(s.live[id].beatAt + cfg.leaseSeconds))
  }

  lemma OwnerRuns(cfg: Settings, s: JobState, id: nat)
    requires Inv(cfg, s) && Exclusive(cfg, s) && id in s.live
    ensures s.job.lockedBy == Some(s.live[id].worker) && s.live[id].number == s.job.attempts
  {
    assert LiveShape(s, id);
  }

  lemma ExclusiveFinalizer(cfg: Settings, s: JobState, now: Time, id: nat)
    requires Inv(cfg, s) && Exclusive(cfg, s) && id in s.live && s.live[id].phase.Ending?
    ensures Exclusive(cfg, Finalized(s, id, now))
  {
    assert forall k :: k in s.live ==> k == id;
  }

  lemma ExclusiveRun(cfg: Settings, s: JobState, now: Time, id: nat, move: Move)
    requires Inv(cfg, s) && Exclusive(cfg, s) && id in s.live
    ensures Exclusive(cfg, RunStep(cfg, s, now, id, move))
  {
    OwnerRuns(cfg, s, id);
    if move.Finalize? && s.live[id].phase.Ending? {
      ExclusiveFinalizer(cfg, s, now, id);
    }
  }

  lemma ExclusiveReap(cfg: Settings, s: JobState, now: Time)
    requires Inv(cfg, s) && Exclusive(cfg, s) && Timely(cfg, s, now)
    ensures Exclusive(cfg, Reaped(s, now))
  {
    if LeaseExpired(s.job, now) {
      assert s.live.Keys == {};
    }
  }

  lemma ExclusiveStep(cfg: Settings, s: JobState, now: Time, a: Action)
    requires Inv(cfg, s) && Exclusive(cfg, s) && Timely(cfg, s, now)
    ensures Exclusive(cfg, Step(cfg, s, now, a))
  {
    match a
    case Scheduled(pass) => if pass.ReapLease? { ExclusiveReap(cfg, s, now); }
    case Run(id, move) => if id in s.live { ExclusiveRun(cfg, s, now, id, move); }
    case _ =>
  }

  /** Every step of the run finds every running coroutine within its lease. */
  predicate TimelyRun(cfg: Settings, s: JobState, trace: seq<Stamped>) {
    forall i :: 0 <= i < |trace| ==> Timely(cfg, After(cfg, s, trace[..i]), trace[i].now)
  }

  lemma TimelyPrefix(cfg: Settings, s: JobState, trace: seq<Stamped>, n: nat)
    requires n <= |trace| && TimelyRun(cfg, s, trace)
    ensures TimelyRun(cfg, s, trace[..n])
  {
    forall i | 0 <= i < n ensures Timely(cfg, After(cfg, s, trace[..n][..i]), trace[..n][i].now) {
      assert trace[..n][..i] == trace[..i];
    }
  }

  lemma {:induction false} ExclusiveRuns(cfg: Settings, s: JobState, trace: seq<Stamped>)
    requires Inv(cfg, s) && Exclusive(cfg, s) && TimelyRun(cfg, s, trace)
    ensures Inv(cfg, After(cfg, s, trace)) && Exclusive(cfg, After(cfg, s, trace))
    decreases |trace|
  {
    AlwaysInv(cfg, s, trace);
    if trace != [] {
      var n := |trace| - 1;
      TimelyPrefix(cfg, s, trace, n);
      ExclusiveRuns(cfg, s, trace[..n]);
      ExclusiveStep(cfg, After(cfg, s, trace[..n]), trace[n].now, trace[n].action);
    }
  }

  /**
   * If the gaps from claim to each beat to finalizer never exceed the lease, a job never has two
   * running attempts, the one it has is attempt number `attempts` and owns the row, and so the job
   * starts at most max_attempts times. Shared worker ids make no difference.
   */
  lemma MutualExclusion(cfg: Settings, spec: JobSpec, trace: seq<Stamped>)
    requires spec.maxAttempts >= 1 && TimelyRun(cfg, Submitted(spec), trace)
    ensures var s := After(cfg, Submitted(spec), trace);
            && |s.live| <= 1
            && (forall id :: id in s.live ==>
                  s.live[id].number == s.job.attempts && s.job.lockedBy == Some(s.live[id].worker))
            && s.job.attempts <= spec.maxAttempts
  {
    var init := Submitted(spec);
    SubmittedInv(cfg, spec);
    forall i | 0 <= i <= |trace| ensures Unshared(After(cfg, init, trace[..i])) {
      TimelyPrefix(cfg, init, trace, i);
      ExclusiveRuns(cfg, init, trace[..i]);
    }
    AttemptLimit(cfg, spec, trace);
    ExclusiveRuns(cfg, init, trace);
    var s := After(cfg, init, trace);
    forall id | id in s.live ensures s.live.Keys == {id} && s.live[id].number == s.job.attempts
      && s.job.lockedBy == Some(s.live[id].worker) {
      OwnerRuns(cfg, s, id);
    }
    if s.live.Keys != {} {
      var id :| id in s.live;
      assert |s.live| == |s.live.Keys| == |{id}|;
    }
  }

  /** A timely attempt's outcome is never discarded, except a retry overtaken by a cancel. */
  lemma TimelyOutcomeCommits(cfg: Settings, s: JobState, now: Time, id: nat)
    requires Inv(cfg, s) && Exclusive(cfg, s) && id in s.live && s.live[id].phase.Ending?
    ensures var s' := Step(cfg, s, now, Run(id, Finalize));
            s'.job.status == s.job.status <==> s.live[id].phase.outcome.CommitRetry? && s.job.status.Cancelling?
  {
    OwnerRuns(cfg, s, id);
  }
}
