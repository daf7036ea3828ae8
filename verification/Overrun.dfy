// Which states can still take a job beyond its attempt limit: the exact condition behind the two budgets.
module Overrun {
  import opened Domain
  import opened JobRows
  import opened Traces
  import opened Lifecycle
  import opened Invariants
  import opened Safety
  import opened Flows
  import opened Progress

  /** Running attempt `k` is below the limit and has not settled on an outcome other than a retry. */
  predicate Retriable(s: JobState, k: nat) {
    && k in s.live && k + 1 < s.job.spec.maxAttempts
    && (s.live[k].phase.Ending? ==> s.live[k].phase.outcome.CommitRetry?)
  }

  /** The same, and it carries the `locked_by` id. */
  predicate Owning(s: JobState, k: nat) { Retriable(s, k) && s.job.lockedBy == Some(s.live[k].worker) }

  /**
   * Two starts are left before the last; or one, and an attempt that can give the row back after it; or none,
   * and the job waits for a start or such an attempt has the row.
   */
  ghost predicate Overrunnable(s: JobState) {
    var n, m := s.job.attempts, s.job.spec.maxAttempts;
    || n > m
    || (!s.job.status.Terminal() && !s.job.status.Cancelling?
        && (|| n <= m - 2
            || (n == m - 1 && exists k :: Retriable(s, k))
            || (n == m && (Waiting(s) || exists k :: Owning(s, k)))))
  }

  // ---------- the other states keep the limit

  lemma KeptFinalizer(cfg: Settings, s: JobState, now: Time, id: nat)
    requires Inv(cfg, s) && !Overrunnable(s) && id in s.live && s.live[id].phase.Ending?
    ensures !Overrunnable(Finalized(s, id, now))
  {
    var s' := Finalized(s, id, now);
    assert LiveShape(s, id);
    assert s.live[id].phase.outcome.CommitRetry? ==> Retriable(s, id);
    assert s.live[id].phase.outcome.CommitRetry? && OwnedRunning(s.job, s.live[id].worker) ==> Owning(s, id);
    forall k ensures Retriable(s', k) ==> Retriable(s, k) { }
    forall k ensures Owning(s', k) ==> Owning(s, k) { }
  }

  lemma KeptRun(cfg: Settings, s: JobState, now: Time, id: nat, move: Move)
    requires Inv(cfg, s) && !Overrunnable(s) && id in s.live
    ensures !Overrunnable(RunStep(cfg, s, now, id, move))
  {
    var s' := RunStep(cfg, s, now, id, move);
    if move.Finalize? && s.live[id].phase.Ending? {
      KeptFinalizer(cfg, s, now, id);
    } else {
      assert s'.job.(progress := s.job.progress, lockExpiresAt := s.job.lockExpiresAt) == s.job;
      forall k ensures Retriable(s', k) ==> Retriable(s, k) { }
      forall k ensures Owning(s', k) ==> Owning(s, k) { }
    }
  }

  lemma KeptClaim(cfg: Settings, s: JobState, worker: WorkerId, now: Time)
    requires Inv(cfg, s) && !Overrunnable(s)
    ensures !Overrunnable(ClaimedBy(cfg, s, worker, now))
  {
    var s' := ClaimedBy(cfg, s, worker, now);
    forall k ensures Retriable(s', k) ==> Retriable(s, k) || k == s.job.attempts { }
  }

  lemma KeptPass(cfg: Settings, s: JobState, now: Time, pass: Pass)
    requires Inv(cfg, s) && !Overrunnable(s)
    ensures !Overrunnable(PassStep(cfg, s, now, pass))
  {
    var s' := PassStep(cfg, s, now, pass);
    assert s'.live == s.live && s'.job.attempts == s.job.attempts;
    forall k ensures Retriable(s', k) ==> Retriable(s, k) { }
    forall k ensures Owning(s', k) ==> Owning(s, k) { }
  }

  lemma KeptStep(cfg: Settings, s: JobState, now: Time, a: Action)
    requires Inv(cfg, s) && !Overrunnable(s)
    ensures !Overrunnable(Step(cfg, s, now, a))
  {
    match a
    case Scheduled(pass) => KeptPass(cfg, s, now, pass);
    case RequestCancel =>
    case Claim(worker) => KeptClaim(cfg, s, worker, now);
    case Run(id, move) => if id in s.live { KeptRun(cfg, s, now, id, move); }
    case Deliver(_, _, _) =>
      var s' := Step(cfg, s, now, a);
      forall k ensures Retriable(s', k) ==> Retriable(s, k) { }
      forall k ensures Owning(s', k) ==> Owning(s, k) { }
  }

  lemma KeptForever(cfg: Settings, s: JobState, trace: seq<Stamped>)
    requires Inv(cfg, s) && !Overrunnable(s)
    ensures After(cfg, s, trace).job.attempts <= s.job.spec.maxAttempts
  {
    var f, inv := Stepper(cfg), (t: JobState) => Inv(cfg, t) && !Overrunnable(t);
    forall t: JobState, e: Stamped | inv(t) ensures inv(f(t, e)) {
      StepKeeps(cfg, t, e.now, e.action);
      KeptStep(cfg, t, e.now, e.action);
    }
    FoldInvariant(f, s, trace, inv);
    SpecForever(cfg, s, trace);
  }

  // ---------- and these states can exceed it

  function Any(): Choice { (s: JobState, e: Stamped) => true }

  ghost predicate CanExceed(cfg: Settings, s: JobState, t: Time) {
    exists s', t' :: Can(cfg, Any(), s, t, s', t') && s'.job.attempts > s'.job.spec.maxAttempts
  }

  lemma ExceedsLater(cfg: Settings, s: JobState, t: Time, u: JobState, v: Time)
    requires Can(cfg, Any(), s, t, u, v) && CanExceed(cfg, u, v)
    ensures CanExceed(cfg, s, t)
  {
    var s', t' :| Can(cfg, Any(), u, v, s', t') && s'.job.attempts > s'.job.spec.maxAttempts;
    CanOn(cfg, Any(), s, t, u, v, s', t');
  }

  lemma Starts(cfg: Settings, s: JobState, t: Time, w: WorkerId) returns (u: JobState)
    requires Inv(cfg, s) && Waiting(s)
    ensures u == ClaimedBy(cfg, s, w, t) && Inv(cfg, u) && Can(cfg, Any(), s, t, u, t)
    ensures u.job.status.Running? && u.job.attempts == s.job.attempts + 1 && u.job.spec == s.job.spec
    ensures u.job.lockedBy == Some(w) && u.live == s.live[s.job.attempts := Live(s.job.attempts + 1, w, t, Executing)]
  {
    u := ClaimedBy(cfg, s, w, t);
    var e := At(t, Claim(w));
    assert u == Stepper(cfg)(s, e);
    CanStep(cfg, Any(), s, t, e, u);
    CanKeeps(cfg, Any(), s, t, u, t);
  }

  /** Below the limit the scheduler brings the job back to the queue, with its coroutines as they are. */
  lemma BackToQueue(cfg: Settings, s: JobState, t: Time) returns (u: JobState, v: Time)
    requires Inv(cfg, s) && !s.job.status.Terminal() && !s.job.status.Cancelling?
    requires s.job.attempts < s.job.spec.maxAttempts
    ensures Can(cfg, Any(), s, t, u, v) && Inv(cfg, u) && Waiting(u)
    ensures u.live == s.live && u.job.attempts == s.job.attempts && u.job.spec == s.job.spec
  {
    u, v := s, Due(s, t);
    if s.job.status.Pending? {
      u := Dispatched(s, v);
      assert u == Stepper(cfg)(s, At(v, Scheduled(DispatchRow)));
      CanStep(cfg, Any(), s, t, At(v, Scheduled(DispatchRow)), u);
    } else if s.job.status.Running? {
      u := Reaped(s, v);
      assert u == Stepper(cfg)(s, At(v, Scheduled(ReapLease)));
      CanStep(cfg, Any(), s, t, At(v, Scheduled(ReapLease)), u);
    } else {
      CanStay(cfg, Any(), s, t, v);
    }
    CanKeeps(cfg, Any(), s, t, u, v);
  }

  lemma Moves(cfg: Settings, s: JobState, t: Time, k: nat, move: Move, u: JobState)
    requires Inv(cfg, s) && k in s.live && (move.Raise? || move.Decide?)
    requires u == InPhase(s, k, NextPhase(s.job, s.live[k], move, t))
    ensures Can(cfg, Any(), s, t, u, t) && Inv(cfg, u)
  {
    var e := At(t, Run(k, move));
    assert u == Stepper(cfg)(s, e);
    CanStep(cfg, Any(), s, t, e, u);
    CanKeeps(cfg, Any(), s, t, u, t);
  }

  lemma ErringSettles(cfg: Settings, s: JobState, t: Time, k: nat) returns (u: JobState)
    requires Inv(cfg, s) && s.job.status.Running? && Owning(s, k) && s.live[k].phase.Erring?
    ensures Can(cfg, Any(), s, t, u, t) && Inv(cfg, u) && u.job == s.job && Owning(u, k) && u.live[k].phase.Ending?
  {
    assert LiveShape(s, k);
    u := InPhase(s, k, Ending(CommitRetry(s.live[k].phase.code, t + 0.0)));
    Moves(cfg, s, t, k, Decide(0.0), u);
  }

  /** An attempt that owns the row and can retry settles on the retry. */
  lemma SettlesOnRetry(cfg: Settings, s: JobState, t: Time, k: nat) returns (u: JobState)
    requires Inv(cfg, s) && s.job.status.Running? && Owning(s, k)
    ensures Can(cfg, Any(), s, t, u, t) && Inv(cfg, u) && u.job == s.job && Owning(u, k) && u.live[k].phase.Ending?
  {
    match s.live[k].phase
    case Executing =>
      var v := InPhase(s, k, Erring(""));
      Moves(cfg, s, t, k, Raise(""), v);
      u := ErringSettles(cfg, v, t, k);
      CanOn(cfg, Any(), s, t, v, t, u, t);
    case Erring(_) => u := ErringSettles(cfg, s, t, k);
    case Ending(_) =>
      u := s;
      CanStay(cfg, Any(), s, t, t);
  }

  lemma WaitingExceeds(cfg: Settings, s: JobState, t: Time)
    requires Inv(cfg, s) && Waiting(s) && s.job.attempts >= s.job.spec.maxAttempts
    ensures CanExceed(cfg, s, t)
  {
    var u := Starts(cfg, s, t, "");
  }

  lemma OwningExceeds(cfg: Settings, s: JobState, t: Time, k: nat)
    requires Inv(cfg, s) && s.job.status.Running? && Owning(s, k) && s.job.attempts >= s.job.spec.maxAttempts
    ensures CanExceed(cfg, s, t)
  {
    var u := SettlesOnRetry(cfg, s, t, k);
    var v, e := Finalized(u, k, t), At(t, Run(k, Finalize));
    assert v == Stepper(cfg)(u, e);
    CanStep(cfg, Any(), u, t, e, v);
    CanKeeps(cfg, Any(), u, t, v, t);
    WaitingExceeds(cfg, v, t);
    ExceedsLater(cfg, u, t, v, t);
    ExceedsLater(cfg, s, t, u, t);
  }

  /** The last start goes to the worker id of an older attempt that can still retry. */
  lemma SharedExceeds(cfg: Settings, s: JobState, t: Time, k: nat)
    requires Inv(cfg, s) && !s.job.status.Terminal() && !s.job.status.Cancelling?
    requires s.job.attempts == s.job.spec.maxAttempts - 1 && Retriable(s, k)
    ensures CanExceed(cfg, s, t)
  {
    assert LiveShape(s, k);
    var u, v := BackToQueue(cfg, s, t);
    var x := Starts(cfg, u, v, u.live[k].worker);
    OwningExceeds(cfg, x, v, k);
    ExceedsLater(cfg, u, v, x, v);
    ExceedsLater(cfg, s, t, u, v);
  }

  lemma {:induction false} EarlyExceeds(cfg: Settings, s: JobState, t: Time)
    requires Inv(cfg, s) && !s.job.status.Terminal() && !s.job.status.Cancelling?
    requires s.job.attempts <= s.job.spec.maxAttempts - 2
    ensures CanExceed(cfg, s, t)
    decreases s.job.spec.maxAttempts - s.job.attempts
  {
    var u, v := BackToQueue(cfg, s, t);
    var x := Starts(cfg, u, v, "");
    if x.job.attempts == x.job.spec.maxAttempts - 1 {
      SharedExceeds(cfg, x, v, s.job.attempts);
    } else {
      EarlyExceeds(cfg, x, v);
    }
    ExceedsLater(cfg, u, v, x, v);
    ExceedsLater(cfg, s, t, u, v);
  }

  /** From a sound state some run takes the job beyond its limit if and only if the state is overrunnable. */
  lemma ExceedsIff(cfg: Settings, s: JobState, t: Time)
    requires Inv(cfg, s)
    ensures CanExceed(cfg, s, t) <==> Overrunnable(s)
  {
    if Overrunnable(s) {
      var n, m := s.job.attempts, s.job.spec.maxAttempts;
      if n > m {
        CanStay(cfg, Any(), s, t, t);
      } else if n <= m - 2 {
        EarlyExceeds(cfg, s, t);
      } else if n == m - 1 {
        var k :| Retriable(s, k);
        SharedExceeds(cfg, s, t, k);
      } else if Waiting(s) {
        WaitingExceeds(cfg, s, t);
      } else {
        var k :| Owning(s, k);
        OwningExceeds(cfg, s, t, k);
      }
    } else if CanExceed(cfg, s, t) {
      var s', t' :| Can(cfg, Any(), s, t, s', t') && s'.job.attempts > s'.job.spec.maxAttempts;
      var trace :| RunsTo(cfg, Any(), s, t, trace, s', t');
      KeptForever(cfg, s, trace);
      SpecForever(cfg, s, trace);
    }
  }
}
