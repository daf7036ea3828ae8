// Which jobs can still end: from every reachable state some run of the scheduler and the workers ends the
// job, unless it is stranded in CANCELLING.
module Progress {
  import opened Domain
  import opened Traces
  import opened Lifecycle
  import opened Invariants
  import opened Safety
  import opened Execution

  // ---------- runs from one state to another

  type Choice = (JobState, Stamped) -> bool

  /** A run from `s` at `t` to `s'` at `t'`, at nondecreasing times, of steps that `ok` admits. */
  ghost predicate RunsTo(cfg: Settings, ok: Choice, s: JobState, t: Time, trace: seq<Stamped>, s': JobState, t': Time) {
    && After(cfg, s, trace) == s' && t <= t'
    && (forall i :: 0 <= i < |trace| ==> ok(After(cfg, s, trace[..i]), trace[i]))
    && (forall i :: 0 <= i < |trace| ==> t <= trace[i].now <= t')
    && (forall i, j :: 0 <= i < j < |trace| ==> trace[i].now <= trace[j].now)
  }

  ghost predicate Can(cfg: Settings, ok: Choice, s: JobState, t: Time, s': JobState, t': Time) {
    exists trace :: RunsTo(cfg, ok, s, t, trace, s', t')
  }

  lemma CanStay(cfg: Settings, ok: Choice, s: JobState, t: Time, t': Time)
    requires t <= t'
    ensures Can(cfg, ok, s, t, s, t')
  {
    assert RunsTo(cfg, ok, s, t, [], s, t');
  }

  lemma CanStep(cfg: Settings, ok: Choice, s: JobState, t: Time, e: Stamped, s': JobState)
    requires ok(s, e) && t <= e.now && s' == Stepper(cfg)(s, e)
    ensures Can(cfg, ok, s, t, s', e.now)
  {
    FoldSnoc(Stepper(cfg), s, [], e);
    assert [] + [e] == [e];
    assert After(cfg, s, []) == s;
    assert RunsTo(cfg, ok, s, t, [e], s', e.now);
  }

  lemma ChoicesJoin(cfg: Settings, ok: Choice, a: JobState, x: seq<Stamped>, b: JobState, y: seq<Stamped>)
    requires After(cfg, a, x) == b
    requires forall i :: 0 <= i < |x| ==> ok(After(cfg, a, x[..i]), x[i])
    requires forall i :: 0 <= i < |y| ==> ok(After(cfg, b, y[..i]), y[i])
    ensures forall i :: 0 <= i < |x + y| ==> ok(After(cfg, a, (x + y)[..i]), (x + y)[i])
  {
    forall i | 0 <= i < |x + y| ensures ok(After(cfg, a, (x + y)[..i]), (x + y)[i]) {
      if i < |x| {
        assert (x + y)[..i] == x[..i];
      } else {
        assert (x + y)[..i] == x + y[..i - |x|];
        FoldConcat(Stepper(cfg), a, x, y[..i - |x|]);
      }
    }
  }

  lemma RunsJoin(cfg: Settings, ok: Choice, a: JobState, t: Time, x: seq<Stamped>, b: JobState, u: Time,
                 y: seq<Stamped>, c: JobState, v: Time)
    requires RunsTo(cfg, ok, a, t, x, b, u) && RunsTo(cfg, ok, b, u, y, c, v)
    ensures RunsTo(cfg, ok, a, t, x + y, c, v)
  {
    FoldConcat(Stepper(cfg), a, x, y);
    ChoicesJoin(cfg, ok, a, x, b, y);
  }

  lemma CanOn(cfg: Settings, ok: Choice, a: JobState, t: Time, b: JobState, u: Time, c: JobState, v: Time)
    requires Can(cfg, ok, a, t, b, u) && Can(cfg, ok, b, u, c, v)
    ensures Can(cfg, ok, a, t, c, v)
  {
    var x :| RunsTo(cfg, ok, a, t, x, b, u);
    var y :| RunsTo(cfg, ok, b, u, y, c, v);
    RunsJoin(cfg, ok, a, t, x, b, u, y, c, v);
  }

  /** What a run reaches is sound, and has the job's immutable columns. */
  lemma CanKeeps(cfg: Settings, ok: Choice, s: JobState, t: Time, s': JobState, t': Time)
    requires Inv(cfg, s) && Can(cfg, ok, s, t, s', t')
    ensures Inv(cfg, s') && s'.job.spec == s.job.spec && t <= t'
  {
    var trace :| RunsTo(cfg, ok, s, t, trace, s', t');
    AlwaysInv(cfg, s, trace);
    SpecForever(cfg, s, trace);
  }

  // ---------- runs without a cancel, an expiry or a crash

  /** No new cancel, no expiry, no crash, and handlers of job `id` that end as they intend. */
  predicate UnforcedStep(cfg: Settings, job: JobId, s: JobState, e: Stamped) {
    match e.action
    case RequestCancel => false
    case Scheduled(ExpireStale) => false
    case Run(_, Drop) => false
    case Run(id, Return(result)) => Intends(cfg, job, s, id, Returned(result))
    case Run(id, Raise(code)) => Intends(cfg, job, s, id, Retryable(code))
    case Run(id, RaiseFatal(code)) => Intends(cfg, job, s, id, Fatal(code))
    case _ => true
  }

  function Unforced(cfg: Settings, job: JobId): Choice { (s: JobState, e: Stamped) => UnforcedStep(cfg, job, s, e) }

  ghost predicate CanEnd(cfg: Settings, job: JobId, s: JobState, t: Time) {
    exists s', t' :: Can(cfg, Unforced(cfg, job), s, t, s', t') && s'.job.status.Terminal()
  }

  lemma EndsLater(cfg: Settings, job: JobId, s: JobState, t: Time, u: JobState, v: Time)
    requires Can(cfg, Unforced(cfg, job), s, t, u, v) && CanEnd(cfg, job, u, v)
    ensures CanEnd(cfg, job, s, t)
  {
    var s', t' :| Can(cfg, Unforced(cfg, job), u, v, s', t') && s'.job.status.Terminal();
    CanOn(cfg, Unforced(cfg, job), s, t, u, v, s', t');
  }

  /** Attempt `id` holds the row. */
  predicate Holder(s: JobState, id: nat) {
    id in s.live && s.job.status.Held() && s.job.lockedBy == Some(s.live[id].worker)
  }

  /** The job has ended, or has used up attempt `id` below the limit and waits for its retry. */
  predicate EndedOrRetrying(s: JobState, id: nat, s': JobState) {
    || s'.job.status.Terminal()
    || (s'.job.status.Retrying? && !s.job.status.Cancelling? && s'.job.attempts == s.job.attempts
        && id + 1 < s.job.spec.maxAttempts)
  }

  /** The coroutine commits what it has decided. */
  lemma FinalizeEnds(cfg: Settings, job: JobId, s: JobState, t: Time, id: nat) returns (s': JobState)
    requires Inv(cfg, s) && Holder(s, id) && s.live[id].phase.Ending?
    requires s.job.status.Cancelling? ==> !s.live[id].phase.outcome.CommitRetry?
    ensures Can(cfg, Unforced(cfg, job), s, t, s', t) && EndedOrRetrying(s, id, s')
  {
    assert LiveShape(s, id);
    s' := Finalized(s, id, t);
    var e := At(t, Run(id, Finalize));
    assert s' == Stepper(cfg)(s, e);
    CanStep(cfg, Unforced(cfg, job), s, t, e, s');
  }

  lemma MoveOn(cfg: Settings, job: JobId, s: JobState, t: Time, id: nat, move: Move, s': JobState)
    requires id in s.live && Local(move) && UnforcedStep(cfg, job, s, At(t, Run(id, move)))
    requires s' == InPhase(s, id, NextPhase(s.job, s.live[id], move, t))
    ensures Can(cfg, Unforced(cfg, job), s, t, s', t)
  {
    var e := At(t, Run(id, move));
    assert s' == Stepper(cfg)(s, e);
    CanStep(cfg, Unforced(cfg, job), s, t, e, s');
  }

  lemma ErringEnds(cfg: Settings, job: JobId, s: JobState, t: Time, id: nat) returns (s': JobState)
    requires Inv(cfg, s) && Holder(s, id) && s.live[id].phase.Erring?
    ensures Can(cfg, Unforced(cfg, job), s, t, s', t) && EndedOrRetrying(s, id, s')
  {
    var next := NextPhase(s.job, s.live[id], Decide(0.0), t);
    var u := InPhase(s, id, next);
    MoveOn(cfg, job, s, t, id, Decide(0.0), u);
    CanKeeps(cfg, Unforced(cfg, job), s, t, u, t);
    s' := FinalizeEnds(cfg, job, u, t, id);
    CanOn(cfg, Unforced(cfg, job), s, t, u, t, s', t);
  }

  /** The last move of a handler that ends as it intends. */
  function LastMove(handled: Handled): Move {
    match handled
    case Returned(result) => Return(result)
    case Retryable(code) => Raise(code)
    case Fatal(code) => RaiseFatal(code)
    case CancelObserved => ObserveCancel
  }

  lemma ExecutingEnds(cfg: Settings, job: JobId, s: JobState, t: Time, id: nat) returns (s': JobState)
    requires Inv(cfg, s) && Holder(s, id) && s.live[id].phase.Executing?
    ensures Can(cfg, Unforced(cfg, job), s, t, s', t) && EndedOrRetrying(s, id, s')
  {
    var move := LastMove(Intended(cfg, Ticket(job, id, s.live[id].number, s.live[id].worker, s.job.spec)));
    var u := InPhase(s, id, NextPhase(s.job, s.live[id], move, t));
    MoveOn(cfg, job, s, t, id, move, u);
    CanKeeps(cfg, Unforced(cfg, job), s, t, u, t);
    if u.live[id].phase.Erring? {
      s' := ErringEnds(cfg, job, u, t, id);
    } else {
      s' := FinalizeEnds(cfg, job, u, t, id);
    }
    CanOn(cfg, Unforced(cfg, job), s, t, u, t, s', t);
  }

  /** A queued job is claimed and its attempt runs to its end. */
  lemma QueuedAttempt(cfg: Settings, job: JobId, s: JobState, t: Time) returns (s': JobState)
    requires Inv(cfg, s) && s.job.status.Queued?
    ensures Can(cfg, Unforced(cfg, job), s, t, s', t)
    ensures s'.job.status.Terminal()
            || (s'.job.status.Retrying? && s'.job.attempts == s.job.attempts + 1 < s.job.spec.maxAttempts)
  {
    var u, id, e := ClaimedBy(cfg, s, "", t), |s.attempts|, At(t, Claim(""));
    assert u == Stepper(cfg)(s, e);
    CanStep(cfg, Unforced(cfg, job), s, t, e, u);
    CanKeeps(cfg, Unforced(cfg, job), s, t, u, t);
    s' := ExecutingEnds(cfg, job, u, t, id);
    CanOn(cfg, Unforced(cfg, job), s, t, u, t, s', t);
  }

  /** When the scheduler next finds the job due. */
  function Due(s: JobState, t: Time): Time {
    var deadline := if s.job.status.Retrying? then s.job.nextAttemptAt
                    else if s.job.status.Running? then s.job.lockExpiresAt else None;
    if deadline.Some? && t <= deadline.value then deadline.value + 1.0 else t
  }

  /** A scheduler pass takes a job that is not queued back to the queue, or fails it on a lost last lease. */
  lemma PassMoves(cfg: Settings, job: JobId, s: JobState, t: Time) returns (s': JobState)
    requires Inv(cfg, s) && (s.job.status.Pending? || s.job.status.Retrying? || s.job.status.Running?)
    ensures Can(cfg, Unforced(cfg, job), s, t, s', Due(s, t)) && s'.job.attempts == s.job.attempts
    ensures s'.job.status.Queued? || s'.job.status.Terminal()
  {
    var u := Due(s, t);
    var pass := if s.job.status.Pending? then DispatchRow
                else if s.job.status.Retrying? then PromoteRetry else ReapLease;
    s' := PassStep(cfg, s, u, pass);
    assert s' == Stepper(cfg)(s, At(u, Scheduled(pass)));
    CanStep(cfg, Unforced(cfg, job), s, t, At(u, Scheduled(pass)), s');
  }

  function AttemptsLeft(s: JobState): nat {
    if s.job.attempts < s.job.spec.maxAttempts then s.job.spec.maxAttempts - s.job.attempts else 0
  }

  lemma {:induction false} ActiveEnds(cfg: Settings, job: JobId, s: JobState, t: Time)
    requires Inv(cfg, s) && !s.job.status.Cancelling?
    ensures CanEnd(cfg, job, s, t)
    decreases AttemptsLeft(s), if s.job.status.Queued? then 0 else 1
  {
    if s.job.status.Terminal() {
      CanStay(cfg, Unforced(cfg, job), s, t, t);
    } else if s.job.status.Queued? {
      var u := QueuedAttempt(cfg, job, s, t);
      CanKeeps(cfg, Unforced(cfg, job), s, t, u, t);
      if !u.job.status.Terminal() {
        ActiveEnds(cfg, job, u, t);
        EndsLater(cfg, job, s, t, u, t);
      }
    } else {
      var u := PassMoves(cfg, job, s, t);
      CanKeeps(cfg, Unforced(cfg, job), s, t, u, Due(s, t));
      if !u.job.status.Terminal() {
        ActiveEnds(cfg, job, u, Due(s, t));
        EndsLater(cfg, job, s, t, u, Due(s, t));
      }
    }
  }

  lemma CancellingEnds(cfg: Settings, job: JobId, s: JobState, t: Time, id: nat)
    requires Inv(cfg, s) && s.job.status.Cancelling? && CanFinish(s, id)
    ensures CanEnd(cfg, job, s, t)
  {
    var u;
    match s.live[id].phase {
      case Executing => u := ExecutingEnds(cfg, job, s, t, id);
      case Erring(_) => u := ErringEnds(cfg, job, s, t, id);
      case Ending(_) => u := FinalizeEnds(cfg, job, s, t, id);
    }
  }

  /**
   * No deadlock, for every payload: from any sound state a run without a cancel, an expiry or a crash ends the
   * job if and only if it is not stranded in CANCELLING.
   */
  lemma EndsIff(cfg: Settings, job: JobId, s: JobState, t: Time)
    requires Inv(cfg, s)
    ensures CanEnd(cfg, job, s, t) <==> !Stranded(s)
  {
    if Stranded(s) {
      if CanEnd(cfg, job, s, t) {
        var s', t' :| Can(cfg, Unforced(cfg, job), s, t, s', t') && s'.job.status.Terminal();
        var trace :| RunsTo(cfg, Unforced(cfg, job), s, t, trace, s', t');
        StrandedForever(cfg, s, trace);
      }
    } else if s.job.status.Cancelling? {
      var id :| id in s.live && CanFinish(s, id);
      CancellingEnds(cfg, job, s, t, id);
    } else {
      ActiveEnds(cfg, job, s, t);
    }
  }
}
