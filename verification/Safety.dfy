// Safety of one job over every run: transitions, absorbing states, cancellation, fencing, the
// single committed result.
module Safety {
  import opened Domain
  import opened StateMachine
  import opened JobRows
  import opened Traces
  import opened Lifecycle
  import opened Invariants
  import opened Flows

  // ---------- transitions

  /** Every status change is in the documented table or is the claim of a retrying job. */
  lemma StepEdge(cfg: Settings, s: JobState, now: Time, a: Action)
    requires Inv(cfg, s)
    ensures var status := Step(cfg, s, now, a).job.status; (status == s.job.status || Edge(s.job.status, status))
  {
    var flow := StepFlow(cfg, s, now, a);
  }

  // ---------- what a run never changes

  /** A terminal row is frozen: no statement of any process changes any of its columns. */
  lemma TerminalStep(cfg: Settings, s: JobState, now: Time, a: Action)
    requires s.job.status.Terminal()
    ensures Step(cfg, s, now, a).job == s.job
  {
  }

  lemma TerminalForever(cfg: Settings, s: JobState, trace: seq<Stamped>)
    requires s.job.status.Terminal()
    ensures After(cfg, s, trace).job == s.job
  {
    var f, inv := Stepper(cfg), (t: JobState) => t.job == s.job;
    forall t: JobState, e: Stamped | inv(t) ensures inv(f(t, e)) { TerminalStep(cfg, t, e.now, e.action); }
    FoldInvariant(f, s, trace, inv);
  }

  lemma SpecStep(cfg: Settings, s: JobState, now: Time, a: Action)
    ensures Step(cfg, s, now, a).job.spec == s.job.spec
  {
  }

  lemma SpecForever(cfg: Settings, s: JobState, trace: seq<Stamped>)
    ensures After(cfg, s, trace).job.spec == s.job.spec
  {
    var f, inv := Stepper(cfg), (t: JobState) => t.job.spec == s.job.spec;
    forall t: JobState, e: Stamped | inv(t) ensures inv(f(t, e)) { SpecStep(cfg, t, e.now, e.action); }
    FoldInvariant(f, s, trace, inv);
  }

  /** A job row and its single notification reach the terminal status together, in every run. */
  lemma ExactlyOneNotification(cfg: Settings, spec: JobSpec, trace: seq<Stamped>)
    requires spec.maxAttempts >= 1
    ensures var s := After(cfg, Submitted(spec), trace);
            && (s.job.status.Terminal() <==> |s.notices| == 1)
            && (!s.job.status.Terminal() <==> |s.notices| == 0)
            && (s.job.status.Terminal() ==>
                  s.notices[0].event == FinalEvent(s.job.status) && s.notices[0].jobStatus == s.job.status
                  && s.notices[0].result == s.job.result)
  {
    SubmittedInv(cfg, spec);
    AlwaysInv(cfg, Submitted(spec), trace);
  }

  /**
   * A notification is pending exactly while it is undelivered with attempts left, and has failed exactly
   * when the last attempt failed; it is never attempted again after that.
   */
  lemma NotificationDelivery(cfg: Settings, spec: JobSpec, trace: seq<Stamped>, i: nat)
    requires spec.maxAttempts >= 1 && i < |After(cfg, Submitted(spec), trace).notices|
    ensures var n, max := After(cfg, Submitted(spec), trace).notices[i], MaxDeliveries(cfg);
            && n.attempts <= max
            && (n.status.NoticePending? <==> !n.status.NoticeSent? && n.attempts < max)
            && (n.status.NoticeFailed? <==> !n.status.NoticeSent? && n.attempts == max)
            && (n.status.NoticeSent? ==> n.attempts >= 1)
  {
    SubmittedInv(cfg, spec);
    AlwaysInv(cfg, Submitted(spec), trace);
  }

  /** The event log alone, replayed in append order, gives the stored status and attempt count. */
  lemma EventLogRefinesStatus(cfg: Settings, spec: JobSpec, trace: seq<Stamped>)
    requires spec.maxAttempts >= 1
    ensures var s := After(cfg, Submitted(spec), trace);
            Replay(s.events) == s.job.status && Count(s.events, StartedEvent) == s.job.attempts == |s.attempts|
  {
    SubmittedInv(cfg, spec);
    AlwaysInv(cfg, Submitted(spec), trace);
  }

  // ---------- cancellation

  predicate CancelAccepted(s: JobState) { s.job.cancellationRequestedAt.Some? }

  lemma CancelStep(cfg: Settings, s: JobState, now: Time, a: Action)
    requires Inv(cfg, s) && CancelAccepted(s)
    ensures var s' := Step(cfg, s, now, a);
            && s'.job.cancellationRequestedAt == s.job.cancellationRequestedAt
            && s'.job.attempts == s.job.attempts
  {
  }

  /** Once a cancel is accepted no run starts another attempt, retries or requeues the job. */
  lemma CancellationIsFinal(cfg: Settings, s: JobState, trace: seq<Stamped>)
    requires Inv(cfg, s) && CancelAccepted(s)
    ensures var s' := After(cfg, s, trace);
            s'.job.attempts == s.job.attempts && (s'.job.status.Cancelling? || s'.job.status.Terminal())
  {
    var f := Stepper(cfg);
    var inv := (t: JobState) => Inv(cfg, t) && CancelAccepted(t) && t.job.attempts == s.job.attempts;
    forall t: JobState, e: Stamped | inv(t) ensures inv(f(t, e)) {
      StepKeeps(cfg, t, e.now, e.action);
      CancelStep(cfg, t, e.now, e.action);
    }
    FoldInvariant(f, s, trace, inv);
  }

  /** Only a coroutine carrying the `locked_by` id takes a job out of CANCELLING. */
  lemma OnlyOwnerLeavesCancelling(cfg: Settings, s: JobState, now: Time, a: Action)
    requires Inv(cfg, s) && s.job.status.Cancelling?
    ensures Step(cfg, s, now, a).job.status == s.job.status
            || (a.Run? && a.move.Finalize? && a.attempt in s.live
                && s.job.lockedBy == Some(s.live[a.attempt].worker))
  {
  }

  /** A coroutine that can still finish the job: it carries the owner's id and is not about to retry. */
  predicate CanFinish(s: JobState, id: nat) {
    && id in s.live
    && s.job.lockedBy == Some(s.live[id].worker)
    && !(s.live[id].phase.Ending? && s.live[id].phase.outcome.CommitRetry?)
  }

  predicate Stranded(s: JobState) { s.job.status.Cancelling? && forall id :: id in s.live ==> !CanFinish(s, id) }

  lemma StrandedRun(cfg: Settings, s: JobState, now: Time, id: nat, move: Move)
    requires Inv(cfg, s) && Stranded(s) && id in s.live
    ensures Stranded(RunStep(cfg, s, now, id, move))
  {
    var s' := RunStep(cfg, s, now, id, move);
    assert !CanFinish(s, id);
    forall k | k in s'.live ensures !CanFinish(s', k) {
      assert !CanFinish(s, k);
    }
  }

  lemma StrandedStep(cfg: Settings, s: JobState, now: Time, a: Action)
    requires Inv(cfg, s) && Stranded(s)
    ensures Stranded(Step(cfg, s, now, a))
  {
    if a.Run? && a.attempt in s.live {
      StrandedRun(cfg, s, now, a.attempt, a.move);
    } else {
      assert Step(cfg, s, now, a).job == s.job && Step(cfg, s, now, a).live == s.live;
    }
  }

  lemma StrandedForever(cfg: Settings, s: JobState, trace: seq<Stamped>)
    requires Inv(cfg, s) && Stranded(s)
    ensures After(cfg, s, trace).job.status.Cancelling?
  {
    var f, inv := Stepper(cfg), (t: JobState) => Inv(cfg, t) && Stranded(t);
    forall t: JobState, e: Stamped | inv(t) ensures inv(f(t, e)) {
      StepKeeps(cfg, t, e.now, e.action);
      StrandedStep(cfg, t, e.now, e.action);
    }
    FoldInvariant(f, s, trace, inv);
  }

  /** The two or three steps with which a coroutine that can finish does finish. */
  function FinishingTrace(s: JobState, id: nat, now: Time): seq<Stamped>
    requires id in s.live
  {
    match s.live[id].phase
    case Executing => [At(now, Run(id, ObserveCancel)), At(now, Run(id, Finalize))]
    case Erring(_) => [At(now, Run(id, Decide(0.0))), At(now, Run(id, Finalize))]
    case Ending(_) => [At(now, Run(id, Finalize))]
  }

  lemma AfterOne(cfg: Settings, s: JobState, e: Stamped)
    ensures After(cfg, s, [e]) == Step(cfg, s, e.now, e.action)
  {
    FoldSnoc(Stepper(cfg), s, [], e);
    assert [] + [e] == [e];
  }

  lemma AfterTwo(cfg: Settings, s: JobState, a: Stamped, b: Stamped)
    ensures After(cfg, s, [a, b]) == Step(cfg, Step(cfg, s, a.now, a.action), b.now, b.action)
  {
    AfterOne(cfg, s, a);
    FoldSnoc(Stepper(cfg), s, [a], b);
    assert [a] + [b] == [a, b];
  }

  lemma Onwards(cfg: Settings, s: JobState, trace: seq<Stamped>, i: nat, j: nat)
    requires i <= j <= |trace|
    ensures After(cfg, s, trace[..j]) == After(cfg, After(cfg, s, trace[..i]), trace[i..j])
  {
    FoldConcat(Stepper(cfg), s, trace[..i], trace[i..j]);
    assert trace[..i] + trace[i..j] == trace[..j];
  }

  lemma FinalizeFinishes(cfg: Settings, s: JobState, id: nat, now: Time)
    requires s.job.status.Cancelling? && CanFinish(s, id) && s.live[id].phase.Ending?
    ensures Step(cfg, s, now, Run(id, Finalize)).job.status.Terminal()
  {
  }

  lemma FinishingTraceFinishes(cfg: Settings, s: JobState, id: nat, now: Time)
    requires Inv(cfg, s) && s.job.status.Cancelling? && CanFinish(s, id)
    ensures After(cfg, s, FinishingTrace(s, id, now)).job.status.Terminal()
  {
    var trace := FinishingTrace(s, id, now);
    if s.live[id].phase.Ending? {
      AfterOne(cfg, s, trace[0]);
      FinalizeFinishes(cfg, s, id, now);
    } else {
      var s' := Step(cfg, s, now, trace[0].action);
      AfterTwo(cfg, s, trace[0], trace[1]);
      assert s' == InPhase(s, id, Ending(CommitCancel));
      FinalizeFinishes(cfg, s', id, now);
    }
  }

  /** A CANCELLING job can still end if and only if some coroutine of its owner can finish it. */
  lemma CancellingEndsIff(cfg: Settings, s: JobState, now: Time)
    requires Inv(cfg, s) && s.job.status.Cancelling?
    ensures (exists trace :: After(cfg, s, trace).job.status.Terminal()) <==> !Stranded(s)
  {
    if Stranded(s) {
      forall trace ensures !After(cfg, s, trace).job.status.Terminal() { StrandedForever(cfg, s, trace); }
    } else {
      var id :| id in s.live && CanFinish(s, id);
      FinishingTraceFinishes(cfg, s, id, now);
    }
  }

  // ---------- fencing and the committed result

  /** A finalizer whose id is not `locked_by` changes its own attempt row and nothing else. */
  lemma FencedFinalizer(cfg: Settings, s: JobState, now: Time, id: nat)
    requires Inv(cfg, s) && id in s.live && s.live[id].phase.Ending?
    requires s.job.lockedBy != Some(s.live[id].worker)
    ensures Step(cfg, s, now, Run(id, Finalize)) ==
            s.(attempts := s.attempts[id := s.attempts[id].(status := Failed, errorCode := Some(SUPERSEDED_CODE))],
               live := s.live - {id})
  {
    assert LiveShape(s, id);
  }

  function Winners(s: JobState): set<nat> {
    set i | 0 <= i < |s.attempts| && s.attempts[i].status.Succeeded?
  }

  /** The step commits the result `r` of attempt `id`. */
  predicate Commits(s: JobState, a: Action, id: nat, r: Result) {
    && a == Run(id, Finalize) && id in s.live && s.live[id].phase == Ending(CommitResult(r))
    && Finalizable(s.job, s.live[id].worker)
  }

  lemma CommitStep(cfg: Settings, s: JobState, now: Time, id: nat, r: Result)
    requires Inv(cfg, s) && Commits(s, Run(id, Finalize), id, r)
    ensures var s' := Step(cfg, s, now, Run(id, Finalize));
            Winners(s') == Winners(s) + {id} && s'.job.status.Succeeded? && s'.job.result == Some(r)
  {
    assert LiveShape(s, id);
    assert Step(cfg, s, now, Run(id, Finalize)) == CommittedResult(s, id, r, now);
  }

  lemma OtherFinalizer(cfg: Settings, s: JobState, now: Time, id: nat)
    requires Inv(cfg, s) && id in s.live && s.live[id].phase.Ending?
    requires forall r: Result :: !Commits(s, Run(id, Finalize), id, r)
    ensures var s' := Finalized(s, id, now);
            && Winners(s') == Winners(s) && s'.job.result == s.job.result
            && (s'.job.status.Succeeded? ==> s.job.status.Succeeded?)
  {
    assert LiveShape(s, id);
    if s.live[id].phase.outcome.CommitResult? {
      assert !Commits(s, Run(id, Finalize), id, s.live[id].phase.outcome.result);
    }
    var s' := Finalized(s, id, now);
    assert forall i :: 0 <= i < |s.attempts| ==>
      (s'.attempts[i].status.Succeeded? <==> s.attempts[i].status.Succeeded?);
  }

  lemma OtherStep(cfg: Settings, s: JobState, now: Time, a: Action)
    requires Inv(cfg, s)
    requires forall id: nat, r: Result :: !Commits(s, a, id, r)
    ensures var s' := Step(cfg, s, now, a);
            && Winners(s') == Winners(s) && s'.job.result == s.job.result
            && (s'.job.status.Succeeded? ==> s.job.status.Succeeded?)
  {
    if a.Run? && a.attempt in s.live && a.move.Finalize? && s.live[a.attempt].phase.Ending? {
      OtherFinalizer(cfg, s, now, a.attempt);
    }
  }

  /** Step `i` of the trace commits the result of attempt `id`. */
  predicate CommittedAt(cfg: Settings, s: JobState, trace: seq<Stamped>, i: nat, id: nat, r: Result) {
    i < |trace| && Commits(After(cfg, s, trace[..i]), trace[i].action, id, r)
  }

  /** SUCCEEDED, with one winning row, exactly when some step of the trace committed its result. */
  ghost predicate ResultFromTrace(cfg: Settings, init: JobState, trace: seq<Stamped>, s: JobState) {
    if s.job.status.Succeeded? then
      exists i: nat, id: nat, r: Result ::
        CommittedAt(cfg, init, trace, i, id, r) && Winners(s) == {id} && s.job.result == Some(r)
    else Winners(s) == {} && s.job.result == None
  }

  lemma ResultFromLonger(cfg: Settings, init: JobState, trace: seq<Stamped>, e: Stamped, s: JobState)
    requires s.job.status.Succeeded? && ResultFromTrace(cfg, init, trace, s)
    ensures ResultFromTrace(cfg, init, trace + [e], s)
  {
    var i: nat, id: nat, r :| CommittedAt(cfg, init, trace, i, id, r)
      && Winners(s) == {id} && s.job.result == Some(r);
    assert (trace + [e])[..i] == trace[..i];
    assert CommittedAt(cfg, init, trace + [e], i, id, r);
  }

  lemma ResultStep(cfg: Settings, init: JobState, trace: seq<Stamped>, e: Stamped, s: JobState)
    requires s == After(cfg, init, trace) && Inv(cfg, s) && ResultFromTrace(cfg, init, trace, s)
    ensures ResultFromTrace(cfg, init, trace + [e], Step(cfg, s, e.now, e.action))
  {
    var s' := Step(cfg, s, e.now, e.action);
    if id: nat, r: Result :| Commits(s, e.action, id, r) {
      CommitStep(cfg, s, e.now, id, r);
      assert (trace + [e])[..|trace|] == trace;
      assert CommittedAt(cfg, init, trace + [e], |trace|, id, r);
      assert !s.job.status.Succeeded?;
      assert Winners(s') == {id};
    } else {
      OtherStep(cfg, s, e.now, e.action);
      if s.job.status.Succeeded? {
        TerminalStep(cfg, s, e.now, e.action);
        ResultFromLonger(cfg, init, trace, e, s);
        assert ResultFromTrace(cfg, init, trace + [e], s);
        assert ResultFromTrace(cfg, init, trace + [e], s');
      }
    }
  }

  /**
   * In every run, a job is SUCCEEDED exactly when one attempt row is SUCCEEDED, and its result is the
   * one that attempt's coroutine returned and committed at some step of the run.
   */
  lemma {:induction false} SingleCommit(cfg: Settings, init: JobState, trace: seq<Stamped>)
    requires Inv(cfg, init) && init.job.status.Pending?
    ensures ResultFromTrace(cfg, init, trace, After(cfg, init, trace))
    decreases |trace|
  {
    if trace == [] {
      assert Winners(init) == {};
    } else {
      var n := |trace| - 1;
      SingleCommit(cfg, init, trace[..n]);
      AlwaysInv(cfg, init, trace[..n]);
      assert trace == trace[..n] + [trace[n]];
      FoldSnoc(Stepper(cfg), init, trace[..n], trace[n]);
      ResultStep(cfg, init, trace[..n], trace[n], After(cfg, init, trace[..n]));
    }
  }
}
