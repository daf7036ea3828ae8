// Nothing fires before its time: retries, leases, expiry and notifications over whole runs.
module Timing {
  import opened Domain
  import opened Traces
  import opened Lifecycle
  import opened Invariants
  import opened Safety
  import opened Columns

  lemma NextState(cfg: Settings, s: JobState, trace: seq<Stamped>, i: nat)
    requires i < |trace|
    ensures After(cfg, s, trace[..i + 1]) == Step(cfg, After(cfg, s, trace[..i]), trace[i].now, trace[i].action)
  {
    assert trace[..i + 1] == trace[..i] + [trace[i]];
    FoldSnoc(Stepper(cfg), s, trace[..i], trace[i]);
  }

  // ---------- retries

  /** While a job waits for its retry, the time of that retry stands. */
  lemma {:induction false} RetryTimeStands(cfg: Settings, s: JobState, trace: seq<Stamped>, i: nat, j: nat)
    requires Inv(cfg, s) && i <= j <= |trace|
    requires forall k :: i <= k <= j ==> After(cfg, s, trace[..k]).job.status.Retrying?
    ensures After(cfg, s, trace[..j]).job.nextAttemptAt == After(cfg, s, trace[..i]).job.nextAttemptAt
    decreases j
  {
    if i < j {
      RetryTimeStands(cfg, s, trace, i, j - 1);
      var before := After(cfg, s, trace[..j - 1]);
      AlwaysInv(cfg, s, trace[..j - 1]);
      NextState(cfg, s, trace, j - 1);
      QuietEffect(cfg, before, trace[j - 1].now, trace[j - 1].action);
    }
  }

  /** A scheduled retry is not promoted before the time its attempt chose, however long the job has waited. */
  lemma RetryWaits(cfg: Settings, s: JobState, trace: seq<Stamped>, i: nat, j: nat)
    requires Inv(cfg, s) && i <= j < |trace|
    requires forall k :: i <= k <= j ==> After(cfg, s, trace[..k]).job.status.Retrying?
    requires trace[j].action == Scheduled(PromoteRetry) && After(cfg, s, trace[..j + 1]) != After(cfg, s, trace[..j])
    ensures After(cfg, s, trace[..i]).job.nextAttemptAt.Some?
            && After(cfg, s, trace[..i]).job.nextAttemptAt.value <= trace[j].now
  {
    AlwaysInv(cfg, s, trace[..i]);
    AlwaysInv(cfg, s, trace[..j]);
    RetryTimeStands(cfg, s, trace, i, j);
    NextState(cfg, s, trace, j);
    PromotesIff(cfg, After(cfg, s, trace[..j]), trace[j].now);
  }

  // ---------- leases

  /** The row's lease, if it has one, reaches at least `t` plus the lease time. */
  predicate LeasedFrom(cfg: Settings, s: JobState, t: Time) {
    s.job.lockExpiresAt.Some? ==> t + cfg.leaseSeconds <= s.job.lockExpiresAt.value
  }

  lemma LeaseStep(cfg: Settings, s: JobState, now: Time, a: Action, t: Time)
    requires Inv(cfg, s) && LeasedFrom(cfg, s, t) && t <= now
    ensures LeasedFrom(cfg, Step(cfg, s, now, a), t)
  {
    if Step(cfg, s, now, a).job.status == s.job.status {
      QuietEffect(cfg, s, now, a);
    } else {
      StepEffect(cfg, s, now, a);
    }
  }

  lemma {:induction false} LeaseStands(cfg: Settings, s: JobState, trace: seq<Stamped>, t: Time)
    requires Inv(cfg, s) && LeasedFrom(cfg, s, t) && forall i :: 0 <= i < |trace| ==> t <= trace[i].now
    ensures LeasedFrom(cfg, After(cfg, s, trace), t)
  {
    if trace != [] {
      var n := |trace| - 1;
      LeaseStands(cfg, s, trace[..n], t);
      AlwaysInv(cfg, s, trace[..n]);
      LeaseStep(cfg, After(cfg, s, trace[..n]), trace[n].now, trace[n].action, t);
    }
  }

  lemma LeasedUntil(cfg: Settings, s: JobState, trace: seq<Stamped>, i: nat, j: nat)
    requires Inv(cfg, s) && i < j <= |trace|
    requires forall k, l :: 0 <= k < l < |trace| ==> trace[k].now <= trace[l].now
    requires After(cfg, s, trace[..i + 1]).job.lockExpiresAt == Some(trace[i].now + cfg.leaseSeconds)
    ensures LeasedFrom(cfg, After(cfg, s, trace[..j]), trace[i].now)
  {
    AlwaysInv(cfg, s, trace[..i + 1]);
    LeaseStands(cfg, After(cfg, s, trace[..i + 1]), trace[i + 1..j], trace[i].now);
    Onwards(cfg, s, trace, i + 1, j);
  }

  /** No lease is taken within the lease time of a claim, a beat or a progress report that set it. */
  lemma LeaseHolds(cfg: Settings, s: JobState, trace: seq<Stamped>, i: nat, j: nat)
    requires Inv(cfg, s) && i < j < |trace|
    requires forall k, l :: 0 <= k < l < |trace| ==> trace[k].now <= trace[l].now
    requires After(cfg, s, trace[..i + 1]).job.lockExpiresAt == Some(trace[i].now + cfg.leaseSeconds)
    requires trace[j].action == Scheduled(ReapLease) && After(cfg, s, trace[..j + 1]) != After(cfg, s, trace[..j])
    ensures trace[i].now + cfg.leaseSeconds < trace[j].now
  {
    LeasedUntil(cfg, s, trace, i, j);
    AlwaysInv(cfg, s, trace[..j]);
    NextState(cfg, s, trace, j);
    ReapsIff(cfg, After(cfg, s, trace[..j]), trace[j].now);
  }

  // ---------- expiry

  predicate ExpiredLate(cfg: Settings, s: JobState) {
    s.job.status.Expired? ==>
      s.job.completedAt.Some? && s.job.completedAt.value - s.job.spec.createdAt > cfg.queueMaxAgeSeconds
  }

  lemma ExpiryStep(cfg: Settings, s: JobState, now: Time, a: Action)
    requires Inv(cfg, s) && ExpiredLate(cfg, s)
    ensures ExpiredLate(cfg, Step(cfg, s, now, a))
    ensures Step(cfg, s, now, a).job.status.Expired? && !s.job.status.Expired? ==>
              now - s.job.spec.createdAt > cfg.queueMaxAgeSeconds
  {
    if Step(cfg, s, now, a).job.status == s.job.status {
      QuietEffect(cfg, s, now, a);
    } else {
      StepEffect(cfg, s, now, a);
      if a == Scheduled(ExpireStale) {
        ExpiresIff(cfg, s, now);
      }
    }
  }

  /** In every run, an EXPIRED job was completed when it was older than the maximum age. */
  lemma ExpiredIsOld(cfg: Settings, spec: JobSpec, trace: seq<Stamped>)
    requires spec.maxAttempts >= 1
    ensures var j := After(cfg, Submitted(spec), trace).job;
            j.status.Expired? ==> j.completedAt.Some? && j.completedAt.value - spec.createdAt > cfg.queueMaxAgeSeconds
  {
    var f, inv := Stepper(cfg), (t: JobState) => Inv(cfg, t) && ExpiredLate(cfg, t);
    SubmittedInv(cfg, spec);
    forall t: JobState, e: Stamped | inv(t) ensures inv(f(t, e)) {
      StepKeeps(cfg, t, e.now, e.action);
      ExpiryStep(cfg, t, e.now, e.action);
    }
    FoldInvariant(f, Submitted(spec), trace, inv);
    SpecForever(cfg, Submitted(spec), trace);
  }

  /** No run has a job EXPIRED while it is not older than the maximum age. */
  lemma {:induction false} NoEarlyExpiry(cfg: Settings, spec: JobSpec, trace: seq<Stamped>)
    requires spec.maxAttempts >= 1
    requires forall i :: 0 <= i < |trace| ==> trace[i].now <= spec.createdAt + cfg.queueMaxAgeSeconds
    ensures !After(cfg, Submitted(spec), trace).job.status.Expired?
  {
    if trace != [] {
      var n := |trace| - 1;
      NoEarlyExpiry(cfg, spec, trace[..n]);
      SubmittedInv(cfg, spec);
      AlwaysInv(cfg, Submitted(spec), trace[..n]);
      SpecForever(cfg, Submitted(spec), trace[..n]);
      ExpiryStep(cfg, After(cfg, Submitted(spec), trace[..n]), trace[n].now, trace[n].action);
    }
  }

  // ---------- notifications

  lemma {:induction false} NoticeStands(cfg: Settings, s: JobState, trace: seq<Stamped>, n: Notice)
    requires Inv(cfg, s) && s.notices == [n]
    requires forall i :: 0 <= i < |trace| ==> !trace[i].action.Deliver?
    ensures After(cfg, s, trace).notices == [n]
  {
    if trace != [] {
      var k := |trace| - 1;
      NoticeStands(cfg, s, trace[..k], n);
      AlwaysInv(cfg, s, trace[..k]);
      var before := After(cfg, s, trace[..k]);
      TerminalStep(cfg, before, trace[k].now, trace[k].action);
      QuietNotices(cfg, before, trace[k].now, trace[k].action);
    }
  }

  /** Only a delivery touches the notification of a finished job. */
  lemma QuietNotices(cfg: Settings, s: JobState, now: Time, a: Action)
    requires Inv(cfg, s) && s.notices != [] && !a.Deliver?
    ensures Step(cfg, s, now, a).notices == s.notices
  {
  }

  /** A failed delivery is not tried again before the time it was put off to. */
  lemma DeliveryWaits(cfg: Settings, s: JobState, now: Time, retryAt: Time, between: seq<Stamped>, later: Time,
                      delivered: bool, next: Time)
    requires Inv(cfg, s) && |s.notices| == 1 && s.notices[0].attempts + 1 < cfg.notificationMaxAttempts
    requires forall i :: 0 <= i < |between| ==> !between[i].action.Deliver?
    requires var s1 := Step(cfg, s, now, Deliver(0, false, retryAt)); s1 != s
    requires var s2 := After(cfg, Step(cfg, s, now, Deliver(0, false, retryAt)), between);
             Step(cfg, s2, later, Deliver(0, delivered, next)) != s2
    ensures retryAt <= later
  {
    var s1 := Step(cfg, s, now, Deliver(0, false, retryAt));
    StepKeeps(cfg, s, now, Deliver(0, false, retryAt));
    DeliversIff(cfg, s, now, 0, false, retryAt);
    NoticeStands(cfg, s1, between, s1.notices[0]);
    AlwaysInv(cfg, s1, between);
    DeliversIff(cfg, After(cfg, s1, between), later, 0, delivered, next);
  }
}
