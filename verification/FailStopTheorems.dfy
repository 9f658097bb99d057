/** Main theorems about fail-stop runs. */
module FailStopTheorems {
  import opened Domain
  import opened Backoff
  import opened Tables
  import opened Protocol
  import opened Effects
  import opened AllRuns
  import opened ExactRuns

  lemma {:induction false} ExactNow(s0: State, acts: seq<Action>, j: JobId)
    requires Initial(s0) && FailStop(s0, acts) && j in Run(s0, acts).db.jobs
    ensures ExactLaws(View(Run(s0, acts).db, j), Run(s0, acts).db.now)
  {
    ExactHolds(s0, acts);
  }

  // ---------------------------------------------------------------- ownership

  /** SKIP LOCKED claiming plus fail-stop recovery is mutual exclusion: a job has at most one
      live task, and that task's view of the row is current. */
  lemma {:induction false} ExclusiveOwnership(s0: State, acts: seq<Action>, t: TaskId, u: TaskId)
    requires Initial(s0) && FailStop(s0, acts)
    requires t in Run(s0, acts).tasks && Run(s0, acts).tasks[t].Holding()
    requires u in Run(s0, acts).tasks && Run(s0, acts).tasks[u].Holding()
    ensures var s := Run(s0, acts); var task := s.tasks[t];
      && (task.job == s.tasks[u].job ==> t == u)
      && task.job in s.db.jobs
      && s.db.jobs[task.job].worker == Some(task.worker)
      && s.db.jobs[task.job].status == (if task.phase.Spawned? then Claimed else Running)
      && s.db.jobs[task.job].attempts == task.snap.attempts
  {
    hide Run, FailStop;
    ExactHolds(s0, acts);
    OwnsNow(Run(s0, acts), t);
  }

  // ---------------------------------------------------------------- attempts

  /** The attempts of a job are its execution rows 1..n, across any number of crashes,
      recoveries and manual retries. */
  lemma {:induction false} ExactAttempts(s0: State, acts: seq<Action>, j: JobId)
    requires Initial(s0) && FailStop(s0, acts) && j in Run(s0, acts).db.jobs
    ensures var db := Run(s0, acts).db; var row := db.jobs[j]; var rows := ExecutionsOf(db.executions, j);
      && (forall i | 0 <= i < |rows| :: rows[i].attempt == i + 1)
      && (forall i | 0 <= i < |rows| - 1 :: !rows[i].success)
      && (row.status == Completed <==> rows != [] && rows[|rows| - 1].success)
      && row.attempts == CountOutcome(rows, false)
  {
    hide Run, FailStop;
    ExactNow(s0, acts, j);
    FailuresCounted(View(Run(s0, acts).db, j));
  }

  lemma {:induction false} AllFailed(rows: seq<Execution>)
    requires forall i | 0 <= i < |rows| :: !rows[i].success
    ensures CountOutcome(rows, false) == |rows|
  {
    if rows != [] {
      AllFailed(rows[..|rows| - 1]);
    }
  }

  lemma {:induction false} FailuresCounted(v: JobView)
    requires ExactHistory(v)
    ensures v.row.attempts == CountOutcome(v.rows, false)
  {
    if v.rows != [] {
      AllFailed(v.rows[..|v.rows| - 1]);
    }
  }

  // ---------------------------------------------------------------- dead letters

  /** The k-th dead letter of a job records attempt max(1, max_attempts) + k - 1; at most one is
      unretried, and then the job is failed with no live task. */
  lemma {:induction false} DeadLetters(s0: State, acts: seq<Action>, j: JobId)
    requires Initial(s0) && FailStop(s0, acts) && j in Run(s0, acts).db.jobs
    ensures var s := Run(s0, acts); var row := s.db.jobs[j]; var dead := DlqOf(s.db.dlq, j);
      && var first := if row.maxAttempts < 1 then 1 else row.maxAttempts;
      && (forall k | 0 <= k < |dead| :: dead[k].attempts == first + k)
      && (dead != [] <==> row.attempts >= first)
      && (forall k | 0 <= k < |dead| && !dead[k].retried ::
            k == |dead| - 1 && row.status == Failed
            && forall t | t in s.tasks && s.tasks[t].job == j :: !s.tasks[t].Holding())
  {
    hide Run, FailStop;
    var s := Run(s0, acts);
    ExactNow(s0, acts, j);
    ExactHolds(s0, acts);
    forall t | t in s.tasks ensures TaskOwns(s, s.tasks[t]) {
      OwnsNow(s, t);
    }
  }

  // ---------------------------------------------------------------- the state machine

  /** The three changes that the domain state machine does not list. */
  predicate NamedException(a: Action, before: Job, next: JobStatus) {
    || (a.Recover? && before.Held() && next == Queued)
    || (a.Cancel? && Cancellable(before) && next == Failed)
    || (a.RetryCommit? && before.status == Failed && next == Queued)
  }

  /** The unguarded UPDATEs refine the domain state machine: in a fail-stop run every status
      change is one of its edges or one of the three named exceptions. */
  lemma {:induction false} StatusChangesAreLegal(s0: State, acts: seq<Action>, a: Action, j: JobId)
    requires Initial(s0) && FailStop(s0, acts) && Disciplined(Run(s0, acts), a) && j in Run(s0, acts).db.jobs
    ensures var s := Run(s0, acts); var s' := Next(s, a);
      && j in s'.db.jobs
      && (s'.db.jobs[j].status == s.db.jobs[j].status
          || s.db.jobs[j].CanTransitionTo(s'.db.jobs[j].status)
          || NamedException(a, s.db.jobs[j], s'.db.jobs[j].status))
  {
    hide Run, FailStop, Apply, Disciplined, References, AllLaws, NoStrays, JobLaws;
    var s := Run(s0, acts);
    ExactHolds(s0, acts);
    AllLawsHold(s0, acts);
    LegalStep(s, a, j);
  }

  lemma {:induction false} LegalEffect(v: JobView, eff: Effect, now: Time)
    requires ExactLaws(v, now) && Faithful(v, eff, now)
    ensures var next := After(v, eff, now).row.status;
      || next == v.row.status
      || v.row.CanTransitionTo(next)
      || (eff.Requeue? && v.row.Held() && next == Queued)
      || (eff.CancelJob? && Cancellable(v.row) && next == Failed)
      || (eff.Revive? && v.row.status == Failed && next == Queued)
  {
  }

  lemma {:induction false} EffectSource(s: State, a: Action, j: JobId)
    ensures var eff := EffectOn(s, a, j);
      (eff.Requeue? ==> a.Recover?) && (eff.CancelJob? ==> a.Cancel?) && (eff.Revive? ==> a.RetryCommit?)
  {
  }

  lemma {:induction false} LegalStep(s: State, a: Action, j: JobId)
    requires AllLaws(s) && Exact(s) && j in s.db.jobs
    ensures j in Next(s, a).db.jobs
    ensures var s' := Next(s, a);
      || s'.db.jobs[j].status == s.db.jobs[j].status
      || s.db.jobs[j].CanTransitionTo(s'.db.jobs[j].status)
      || NamedException(a, s.db.jobs[j], s'.db.jobs[j].status)
  {
    hide Apply, References, JobLaws, EffectOn, Faithful, ExactLaws, OneOwner, RetriesApart;
    EffectFaithful(s, a, j);
    StepEffect(s, a, j);
    EffectSource(s, a, j);
    assert ExactLaws(View(s.db, j), s.db.now);
    LegalEffect(View(s.db, j), EffectOn(s, a, j), s.db.now);
  }

  lemma {:induction false} CompletedStays(v: JobView, eff: Effect, now: Time)
    requires ExactLaws(v, now) && Faithful(v, eff, now) && v.row.status == Completed
    ensures After(v, eff, now) == v
  {
  }

  lemma {:induction false} CompletedStep(s: State, a: Action, j: JobId)
    requires References(s) && Exact(s) && j in s.db.jobs && s.db.jobs[j].status == Completed
    ensures j in Next(s, a).db.jobs && View(Next(s, a).db, j) == View(s.db, j)
  {
    hide Next, EffectOn, After, Faithful, ExactLaws, References;
    EffectFaithful(s, a, j);
    StepEffect(s, a, j);
    CompletedStays(View(s.db, j), EffectOn(s, a, j), s.db.now);
  }

  /** Completed is terminal: nothing the database holds about the job ever changes again. */
  lemma {:induction false} CompletedIsFinal(s0: State, acts: seq<Action>, k: nat, j: JobId)
    requires Initial(s0) && FailStop(s0, acts) && k <= |acts|
    requires j in Run(s0, acts[..k]).db.jobs && Run(s0, acts[..k]).db.jobs[j].status == Completed
    ensures j in Run(s0, acts).db.jobs && View(Run(s0, acts).db, j) == View(Run(s0, acts[..k]).db, j)
    decreases |acts|
  {
    hide Apply, Enabled, Disciplined;
    if k == |acts| {
      assert acts[..k] == acts;
    } else {
      var n := |acts| - 1;
      assert acts[..n][..k] == acts[..k];
      CompletedIsFinal(s0, acts[..n], k, j);
      ExactHolds(s0, acts[..n]);
      AllLawsHold(s0, acts[..n]);
      CompletedStep(Run(s0, acts[..n]), acts[n], j);
    }
  }

  // ---------------------------------------------------------------- retry separation

  /** Attempt i + 2 never starts before attempt i + 1 failed and its back-off passed, unless
      attempt i + 1 was dead-lettered; without a policy the back-off is the default one. */
  lemma {:induction false} RetrySeparation(s0: State, acts: seq<Action>, j: JobId, i: nat)
    requires Initial(s0) && FailStop(s0, acts) && j in Run(s0, acts).db.jobs
    requires i + 1 < |ExecutionsOf(Run(s0, acts).db.executions, j)|
    requires i + 1 < Run(s0, acts).db.jobs[j].DeadAt()
    ensures var row := Run(s0, acts).db.jobs[j]; var rows := ExecutionsOf(Run(s0, acts).db.executions, j);
      && rows[i].retryDelay.Some?
      && rows[i + 1].started >= rows[i].finished + Seconds(rows[i].retryDelay.value)
      && (row.policy.None? ==> DefaultDelay(i + 1) == rows[i].retryDelay)
  {
    hide Run, FailStop;
    ExactNow(s0, acts, j);
    var v := View(Run(s0, acts).db, j);
    assert DelayRecorded(v.row, v.rows[i]) && BackedOff(v.rows[i], v.rows[i + 1].started);
  }

  /** A scheduled retry waits exactly until the time at which the failed attempt was decided on plus its
      back-off in seconds: not a microsecond less and not one more. */
  lemma {:induction false} RetryTimeIsExact(s0: State, acts: seq<Action>, j: JobId)
    requires Initial(s0) && FailStop(s0, acts) && j in Run(s0, acts).db.jobs
    requires Run(s0, acts).db.jobs[j].status == Scheduled && ExecutionsOf(Run(s0, acts).db.executions, j) != []
    ensures var rows := ExecutionsOf(Run(s0, acts).db.executions, j); var last := rows[|rows| - 1];
      && last.retryDelay.Some? && last.finished <= last.decidedAt
      && Run(s0, acts).db.jobs[j].nextAttemptAt == Some(last.decidedAt + last.retryDelay.value * 1_000_000)
  {
    hide Run, FailStop;
    ExactNow(s0, acts, j);
    var v := View(Run(s0, acts).db, j);
    assert DelayRecorded(v.row, v.rows[|v.rows| - 1]);
  }

  lemma {:induction false} SeparationSum(v: JobView, now: Time, n: nat)
    requires ExactHistory(v) && Separated(v, now) && v.row.policy.None?
    requires n < |v.rows| && n < v.row.DeadAt()
    ensures n <= 60
    ensures v.rows[n].started >= v.rows[0].started + Seconds(DefaultBackoff(n))
    decreases n
  {
    if n > 0 {
      SeparationSum(v, now, n - 1);
      assert DelayRecorded(v.row, v.rows[n - 1]) && BackedOff(v.rows[n - 1], v.rows[n].started);
      DefaultIsSeededPolicy(n);
      assert v.rows[n - 1].retryDelay == DefaultDelay(n);
    }
  }

  /** With the default back-off, attempt n >= 6 starts at least 310 + 300 (n - 6) seconds after
      attempt 1 did, through executor, promoter and claim and whatever crashes between. */
  lemma {:induction false} DefaultRetrySpan(s0: State, acts: seq<Action>, j: JobId, n: nat)
    requires Initial(s0) && FailStop(s0, acts) && j in Run(s0, acts).db.jobs
    requires Run(s0, acts).db.jobs[j].policy.None?
    requires 6 <= n <= |ExecutionsOf(Run(s0, acts).db.executions, j)| && n <= Run(s0, acts).db.jobs[j].DeadAt()
    ensures var rows := ExecutionsOf(Run(s0, acts).db.executions, j);
      rows[n - 1].started >= rows[0].started + Seconds(310 + 300 * (n - 6))
  {
    hide Run, FailStop;
    ExactNow(s0, acts, j);
    SeparationSum(View(Run(s0, acts).db, j), Run(s0, acts).db.now, n - 1);
    DefaultBackoffTotal(n - 1);
  }
}
