/** Laws of every run: any interleaving, any crash, any failing transaction, recovery of
    workers that are still alive, and overlapping manual retries. */
module AllRuns {
  import opened Domain
  import opened Tables
  import opened Protocol
  import opened Effects

  // ---------------------------------------------------------------- references

  /** The columns that no statement changes. */
  predicate SameJob(a: Job, b: Job) {
    && a.queue == b.queue && a.jobType == b.jobType && a.priority == b.priority && a.maxAttempts == b.maxAttempts
    && a.scheduledAt == b.scheduledAt && a.cron == b.cron && a.idempotencyKey == b.idempotencyKey
    && a.policy == b.policy && a.createdAt == b.createdAt && a.prev == b.prev
  }

  predicate Evolves(before: Job, after: Job) {
    SameJob(before, after) && before.tally.claims <= after.tally.claims
  }

  lemma {:induction false} ClockForward(s: State, a: Action)
    ensures s.db.now <= Next(s, a).db.now
  {
  }

  lemma {:induction false} EffectEvolves(v: JobView, eff: Effect, now: Time)
    ensures Evolves(v.row, After(v, eff, now).row)
  {
  }

  /** No step deletes a job or changes its fixed columns. */
  lemma {:induction false} JobEvolves(s: State, a: Action, j: JobId)
    requires j in s.db.jobs
    ensures j in Next(s, a).db.jobs && Evolves(s.db.jobs[j], Next(s, a).db.jobs[j])
  {
    hide Next, After, EffectOn, Evolves;
    StepEffect(s, a, j);
    EffectEvolves(View(s.db, j), EffectOn(s, a, j), s.db.now);
  }

  predicate TaskRefs(s: State, t: Task) {
    && t.job in s.db.jobs && SameJob(t.snap, s.db.jobs[t.job]) && s.db.jobs[t.job].tally.claims >= 1
    && t.spawnedAt <= s.db.now
    && (t.phase.Started? ==> t.spawnedAt <= t.phase.startedAt <= s.db.now)
    && (t.phase.Done? ==> t.phase.at <= s.db.now)
  }

  predicate EntryRefs(s: State, e: nat)
    requires e < |s.db.dlq|
  {
    s.db.dlq[e].job in s.db.jobs && s.db.jobs[s.db.dlq[e].job].tally.claims >= 1
  }

  predicate References(s: State) {
    && (forall t | t in s.tasks :: TaskRefs(s, s.tasks[t]))
    && (forall e: nat | e < |s.db.dlq| :: EntryRefs(s, e))
    && (forall e | e in s.retrying :: e < |s.db.dlq|)
  }

  /** Where the task t of the state after a step comes from. */
  lemma {:induction false} TasksEvolve(s: State, a: Action, t: TaskId)
    requires t in Next(s, a).tasks
    ensures var s' := Next(s, a); var task := s'.tasks[t];
      || (t in s.tasks && task == s.tasks[t])
      || (t in s.tasks && Enabled(s, a) && a.MarkRunning? && a.task == t
          && task == s.tasks[t].(phase := Started(a.startedAt)))
      || (t in s.tasks && Enabled(s, a) && a.Succeed? && a.task == t && a.outcome.reported
          && task == s.tasks[t].(phase := Done(s.db.now, a.outcome.Committed?)))
      || (t !in s.tasks && Enabled(s, a) && a.Claim? && a.task == t
          && task == Task(a.worker, a.id, ClaimRow(s.db.jobs[a.id], a.worker, s.db.now), s.db.now, Spawned)
          && s'.db.jobs[a.id] == task.snap)
    ensures Enabled(s, a) && (a.Succeed? || a.Fail?) && a.task == t ==> !Next(s, a).tasks[t].Holding()
    ensures Enabled(s, a) && a.MarkRunning? && a.task == t ==> Next(s, a).tasks[t].phase.Started?
  {
  }

  /** Dead-letter entries are only ever appended or stamped. */
  lemma {:induction false} EntriesEvolve(s: State, a: Action)
    ensures var d := Next(s, a).db.dlq;
      && |s.db.dlq| <= |d| <= |s.db.dlq| + 1
      && (forall e | 0 <= e < |s.db.dlq| :: d[e].job == s.db.dlq[e].job && d[e].attempts == s.db.dlq[e].attempts)
      && (|d| > |s.db.dlq| ==> a.Fail? && a.task in s.tasks && d[|s.db.dlq|].job == s.tasks[a.task].job)
    ensures forall e | e in Next(s, a).retrying :: e in s.retrying || (a.RetryCheck? && e < |s.db.dlq|)
  {
  }

  lemma {:induction false} TaskRefsStep(s: State, a: Action, t: TaskId)
    requires t in Next(s, a).tasks && (t in s.tasks ==> TaskRefs(s, s.tasks[t]))
    ensures TaskRefs(Next(s, a), Next(s, a).tasks[t])
  {
    ClockForward(s, a);
    TasksEvolve(s, a, t);
    if t in s.tasks {
      JobEvolves(s, a, s.tasks[t].job);
    }
  }

  lemma {:induction false} ReferencesStep(s: State, a: Action)
    requires References(s)
    ensures References(Next(s, a))
  {
    hide Next, SameJob;
    var s' := Next(s, a);
    forall t | t in s'.tasks ensures TaskRefs(s', s'.tasks[t]) {
      TaskRefsStep(s, a, t);
    }
    EntriesEvolve(s, a);
    forall e: nat | e < |s'.db.dlq| ensures EntryRefs(s', e) {
      if e < |s.db.dlq| {
        assert EntryRefs(s, e);
        JobEvolves(s, a, s.db.dlq[e].job);
      } else {
        assert TaskRefs(s, s.tasks[a.task]);
        JobEvolves(s, a, s.tasks[a.task].job);
      }
    }
  }

  // ---------------------------------------------------------------- laws of one job

  /** A row names a worker only while the job is claimed or running. */
  predicate OwnerLaw(row: Job) {
    row.worker.Some? ==> row.Held()
  }

  /** A job whose scheduled time is still ahead was never claimed and is not claimable yet. */
  predicate GateLaw(row: Job, now: Time) {
    !ClaimGate(row, now) ==>
      row.tally.claims == 0 && row.nextAttemptAt.None? && (row.status == Scheduled || row.status == Failed)
  }

  /** Events, dead letters and execution rows agree. */
  predicate Balanced(v: JobView) {
    && v.completed == CountOutcome(v.rows, true)
    && v.moved == |v.dead|
    && v.retried + v.moved == CountOutcome(v.rows, false)
  }

  /** Every claim was paid for by the creation, a scheduled retry, a recovery or a manual retry. */
  predicate ClaimsPaid(v: JobView) {
    v.row.tally.claims + (if v.row.status == Queued || v.row.status == Scheduled then 1 else 0)
      <= 1 + v.retried + v.row.tally.recoveries + v.row.tally.manualRetries
  }

  predicate JobLaws(v: JobView, now: Time) {
    OwnerLaw(v.row) && GateLaw(v.row, now) && Balanced(v) && ClaimsPaid(v)
  }

  /** What every run guarantees about an effect before it happens. */
  predicate Plausible(v: JobView, eff: Effect, now: Time) {
    match eff
    case Keep => true
    case ClaimBy(_) => v.row.status == Queued && ClaimGate(v.row, now)
    case Mark => v.row.tally.claims >= 1
    case Complete(e) => v.row.tally.claims >= 1 && e.success
    case Bury(e) => v.row.tally.claims >= 1 && !e.success
    case Reschedule(e, _) => v.row.tally.claims >= 1 && !e.success
    case Requeue => v.row.Held()
    case PromoteJob => Due(v.row, now)
    case CancelJob => Cancellable(v.row)
    case Revive(k) => v.row.tally.claims >= 1 && k < |v.dead|
  }

  lemma {:induction false} EffectPlausible(s: State, a: Action, j: JobId)
    requires References(s) && j in s.db.jobs
    ensures Plausible(View(s.db, j), EffectOn(s, a, j), s.db.now)
  {
    if Enabled(s, a) && a.RetryCommit? {
      assert EntryRefs(s, a.entry);
      DlqRankAt(s.db.dlq, a.entry);
    }
    if Enabled(s, a) && (a.MarkRunning? || a.Succeed? || a.Fail?) {
      assert TaskRefs(s, s.tasks[a.task]);
    }
  }

  lemma {:induction false} JobLawsKept(v: JobView, eff: Effect, now: Time)
    requires JobLaws(v, now) && Plausible(v, eff, now)
    ensures JobLaws(After(v, eff, now), now)
  {
    if eff.Complete? || eff.Bury? || eff.Reschedule? {
      AppendOutcome(v.rows, eff.e);
    }
  }

  lemma {:induction false} JobLawsLater(v: JobView, now: Time, later: Time)
    requires JobLaws(v, now) && now <= later
    ensures JobLaws(v, later)
  {
  }

  predicate AllLaws(s: State) {
    && References(s)
    && forall j | j in s.db.jobs :: JobLaws(View(s.db, j), s.db.now)
  }

  ghost predicate NoStrays(s: State) {
    forall j: JobId :: NoStrayRows(s.db, j)
  }

  lemma {:induction false} NoStraysStep(s: State, a: Action)
    requires NoStrays(s)
    ensures NoStrays(Next(s, a))
  {
    forall j: JobId ensures NoStrayRows(Next(s, a).db, j) {
      if j in s.db.jobs {
        StepEffect(s, a, j);
      } else {
        StepCreates(s, a, j);
      }
    }
  }

  lemma {:induction false} AllLawsStep(s: State, a: Action)
    requires AllLaws(s) && NoStrays(s)
    ensures AllLaws(Next(s, a))
  {
    var s' := Next(s, a);
    ReferencesStep(s, a);
    forall j | j in s'.db.jobs ensures JobLaws(View(s'.db, j), s'.db.now) {
      JobLawsStep(s, a, j);
    }
  }

  lemma {:induction false} JobLawsStep(s: State, a: Action, j: JobId)
    requires References(s) && j in Next(s, a).db.jobs && NoStrayRows(s.db, j)
    requires j in s.db.jobs ==> JobLaws(View(s.db, j), s.db.now)
    ensures JobLaws(View(Next(s, a).db, j), Next(s, a).db.now)
  {
    if j in s.db.jobs {
      EffectPlausible(s, a, j);
      StepEffect(s, a, j);
      JobLawsKept(View(s.db, j), EffectOn(s, a, j), s.db.now);
    } else {
      StepCreates(s, a, j);
      assert JobLaws(JobView(NewRow(s, a), [], [], 0, 0, 0), s.db.now);
    }
    ClockForward(s, a);
    JobLawsLater(View(Next(s, a).db, j), s.db.now, Next(s, a).db.now);
  }

  /** Every run keeps every law. */
  lemma {:induction false} AllLawsHold(s0: State, acts: seq<Action>)
    requires Initial(s0)
    ensures AllLaws(Run(s0, acts)) && NoStrays(Run(s0, acts))
    decreases |acts|
  {
    if acts != [] {
      var n := |acts| - 1;
      AllLawsHold(s0, acts[..n]);
      AllLawsStep(Run(s0, acts[..n]), acts[n]);
      NoStraysStep(Run(s0, acts[..n]), acts[n]);
    }
  }
}
