/** Main theorems about every run, whatever fails and whoever recovers whom. */
module Conservation {
  import opened Domain
  import opened Tables
  import opened Protocol
  import opened Effects
  import opened AllRuns

  /** Tables agree: completion events are the success rows, dead-letter events are the
      dead-letter entries, and every failure row has exactly one event of its own. */
  lemma {:induction false} CrossTableConservation(s0: State, acts: seq<Action>, j: JobId)
    requires Initial(s0)
    ensures var db := Run(s0, acts).db; var rows := ExecutionsOf(db.executions, j);
      && CountEvents(db.outbox, Event(JobCompleted, j)) == CountOutcome(rows, true)
      && CountEvents(db.outbox, Event(JobMovedToDlq, j)) == |DlqOf(db.dlq, j)|
      && CountEvents(db.outbox, Event(JobRetryScheduled, j)) + CountEvents(db.outbox, Event(JobMovedToDlq, j))
         == CountOutcome(rows, false)
  {
    AllLawsHold(s0, acts);
    var s := Run(s0, acts);
    assert NoStrayRows(s.db, j);
    if j in s.db.jobs {
      assert JobLaws(View(s.db, j), s.db.now);
    }
  }

  /** worker_id is set only on claimed and running rows. */
  lemma {:induction false} WorkerOnlyWhileHeld(s0: State, acts: seq<Action>, j: JobId)
    requires Initial(s0) && j in Run(s0, acts).db.jobs
    ensures Run(s0, acts).db.jobs[j].worker.Some? ==> Run(s0, acts).db.jobs[j].Held()
  {
    AllLawsHold(s0, acts);
    assert JobLaws(View(Run(s0, acts).db, j), Run(s0, acts).db.now);
  }

  /** The scheduled_at guard of the claim never hides a queued job. */
  lemma {:induction false} QueuedJobsAreClaimable(s0: State, acts: seq<Action>, j: JobId)
    requires Initial(s0) && j in Run(s0, acts).db.jobs && Run(s0, acts).db.jobs[j].status == Queued
    ensures Eligible(Run(s0, acts).db, Run(s0, acts).db.jobs[j].queue, j)
  {
    AllLawsHold(s0, acts);
    assert JobLaws(View(Run(s0, acts).db, j), Run(s0, acts).db.now);
  }

  /** When a scheduled row is due: the back-off time wins over the scheduled time, and with
      neither it is never due. */
  function DueAt(row: Job): Option<Time> {
    if row.nextAttemptAt.Some? then row.nextAttemptAt else row.scheduledAt
  }

  /** The promoter makes a scheduled job claimable exactly when its time has come. */
  lemma {:induction false} PromotionIsExact(s0: State, acts: seq<Action>, j: JobId)
    requires Initial(s0) && j in Run(s0, acts).db.jobs && Run(s0, acts).db.jobs[j].status == Scheduled
    ensures var s := Run(s0, acts); var row := s.db.jobs[j];
      Eligible(Next(s, Promote).db, row.queue, j) <==> DueAt(row).Some? && DueAt(row).value <= s.db.now
  {
    hide Run;
    AllLawsHold(s0, acts);
    assert JobLaws(View(Run(s0, acts).db, j), Run(s0, acts).db.now);
  }

  /** What becomes of a submission left alone: immediate, recurring and batch jobs are claimable
      at once; delayed and scheduled ones by the promoter from their time on, and never when the
      submission named no time. */
  lemma {:induction false} NewJobsBecomeClaimable(s: State, id: JobId, q: QueueId, r: JobRequest, to: Time)
    requires Enabled(s, Create(id, q, r)) && to >= s.db.now
    ensures var created := Next(s, Create(id, q, r)); var later := Next(Next(created, Advance(to)), Promote);
      var waits := r.jobType == Delayed || r.jobType == AtTime;
      && (Eligible(created.db, q, id) <==> !waits)
      && (Eligible(later.db, q, id) <==> (waits ==> r.scheduledAt.Some? && r.scheduledAt.value <= to))
  {
    var created := Next(s, Create(id, q, r));
    assert Next(created, Advance(to)).db == created.db.(now := to);
  }

  // ---------------------------------------------------------------- double execution

  /** The live tasks that may still write an execution row for the job. */
  function Holders(s: State, j: JobId): set<TaskId> {
    set t | t in s.tasks && s.tasks[t].job == j && s.tasks[t].Holding()
  }

  /** Every execution row and every live task consumed a claim of its own. */
  predicate Accounted(s: State, j: JobId) {
    j in s.db.jobs ==>
      |ExecutionsOf(s.db.executions, j)| + |Holders(s, j)| <= s.db.jobs[j].tally.claims
  }

  predicate WritesRow(eff: Effect) {
    eff.Complete? || eff.Bury? || eff.Reschedule?
  }

  lemma {:induction false} HoldersEvolve(s: State, a: Action, j: JobId)
    ensures EffectOn(s, a, j).ClaimBy? ==> Holders(Next(s, a), j) <= Holders(s, j) + {a.task}
    ensures !EffectOn(s, a, j).ClaimBy? ==> Holders(Next(s, a), j) <= Holders(s, j)
  {
    hide CompleteDb, FailDb, ManualRetryDb, PromoteDb, RecoverDb, Claimable, RetryDelay, Due, Orphaned;
    hide NewJob, NextOccurrence;
    forall t | t in Holders(Next(s, a), j)
      ensures t in Holders(s, j) || (EffectOn(s, a, j).ClaimBy? && t == a.task)
    {
      TasksEvolve(s, a, t);
    }
  }

  lemma {:induction false} WriterLetsGo(s: State, a: Action, j: JobId)
    requires WritesRow(EffectOn(s, a, j))
    ensures a.task in Holders(s, j) - Holders(Next(s, a), j)
  {
  }

  lemma {:induction false} SubsetSize<T>(a: set<T>, b: set<T>)
    requires a <= b
    ensures |a| <= |b|
  {
    assert b == a + (b - a);
  }

  lemma {:induction false} RowsAndClaims(s: State, a: Action, j: JobId)
    requires j in s.db.jobs
    ensures var s' := Next(s, a); var eff := EffectOn(s, a, j);
      && j in s'.db.jobs
      && |ExecutionsOf(s'.db.executions, j)| == |ExecutionsOf(s.db.executions, j)| + (if WritesRow(eff) then 1 else 0)
      && s'.db.jobs[j].tally.claims == s.db.jobs[j].tally.claims + (if eff.ClaimBy? then 1 else 0)
  {
    hide Apply, EffectOn, Enabled, Next, CountEvents, DlqOf;
    StepEffect(s, a, j);
  }

  lemma {:induction false} HoldersSize(s: State, a: Action, j: JobId)
    ensures var eff := EffectOn(s, a, j);
      |Holders(Next(s, a), j)|
        <= |Holders(s, j)| + (if eff.ClaimBy? then 1 else 0) - (if WritesRow(eff) then 1 else 0)
  {
    hide Next, Holders;
    HoldersEvolve(s, a, j);
    var before, after := Holders(s, j), Holders(Next(s, a), j);
    var eff := EffectOn(s, a, j);
    if eff.ClaimBy? {
      SubsetSize(after, before + {a.task});
    } else if WritesRow(eff) {
      WriterLetsGo(s, a, j);
      SubsetSize(after, before - {a.task});
    } else {
      SubsetSize(after, before);
    }
  }

  lemma {:induction false} NoHolders(s: State, j: JobId)
    requires References(s) && j !in s.db.jobs
    ensures Holders(s, j) == {}
  {
    assert forall t | t in s.tasks :: TaskRefs(s, s.tasks[t]);
  }

  lemma {:induction false} AccountedStep(s: State, a: Action, j: JobId)
    requires References(s) && NoStrayRows(s.db, j) && Accounted(s, j)
    ensures Accounted(Next(s, a), j)
  {
    HoldersSize(s, a, j);
    if j in s.db.jobs {
      RowsAndClaims(s, a, j);
    } else if j in Next(s, a).db.jobs {
      StepCreates(s, a, j);
      NoHolders(s, j);
    }
  }

  lemma {:induction false} AccountedHolds(s0: State, acts: seq<Action>, j: JobId)
    requires Initial(s0)
    ensures Accounted(Run(s0, acts), j)
    decreases |acts|
  {
    if acts != [] {
      var n := |acts| - 1;
      AccountedHolds(s0, acts[..n], j);
      AllLawsHold(s0, acts[..n]);
      assert NoStrayRows(Run(s0, acts[..n]).db, j);
      AccountedStep(Run(s0, acts[..n]), acts[n], j);
    }
  }

  /** However often a job is executed, wrongful recovery included: each execution row (and
      each task still at work) has its own claim, and each claim after the first was caused by
      a scheduled retry, a recovery or a manual retry. */
  lemma {:induction false} DoubleExecutionBound(s0: State, acts: seq<Action>, j: JobId)
    requires Initial(s0) && j in Run(s0, acts).db.jobs
    ensures var s := Run(s0, acts); var row := s.db.jobs[j];
      |ExecutionsOf(s.db.executions, j)| + |Holders(s, j)| <= row.tally.claims
        <= 1 + CountEvents(s.db.outbox, Event(JobRetryScheduled, j)) + row.tally.recoveries + row.tally.manualRetries
  {
    AccountedHolds(s0, acts, j);
    AllLawsHold(s0, acts);
    assert JobLaws(View(Run(s0, acts).db, j), Run(s0, acts).db.now);
  }

  // ---------------------------------------------------------------- idempotency keys

  predicate KeysUnique(db: Db) {
    forall i, j | i in db.jobs && j in db.jobs && db.jobs[i].queue == db.jobs[j].queue
                  && db.jobs[i].idempotencyKey.Some? && db.jobs[i].idempotencyKey == db.jobs[j].idempotencyKey :: i == j
  }

  lemma {:induction false} RowOrigin(s: State, a: Action, j: JobId)
    requires NoStrays(s) && j in Next(s, a).db.jobs
    ensures j in s.db.jobs ==> SameJob(s.db.jobs[j], Next(s, a).db.jobs[j])
    ensures j !in s.db.jobs ==>
      Enabled(s, a) && (a.Create? || a.InsertNext?) && a.id == j && Next(s, a).db.jobs[j] == NewRow(s, a)
  {
    if j in s.db.jobs {
      JobEvolves(s, a, j);
    } else {
      assert NoStrayRows(s.db, j);
      StepCreates(s, a, j);
    }
  }

  lemma {:induction false} KeysUniqueStep(s: State, a: Action)
    requires NoStrays(s) && KeysUnique(s.db)
    ensures KeysUnique(Next(s, a).db)
  {
    var s' := Next(s, a);
    forall i, j | i in s'.db.jobs && j in s'.db.jobs && s'.db.jobs[i].queue == s'.db.jobs[j].queue
                  && s'.db.jobs[i].idempotencyKey.Some? && s'.db.jobs[i].idempotencyKey == s'.db.jobs[j].idempotencyKey
      ensures i == j
    {
      RowOrigin(s, a, i);
      RowOrigin(s, a, j);
    }
  }

  /** However submissions interleave, a queue holds at most one job per idempotency key. */
  lemma {:induction false} IdempotentSubmission(s0: State, acts: seq<Action>)
    requires Initial(s0)
    ensures KeysUnique(Run(s0, acts).db)
    decreases |acts|
  {
    if acts != [] {
      var n := |acts| - 1;
      IdempotentSubmission(s0, acts[..n]);
      AllLawsHold(s0, acts[..n]);
      KeysUniqueStep(Run(s0, acts[..n]), acts[n]);
    }
  }
}
