/** What becomes of a job over time, in every run: when a retry can be claimed again, what an occurrence
    takes over from its predecessor, and that a cancelled job stays down. */
module Lifecycle {
  import opened Domain
  import opened Backoff
  import opened Tables
  import opened Protocol
  import opened Effects
  import opened AllRuns
  import opened Conservation
  import opened ExactRuns

  // ---------------------------------------------------------------- retries

  /** The state at the time `to` after the promoter has run. */
  function Promoted(s: State, to: Time): State {
    Next(Next(s, Advance(to)), Promote)
  }

  lemma {:induction false} PromotedAt(s: State, to: Time)
    requires s.db.now <= to
    ensures Promoted(s, to).db == PromoteDb(s.db.(now := to))
  {
    AdvanceNext(s, to);
  }

  /** A failed attempt that is not the last schedules the job for the decision time plus the back-off,
      and from then on, and no sooner, the promoter makes it claimable. */
  lemma {:induction false} RetryBecomesClaimable(s0: State, acts: seq<Action>, a: Action, to: Time)
    requires Initial(s0) && Enabled(Run(s0, acts), a) && a.Fail? && a.outcome.Committed?
    requires var t := Run(s0, acts).tasks[a.task]; t.snap.attempts + 1 < t.snap.maxAttempts
    requires to >= Run(s0, acts).db.now
    ensures var s := Run(s0, acts); var t := s.tasks[a.task]; var failed := Next(s, a);
      && t.job in failed.db.jobs && var row := failed.db.jobs[t.job];
      && row.status == Scheduled && row.attempts == t.snap.attempts + 1 && row.worker.None?
      && row.nextAttemptAt == Some(a.decidedAt + a.delay * 1_000_000)
      && (Eligible(Promoted(failed, to).db, row.queue, t.job) <==> to >= a.decidedAt + a.delay * 1_000_000)
  {
    AllLawsHold(s0, acts);
    hide Run;
    var s := Run(s0, acts);
    var t := s.tasks[a.task];
    FailNext(s, a);
    DueWhenTaken(s, a.task);
    hide Next, AllLaws, NoStrays;
    PromotedAt(Next(s, a), to);
    assert ClaimGate(s.db.jobs[t.job], to);
  }

  lemma {:induction false} DueWhenTaken(s: State, t: TaskId)
    requires AllLaws(s) && t in s.tasks
    ensures s.tasks[t].job in s.db.jobs && ClaimGate(s.db.jobs[s.tasks[t].job], s.db.now)
    ensures SameJob(s.tasks[t].snap, s.db.jobs[s.tasks[t].job])
  {
    assert TaskRefs(s, s.tasks[t]);
    assert JobLaws(View(s.db, s.tasks[t].job), s.db.now);
  }

  // ---------------------------------------------------------------- delays

  /** A recorded back-off is the default's or, if the job has a policy, the policy's. */
  predicate DelayExplained(db: Db, e: Execution) {
    e.retryDelay.Some? ==>
      && e.job in db.jobs
      && (|| DefaultDelay(e.attempt) == e.retryDelay
          || (&& db.jobs[e.job].policy.Some? && db.jobs[e.job].policy.value in db.policies
              && PolicyDelay(db.policies[db.jobs[e.job].policy.value], e.attempt, e.retryDelay.value)))
  }

  predicate DelaysExplained(db: Db) {
    forall i | 0 <= i < |db.executions| :: DelayExplained(db, db.executions[i])
  }

  lemma {:induction false} PoliciesStay(s: State, a: Action)
    ensures Next(s, a).db.policies == s.db.policies
  {
    hide Claimable, KeyFree, RunningJobs, PromoteRow, RecoverRow, ClaimRow, ManualRow, RetryDelay, NewJob;
  }

  /** The execution row that a step appends, if any. */
  predicate Appends(s: State, a: Action, e: Execution) {
    e.retryDelay.Some? ==>
      && Enabled(s, a) && a.Fail? && !DeadLettered(s.tasks[a.task])
      && e == Attempt(s.tasks[a.task], a.finishedAt, false, Some(a.delay), a.decidedAt)
  }

  predicate AppendsAtMostOne(before: seq<Execution>, after: seq<Execution>) {
    after == before || (|after| == |before| + 1 && after[..|before|] == before)
  }

  lemma {:induction false} FailAppends(s: State, a: Action)
    requires Enabled(s, a) && a.Fail?
    ensures var before, after := s.db.executions, Next(s, a).db.executions;
      AppendsAtMostOne(before, after) && (|after| > |before| ==> Appends(s, a, after[|before|]))
  {
    FailNext(s, a);
    hide Next, RetryDelay;
  }

  lemma {:induction false} SucceedAppends(s: State, a: Action)
    requires Enabled(s, a) && a.Succeed?
    ensures var before, after := s.db.executions, Next(s, a).db.executions;
      AppendsAtMostOne(before, after) && (|after| > |before| ==> Appends(s, a, after[|before|]))
  {
    SucceedNext(s, a.task, a.finishedAt, a.outcome);
    hide Next;
  }

  lemma {:induction false} RetryAppends(s: State, a: Action)
    requires Enabled(s, a) && a.RetryCommit?
    ensures Next(s, a).db.executions == s.db.executions
  {
    hide ManualRow;
  }

  lemma {:induction false} ExecutionsEvolve(s: State, a: Action)
    ensures var before, after := s.db.executions, Next(s, a).db.executions;
      AppendsAtMostOne(before, after) && (|after| > |before| ==> Appends(s, a, after[|before|]))
  {
    hide Apply, Appends;
    if Enabled(s, a) {
      hide Enabled;
      match a
      case Fail(_, _, _, _, _, _) => FailAppends(s, a);
      case Succeed(_, _, _) => SucceedAppends(s, a);
      case RetryCommit(_, _) => RetryAppends(s, a);
      case _ => QuietTables(s, a);
    }
  }

  lemma {:induction false} NewDelayExplained(s: State, a: Action)
    requires References(s) && Enabled(s, a) && a.Fail? && !DeadLettered(s.tasks[a.task])
    ensures DelayExplained(s.db, Attempt(s.tasks[a.task], a.finishedAt, false, Some(a.delay), a.decidedAt))
  {
    assert TaskRefs(s, s.tasks[a.task]);
  }

  lemma {:induction false} DelayStays(s: State, a: Action, e: Execution)
    requires DelayExplained(s.db, e)
    ensures DelayExplained(Next(s, a).db, e)
  {
    hide Next, PolicyDelay, DefaultDelay;
    PoliciesStay(s, a);
    if e.retryDelay.Some? {
      JobEvolves(s, a, e.job);
    }
  }

  /** In every run each scheduled retry waits as the default or the job's policy says. */
  lemma {:induction false} DelaysFollowPolicy(s0: State, acts: seq<Action>)
    requires Initial(s0)
    ensures DelaysExplained(Run(s0, acts).db)
    decreases |acts|
  {
    hide Next, DelayExplained, Enabled, AllLaws, DeadLettered, NoStrays;
    if acts != [] {
      var n := |acts| - 1;
      var s, a := Run(s0, acts[..n]), acts[n];
      DelaysFollowPolicy(s0, acts[..n]);
      AllLawsHold(s0, acts[..n]);
      LawsRefer(s);
      ExecutionsEvolve(s, a);
      var before, after := s.db.executions, Next(s, a).db.executions;
      forall i | 0 <= i < |after| ensures DelayExplained(Next(s, a).db, after[i]) {
        if i < |before| {
          assert after[i] == before[i];
        } else if after[i].retryDelay.Some? {
          NewDelayExplained(s, a);
        } else {
          NoDelay(s.db, after[i]);
        }
        DelayStays(s, a, after[i]);
      }
    }
  }

  lemma {:induction false} LawsRefer(s: State)
    requires AllLaws(s)
    ensures References(s)
  {
  }

  lemma {:induction false} NoDelay(db: Db, e: Execution)
    requires e.retryDelay.None?
    ensures DelayExplained(db, e)
  {
  }

  // ---------------------------------------------------------------- occurrences

  /** The row has everything from its predecessor that decides where, when and how often it runs. */
  predicate Inherits(parent: Job, row: Job) {
    && row.queue == parent.queue && row.jobType == parent.jobType && row.cron == parent.cron
    && row.priority == parent.priority && row.maxAttempts == parent.maxAttempts && row.policy == parent.policy
    && row.idempotencyKey.None?
  }

  predicate LineageLaw(db: Db, j: JobId)
    requires j in db.jobs
  {
    var prev := db.jobs[j].prev;
    prev.Some? ==> prev.value in db.jobs && Inherits(db.jobs[prev.value], db.jobs[j])
  }

  lemma {:induction false} LineageStep(s: State, a: Action, j: JobId)
    requires NoStrays(s) && j in Next(s, a).db.jobs && (j in s.db.jobs ==> LineageLaw(s.db, j))
    ensures LineageLaw(Next(s, a).db, j)
  {
    hide Next, NoStrays;
    RowOrigin(s, a, j);
    var p := if j in s.db.jobs then s.db.jobs[j].prev else if a.InsertNext? then Some(s.tasks[a.task].job) else None;
    if p.Some? {
      JobEvolves(s, a, p.value);
    }
  }

  lemma {:induction false} LineageHolds(s0: State, acts: seq<Action>, j: JobId)
    requires Initial(s0) && j in Run(s0, acts).db.jobs
    ensures LineageLaw(Run(s0, acts).db, j)
    decreases |acts|
  {
    hide Next, LineageLaw;
    if acts != [] {
      var n := |acts| - 1;
      if j in Run(s0, acts[..n]).db.jobs {
        LineageHolds(s0, acts[..n], j);
      }
      AllLawsHold(s0, acts[..n]);
      LineageStep(Run(s0, acts[..n]), acts[n], j);
    }
  }

  /** In every run an occurrence recurs in the same queue, with the same expression, priority, attempts
      and policy as its predecessor, and without an idempotency key. */
  lemma {:induction false} OccurrencesInherit(s0: State, acts: seq<Action>, j: JobId)
    requires Initial(s0) && j in Run(s0, acts).db.jobs && Run(s0, acts).db.jobs[j].prev.Some?
    ensures var jobs := Run(s0, acts).db.jobs; var p := jobs[j].prev.value;
      && p in jobs && Inherits(jobs[p], jobs[j])
      && (jobs[j].jobType == Recurring && jobs[j].cron.Some? <==> jobs[p].jobType == Recurring && jobs[p].cron.Some?)
  {
    hide Run;
    LineageHolds(s0, acts, j);
  }

  /** A reported completion of a recurring job carries the chain on: the occurrence that the task inserts
      recurs as well, and the promoter makes it claimable from its time on and no sooner. */
  lemma {:induction false} ChainGoesOn(s0: State, acts: seq<Action>, t: TaskId, id: JobId, nextAt: Time, to: Time)
    requires Initial(s0) && t in Run(s0, acts).tasks && id !in Run(s0, acts).db.jobs
    requires var task := Run(s0, acts).tasks[t];
      task.phase.Done? && task.snap.jobType == Recurring && task.snap.cron.Some? && nextAt > task.phase.at
    requires to >= Run(s0, acts).db.now
    ensures var s := Run(s0, acts); var inserted := Next(s, InsertNext(t, id, nextAt));
      && id in inserted.db.jobs && var row := inserted.db.jobs[id];
      && row.jobType == Recurring && row.cron == s.tasks[t].snap.cron && row.prev == Some(s.tasks[t].job)
      && row.queue == s.tasks[t].snap.queue && row.scheduledAt == Some(nextAt)
      && (Eligible(Promoted(inserted, to).db, row.queue, id) <==> to >= nextAt)
  {
    AllLawsHold(s0, acts);
    hide Run;
    var s := Run(s0, acts);
    DueWhenTaken(s, t);
    OccurrenceNext(s, t, id, nextAt);
    hide Next, AllLaws, NoStrays;
    PromotedAt(Next(s, InsertNext(t, id, nextAt)), to);
  }

  // ---------------------------------------------------------------- cancelled jobs

  /** A manual retry of a dead letter of the job commits. */
  predicate Revives(s: State, a: Action, j: JobId) {
    Enabled(s, a) && a.RetryCommit? && a.applied && s.db.dlq[a.entry].job == j
  }

  predicate NeverRevived(s: State, acts: seq<Action>, j: JobId) {
    forall k | 0 <= k < |acts| :: !Revives(Run(s, acts[..k]), acts[k], j)
  }

  predicate ClaimsJob(s: State, a: Action, j: JobId) {
    Enabled(s, a) && a.Claim? && a.id == j
  }

  /** A failed job that no live task holds. */
  predicate Down(s: State, j: JobId) {
    j in s.db.jobs && s.db.jobs[j].status == Failed && NobodyHolds(s, j)
  }

  lemma {:induction false} DownRow(s: State, a: Action, j: JobId)
    requires Down(s, j) && !Revives(s, a, j)
    ensures EffectOn(s, a, j).Keep? && !ClaimsJob(s, a, j)
  {
    hide KeyFree, RetryDelay, RunningJobs;
  }

  lemma {:induction false} DownStep(s: State, a: Action, j: JobId)
    requires Down(s, j) && !Revives(s, a, j)
    ensures Down(Next(s, a), j)
  {
    DownRow(s, a, j);
    hide Next, EffectOn, Enabled;
    StepEffect(s, a, j);
    forall t | t in Next(s, a).tasks && Next(s, a).tasks[t].job == j ensures !Next(s, a).tasks[t].Holding() {
      TasksEvolve(s, a, t);
    }
  }

  /** A failed job without a live task stays failed, and is never claimed, until a manual retry of one of
      its dead letters commits: in every run, whatever recovery does. */
  lemma {:induction false} DownUntilRevived(s: State, acts: seq<Action>, j: JobId)
    requires Down(s, j) && NeverRevived(s, acts, j)
    ensures Down(Run(s, acts), j)
    ensures forall k | 0 <= k < |acts| :: !ClaimsJob(Run(s, acts[..k]), acts[k], j)
    decreases |acts|
  {
    hide Next, Down, Revives, ClaimsJob;
    if acts != [] {
      var n := |acts| - 1;
      forall k | 0 <= k < n ensures acts[..n][..k] == acts[..k] {
      }
      DownUntilRevived(s, acts[..n], j);
      assert acts[..n] == acts[..n][..n];
      DownRow(Run(s, acts[..n]), acts[n], j);
      DownStep(Run(s, acts[..n]), acts[n], j);
    }
  }

  ghost predicate StaysFailed(s: State, j: JobId)
    requires j in s.db.jobs
  {
    forall acts | NeverRevived(s, acts, j) ::
      j in Run(s, acts).db.jobs && Run(s, acts).db.jobs[j].status == Failed
  }

  lemma {:induction false} HolderUndoes(s: State, t: TaskId) returns (a: Action)
    requires References(s) && t in s.tasks && s.tasks[t].Holding()
    ensures var j := s.tasks[t].job;
      j in Next(s, a).db.jobs && Next(s, a).db.jobs[j].status != Failed && !a.RetryCommit?
  {
    assert TaskRefs(s, s.tasks[t]);
    if s.tasks[t].phase.Spawned? {
      a := MarkRunning(t, s.db.now);
      MarkNext(s, t, s.db.now);
    } else {
      a := Succeed(t, s.db.now, Committed(true));
      SucceedNext(s, t, s.db.now, Committed(true));
    }
  }

  /** A failed job stays failed without a manual retry iff no live task holds it. */
  lemma {:induction false} StaysFailedIff(s: State, j: JobId)
    requires References(s) && j in s.db.jobs && s.db.jobs[j].status == Failed
    ensures StaysFailed(s, j) <==> NobodyHolds(s, j)
  {
    if NobodyHolds(s, j) {
      forall acts | NeverRevived(s, acts, j)
        ensures j in Run(s, acts).db.jobs && Run(s, acts).db.jobs[j].status == Failed
      {
        DownUntilRevived(s, acts, j);
      }
    } else {
      var t :| t in s.tasks && s.tasks[t].job == j && s.tasks[t].Holding();
      var a := HolderUndoes(s, t);
      RunOne(s, a);
      assert NeverRevived(s, [a], j);
    }
  }

  /** Cancelling in a fail-stop run: a pending, queued or scheduled job becomes failed and no run claims it
      again before a manual retry of it commits; any other job is left as it was. */
  lemma {:induction false} CancelHolds(s0: State, acts: seq<Action>, j: JobId, more: seq<Action>)
    requires Initial(s0) && FailStop(s0, acts) && j in Run(s0, acts).db.jobs
    ensures var s := Run(s0, acts); var cancelled := Next(s, Cancel(j));
      if s.db.jobs[j].status in {Pending, Queued, Scheduled} then
        && Down(cancelled, j)
        && (NeverRevived(cancelled, more, j) ==>
              && Down(Run(cancelled, more), j)
              && forall k | 0 <= k < |more| :: !ClaimsJob(Run(cancelled, more[..k]), more[k], j))
      else cancelled == s
  {
    ExactHolds(s0, acts);
    hide Run, FailStop;
    var s := Run(s0, acts);
    if s.db.jobs[j].status in {Pending, Queued, Scheduled} {
      CancelTakesDown(s, j);
      if NeverRevived(Next(s, Cancel(j)), more, j) {
        DownUntilRevived(Next(s, Cancel(j)), more, j);
      }
    } else {
      assert s.db.jobs[j := s.db.jobs[j]] == s.db.jobs;
    }
  }

  lemma {:induction false} CancelTakesDown(s: State, j: JobId)
    requires Consistent(s) && j in s.db.jobs && s.db.jobs[j].status in {Pending, Queued, Scheduled}
    ensures Down(Next(s, Cancel(j)), j)
  {
    forall t | t in s.tasks && s.tasks[t].job == j ensures !s.tasks[t].Holding() {
      OwnsNow(s, t);
    }
  }
}
