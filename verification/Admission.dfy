/** Concurrency limits and pausing under racing pollers: the pause and limit checks, the claim
    and the marking of the row are separate steps. */
module Admission {
  import opened Domain
  import opened Protocol
  import opened Effects
  import opened AllRuns
  import opened Conservation

  // ---------------------------------------------------------------- the limit

  function AdmittedTo(s: State, q: QueueId): set<WorkerId> {
    set w | w in s.pollers && s.pollers[w] == Admitted(q)
  }

  function SpawnedIn(s: State, q: QueueId): set<TaskId> {
    set t | t in s.tasks && s.tasks[t].phase.Spawned? && s.tasks[t].snap.queue == q
  }

  /** Limit checks that passed and whose job is not marked running yet. */
  function PendingChecks(s: State, q: QueueId): nat {
    |AdmittedTo(s, q)| + |SpawnedIn(s, q)|
  }

  function RunningCount(s: State, q: QueueId): nat {
    |RunningJobs(s.db, q)|
  }

  /** The step marks a row of the queue as running. */
  predicate Marks(s: State, a: Action, q: QueueId) {
    Enabled(s, a) && a.MarkRunning? && s.tasks[a.task].snap.queue == q
  }

  /** The step is a limit check of the queue that passes. */
  predicate Passes(s: State, a: Action, q: QueueId) {
    Enabled(s, a) && a.PollCount? && PollOf(s, a.worker).queue == q && RunningCount(s, q) < s.db.queues[q].limit
  }

  predicate TakesFrom(s: State, a: Action, q: QueueId) {
    Enabled(s, a) && a.Claim? && PollOf(s, a.worker).queue == q
  }

  lemma {:induction false} OnlyMarksRun(v: JobView, eff: Effect, now: Time)
    ensures After(v, eff, now).row.queue == v.row.queue
    ensures After(v, eff, now).row.status == Running && !eff.Mark? ==> v.row.status == Running
  {
  }

  lemma {:induction false} NewRowsWait(s: State, a: Action)
    requires Enabled(s, a) && (a.Create? || a.InsertNext?)
    ensures NewRow(s, a).status == Queued || NewRow(s, a).status == Scheduled
  {
  }

  lemma {:induction false} RunningEvolves(s: State, a: Action, q: QueueId)
    requires AllLaws(s) && NoStrays(s)
    ensures RunningJobs(Next(s, a).db, q) <= RunningJobs(s.db, q) + if Marks(s, a, q) then {s.tasks[a.task].job} else {}
  {
    hide Next, After, AllLaws, NoStrays, EffectOn, NewRow;
    var s' := Next(s, a);
    forall j | j in RunningJobs(s'.db, q)
      ensures j in RunningJobs(s.db, q) || (Marks(s, a, q) && j == s.tasks[a.task].job)
    {
      hide Enabled;
      RowOrigin(s, a, j);
      if j in s.db.jobs {
        StepEffect(s, a, j);
        OnlyMarksRun(View(s.db, j), EffectOn(s, a, j), s.db.now);
        if EffectOn(s, a, j).Mark? {
          MarkedQueue(s, a, j);
        }
      } else {
        NewRowsWait(s, a);
      }
    }
  }

  lemma {:induction false} MarkedQueue(s: State, a: Action, j: JobId)
    requires AllLaws(s) && j in s.db.jobs && EffectOn(s, a, j).Mark?
    ensures Marks(s, a, s.db.jobs[j].queue) && j == s.tasks[a.task].job
  {
    hide JobLaws, Claimable, RetryDelay, KeyFree, Due, Orphaned;
    assert TaskRefs(s, s.tasks[a.task]);
  }

  lemma {:induction false} AdmittedEvolves(s: State, a: Action, q: QueueId)
    ensures Passes(s, a, q) || AdmittedTo(Next(s, a), q) <= AdmittedTo(s, q)
    ensures TakesFrom(s, a, q) ==> a.worker in AdmittedTo(s, q) - AdmittedTo(Next(s, a), q)
  {
  }

  lemma {:induction false} SpawnedEvolves(s: State, a: Action, q: QueueId)
    ensures SpawnedIn(Next(s, a), q) <= SpawnedIn(s, q) + if TakesFrom(s, a, q) then {a.task} else {}
    ensures Marks(s, a, q) ==> a.task in SpawnedIn(s, q) - SpawnedIn(Next(s, a), q)
  {
  }

  lemma {:induction false} RunningSize(s: State, a: Action, q: QueueId)
    requires AllLaws(s) && NoStrays(s)
    ensures RunningCount(Next(s, a), q) <= RunningCount(s, q) + if Marks(s, a, q) then 1 else 0
  {
    hide Next, AllLaws, NoStrays, RunningJobs;
    RunningEvolves(s, a, q);
    SubsetSize(RunningJobs(Next(s, a).db, q),
               RunningJobs(s.db, q) + if Marks(s, a, q) then {s.tasks[a.task].job} else {});
  }

  /** How the pending checks move: only a passed check adds one, a claim keeps them and a marked
      row uses one up. */
  lemma {:induction false} PendingSize(s: State, a: Action, q: QueueId)
    ensures Passes(s, a, q) || PendingChecks(Next(s, a), q) + (if Marks(s, a, q) then 1 else 0) <= PendingChecks(s, q)
  {
    hide Next, AdmittedTo, SpawnedIn;
    AdmittedEvolves(s, a, q);
    SpawnedEvolves(s, a, q);
    if !Passes(s, a, q) {
      SubsetSize(AdmittedTo(Next(s, a), q), AdmittedTo(s, q) - if TakesFrom(s, a, q) then {a.worker} else {});
      SubsetSize(SpawnedIn(Next(s, a), q),
                 SpawnedIn(s, q) + (if TakesFrom(s, a, q) then {a.task} else {})
                 - if Marks(s, a, q) then {a.task} else {});
    }
  }

  predicate Within(s: State, q: QueueId, limit: int, c: nat) {
    RunningCount(s, q) + PendingChecks(s, q) <= limit - 1 + c
  }

  lemma {:induction false} QueueKept(s: State, a: Action, q: QueueId)
    requires q in s.db.queues
    ensures q in Next(s, a).db.queues && Next(s, a).db.queues[q].limit == s.db.queues[q].limit
  {
  }

  lemma {:induction false} WithinStep(s: State, a: Action, q: QueueId, limit: int, c: nat)
    requires AllLaws(s) && NoStrays(s) && q in s.db.queues && s.db.queues[q].limit == limit
    requires Within(s, q, limit, c) && PendingChecks(Next(s, a), q) <= c
    ensures Within(Next(s, a), q, limit, c)
  {
    hide Next, Enabled, AllLaws, NoStrays, RunningCount, PendingChecks;
    RunningSize(s, a, q);
    PendingSize(s, a, q);
  }

  lemma {:induction false} WithinHolds(s0: State, acts: seq<Action>, q: QueueId, c: nat)
    requires Initial(s0) && q in s0.db.queues && s0.db.queues[q].limit >= 1
    requires forall k | 0 <= k <= |acts| :: PendingChecks(Run(s0, acts[..k]), q) <= c
    ensures q in Run(s0, acts).db.queues && Run(s0, acts).db.queues[q].limit == s0.db.queues[q].limit
    ensures Within(Run(s0, acts), q, s0.db.queues[q].limit, c)
    decreases |acts|
  {
    hide Apply, Enabled, AllLaws, NoStrays;
    if acts != [] {
      var n := |acts| - 1;
      forall k | 0 <= k <= n ensures PendingChecks(Run(s0, acts[..n][..k]), q) <= c {
        assert acts[..n][..k] == acts[..k];
      }
      WithinHolds(s0, acts[..n], q, c);
      AllLawsHold(s0, acts[..n]);
      QueueKept(Run(s0, acts[..n]), acts[n], q);
      assert acts[..|acts|] == acts;
      WithinStep(Run(s0, acts[..n]), acts[n], q, s0.db.queues[q].limit, c);
    }
  }

  function RunningIn(jobs: map<JobId, Job>, q: QueueId): set<JobId> {
    set j | j in jobs && jobs[j].status == Running && jobs[j].queue == q
  }

  /** If at most c passed limit checks are ever outstanding (a poller between check and claim, or
      a claimed job not yet marked running), the running jobs of a queue never exceed its limit
      by more than c - 1. One outstanding check at a time respects the limit. */
  lemma {:induction false} AdmissionBound(s0: State, acts: seq<Action>, q: QueueId, c: nat)
    requires Initial(s0) && q in s0.db.queues && s0.db.queues[q].limit >= 1
    requires forall k | 0 <= k <= |acts| :: PendingChecks(Run(s0, acts[..k]), q) <= c
    ensures RunningCount(Run(s0, acts), q) <= s0.db.queues[q].limit - 1 + c
    ensures |RunningIn(Run(s0, acts).db.jobs, q)| <= s0.db.queues[q].limit - 1 + c
    ensures c <= 1 ==> RunningCount(Run(s0, acts), q) <= s0.db.queues[q].limit
  {
    hide Run;
    assert RunningJobs(Run(s0, acts).db, q) == RunningIn(Run(s0, acts).db.jobs, q);
    WithinHolds(s0, acts, q, c);
  }

  // ---------------------------------------------------------------- pausing

  /** The claims of worker w from queue q along a run. */
  function ClaimsFrom(s: State, acts: seq<Action>, w: WorkerId, q: QueueId): nat {
    if acts == [] then 0
    else
      var before, a := Run(s, acts[..|acts| - 1]), acts[|acts| - 1];
      ClaimsFrom(s, acts[..|acts| - 1], w, q)
      + (if Enabled(before, a) && a.Claim? && a.worker == w && PollOf(before, w).queue == q then 1 else 0)
  }

  /** The poller has passed the pause check of q and may still claim from it. */
  function PastPauseCheck(s: State, w: WorkerId, q: QueueId): nat {
    if PollOf(s, w) == Unpaused(q) || PollOf(s, w) == Admitted(q) then 1 else 0
  }

  predicate Resumes(a: Action, q: QueueId) {
    a.SetPaused? && a.queue == q && !a.paused
  }

  lemma {:induction false} StaysPaused(s: State, a: Action, q: QueueId)
    requires q in s.db.queues && s.db.queues[q].paused && !Resumes(a, q)
    ensures q in Next(s, a).db.queues && Next(s, a).db.queues[q].paused
  {
    hide PromoteRow, RecoverRow, Claimable, RunningJobs, RetryDelay, KeyFree, ClaimRow, NewJob, NextOccurrence;
  }

  lemma {:induction false} PausedStep(s: State, a: Action, w: WorkerId, q: QueueId)
    requires q in s.db.queues && s.db.queues[q].paused
    ensures PastPauseCheck(Next(s, a), w, q)
         + (if Enabled(s, a) && a.Claim? && a.worker == w && PollOf(s, w).queue == q then 1 else 0)
         <= PastPauseCheck(s, w, q)
  {
    hide PutRow, PromoteDb, RecoverDb, Claimable, RunningJobs, RetryDelay, KeyFree, ClaimRow;
  }

  /** While a queue stays paused a worker claims at most one more job from it, and none at all
      unless its poller had already passed the pause check. */
  lemma {:induction false} PauseTakesEffect(s: State, acts: seq<Action>, w: WorkerId, q: QueueId)
    requires q in s.db.queues && s.db.queues[q].paused
    requires forall i | 0 <= i < |acts| :: !Resumes(acts[i], q)
    ensures q in Run(s, acts).db.queues && Run(s, acts).db.queues[q].paused
    ensures ClaimsFrom(s, acts, w, q) + PastPauseCheck(Run(s, acts), w, q) <= PastPauseCheck(s, w, q) <= 1
    decreases |acts|
  {
    hide Apply, Enabled;
    if acts != [] {
      var n := |acts| - 1;
      PauseTakesEffect(s, acts[..n], w, q);
      StaysPaused(Run(s, acts[..n]), acts[n], q);
      PausedStep(Run(s, acts[..n]), acts[n], w, q);
    }
  }
}
