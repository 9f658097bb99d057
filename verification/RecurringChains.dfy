/** Recurring jobs: completing one occurrence inserts the next one, outside the completing
    transaction. Fail-stop runs in which no completing transaction is rolled back and still
    reported as committed keep every chain of occurrences linear. */
module RecurringChains {
  import opened Domain
  import opened Tables
  import opened Protocol
  import opened Effects
  import opened AllRuns
  import opened ExactRuns
  import opened Conservation
  import opened FailStopTheorems

  /** The completing transaction is not silently rolled back: a statement inside it fails only
      if COMMIT also reports an error. */
  predicate HonestCommit(a: Action) {
    a.Succeed? ==> a.outcome != RolledBack(true)
  }

  predicate HonestRun(acts: seq<Action>) {
    forall i | 0 <= i < |acts| :: HonestCommit(acts[i])
  }

  predicate EarlierThan(p: Job, next: Job) {
    next.scheduledAt.Some? && (p.scheduledAt.Some? ==> p.scheduledAt.value < next.scheduledAt.value)
  }

  /** A job that was inserted by an occurrence comes after it, and that occurrence is completed. */
  predicate LinkLaw(db: Db, j: JobId)
    requires j in db.jobs
  {
    var prev := db.jobs[j].prev;
    prev.Some? ==>
      prev.value in db.jobs && db.jobs[prev.value].status == Completed && EarlierThan(db.jobs[prev.value], db.jobs[j])
  }

  predicate LinksOk(db: Db) {
    forall j | j in db.jobs :: LinkLaw(db, j)
  }

  predicate NoTwins(db: Db) {
    forall i, j | i in db.jobs && j in db.jobs && db.jobs[i].prev.Some? && db.jobs[i].prev == db.jobs[j].prev :: i == j
  }

  /** A task about to insert the next occurrence has completed its job, nobody inserted one
      before, and no other task is about to. */
  predicate Pledge(s: State, t: TaskId)
    requires t in s.tasks
  {
    s.tasks[t].phase.Done? ==>
      && s.tasks[t].job in s.db.jobs && s.db.jobs[s.tasks[t].job].status == Completed
      && ClaimGate(s.db.jobs[s.tasks[t].job], s.tasks[t].phase.at)
      && forall j | j in s.db.jobs :: s.db.jobs[j].prev != Some(s.tasks[t].job)
  }

  predicate PledgesOk(s: State) {
    && (forall t | t in s.tasks :: Pledge(s, t))
    && (forall t, u | t in s.tasks && u in s.tasks && s.tasks[t].phase.Done? && s.tasks[u].phase.Done?
                      && s.tasks[t].job == s.tasks[u].job :: t == u)
  }

  predicate ChainLaws(s: State) {
    LinksOk(s.db) && NoTwins(s.db) && PledgesOk(s)
  }

  // ---------------------------------------------------------------- steps

  /** A completed job is untouched by the step. */
  lemma {:induction false} StaysCompleted(s: State, a: Action, p: JobId)
    requires AllLaws(s) && Exact(s) && p in s.db.jobs && s.db.jobs[p].status == Completed
    ensures p in Next(s, a).db.jobs && Next(s, a).db.jobs[p] == s.db.jobs[p]
  {
    hide Apply, Exact, References;
    CompletedStep(s, a, p);
  }

  lemma {:induction false} LinkStep(s: State, a: Action, j: JobId)
    requires AllLaws(s) && NoStrays(s) && Exact(s) && ChainLaws(s) && j in Next(s, a).db.jobs
    ensures LinkLaw(Next(s, a).db, j)
  {
    hide Apply, AllLaws, Exact, NoStrays, NoTwins;
    var s' := Next(s, a);
    RowOrigin(s, a, j);
    if j in s.db.jobs {
      assert LinkLaw(s.db, j);
      if s.db.jobs[j].prev.Some? {
        StaysCompleted(s, a, s.db.jobs[j].prev.value);
      }
    } else if a.InsertNext? {
      assert Pledge(s, a.task);
      StaysCompleted(s, a, s.tasks[a.task].job);
    }
  }

  lemma {:induction false} NoTwinsStep(s: State, a: Action)
    requires AllLaws(s) && NoStrays(s) && ChainLaws(s)
    ensures NoTwins(Next(s, a).db)
  {
    hide Apply, AllLaws, NoStrays, LinksOk;
    var s' := Next(s, a);
    forall i, j | i in s'.db.jobs && j in s'.db.jobs && s'.db.jobs[i].prev.Some?
                  && s'.db.jobs[i].prev == s'.db.jobs[j].prev
      ensures i == j
    {
      RowOrigin(s, a, i);
      RowOrigin(s, a, j);
      if a.InsertNext? && (i !in s.db.jobs || j !in s.db.jobs) {
        assert Pledge(s, a.task);
      }
    }
  }

  /** The commit of a success transaction in a fail-stop run: the job was running, so it has no
      next occurrence yet and no other task pledged one. */
  lemma {:induction false} PledgeMade(s: State, a: Action)
    requires AllLaws(s) && Exact(s) && ChainLaws(s) && HonestCommit(a)
    requires Enabled(s, a) && a.Succeed? && a.outcome.reported
    ensures var j := s.tasks[a.task].job;
      && j in s.db.jobs && s.db.jobs[j].status == Running && ClaimGate(s.db.jobs[j], s.db.now)
      && j in Next(s, a).db.jobs && Next(s, a).db.jobs[j] == CompleteRow(s.db.jobs[j])
  {
    OwnsNow(s, a.task);
    assert JobLaws(View(s.db, s.tasks[a.task].job), s.db.now);
    StepEffect(s, a, s.tasks[a.task].job);
  }

  lemma {:induction false} NoNewSuccessor(s: State, a: Action, p: JobId)
    requires AllLaws(s) && NoStrays(s) && ChainLaws(s)
    requires forall j | j in s.db.jobs :: s.db.jobs[j].prev != Some(p)
    requires Enabled(s, a) && a.InsertNext? ==> s.tasks[a.task].job != p
    ensures forall j | j in Next(s, a).db.jobs :: Next(s, a).db.jobs[j].prev != Some(p)
  {
    hide Apply, AllLaws, NoStrays, ChainLaws;
    forall j | j in Next(s, a).db.jobs ensures Next(s, a).db.jobs[j].prev != Some(p) {
      RowOrigin(s, a, j);
    }
  }

  lemma {:induction false} InsertConsumes(s: State, a: Action, t: TaskId)
    requires t in Next(s, a).tasks && Enabled(s, a) && a.InsertNext?
    ensures t != a.task
  {
  }

  lemma {:induction false} PledgeStep(s: State, a: Action, t: TaskId)
    requires AllLaws(s) && NoStrays(s) && Exact(s) && ChainLaws(s) && HonestCommit(a)
    requires t in Next(s, a).tasks
    ensures Pledge(Next(s, a), t)
  {
    hide Apply, AllLaws, Exact, NoStrays, NoTwins;
    var s' := Next(s, a);
    TasksEvolve(s, a, t);
    if s'.tasks[t].phase.Done? {
      var p := s.tasks[t].job;
      if s'.tasks[t] == s.tasks[t] {
        assert Pledge(s, t);
        StaysCompleted(s, a, p);
        if Enabled(s, a) && a.InsertNext? {
          InsertConsumes(s, a, t);
        }
        NoNewSuccessor(s, a, p);
      } else {
        PledgeMade(s, a);
        assert forall j | j in s.db.jobs :: LinkLaw(s.db, j);
        NoNewSuccessor(s, a, p);
      }
    }
  }

  lemma {:induction false} PledgesApartStep(s: State, a: Action, t: TaskId, u: TaskId)
    requires AllLaws(s) && Exact(s) && ChainLaws(s) && HonestCommit(a)
    requires t in Next(s, a).tasks && u in Next(s, a).tasks
    requires Next(s, a).tasks[t].phase.Done? && Next(s, a).tasks[u].phase.Done?
    requires Next(s, a).tasks[t].job == Next(s, a).tasks[u].job
    ensures t == u
  {
    hide Apply, AllLaws, Exact, NoTwins, LinksOk;
    TasksEvolve(s, a, t);
    TasksEvolve(s, a, u);
    assert Pledge(s, t) && Pledge(s, u);
    if Enabled(s, a) && a.Succeed? && a.outcome.reported && (a.task == t || a.task == u) {
      PledgeMade(s, a);
    }
  }

  lemma {:induction false} ChainStep(s: State, a: Action)
    requires AllLaws(s) && NoStrays(s) && Exact(s) && ChainLaws(s) && HonestCommit(a)
    ensures ChainLaws(Next(s, a))
  {
    hide Apply, Next, AllLaws, Exact, NoStrays, LinkLaw, NoTwins, Pledge, HonestCommit;
    var s' := Next(s, a);
    forall j | j in s'.db.jobs ensures LinkLaw(s'.db, j) {
      LinkStep(s, a, j);
    }
    NoTwinsStep(s, a);
    forall t | t in s'.tasks ensures Pledge(s', t) {
      PledgeStep(s, a, t);
    }
    forall t, u | t in s'.tasks && u in s'.tasks && s'.tasks[t].phase.Done? && s'.tasks[u].phase.Done?
                  && s'.tasks[t].job == s'.tasks[u].job
      ensures t == u
    {
      PledgesApartStep(s, a, t, u);
    }
  }

  lemma {:induction false} ChainLawsHold(s0: State, acts: seq<Action>)
    requires Initial(s0) && FailStop(s0, acts) && HonestRun(acts)
    ensures ChainLaws(Run(s0, acts))
    decreases |acts|
  {
    if acts != [] {
      var n := |acts| - 1;
      assert HonestRun(acts[..n]);
      ChainLawsHold(s0, acts[..n]);
      ExactHolds(s0, acts[..n]);
      AllLawsHold(s0, acts[..n]);
      ChainStep(Run(s0, acts[..n]), acts[n]);
    }
  }

  // ---------------------------------------------------------------- the exact condition

  /** What the jobs table shows of chains: every occurrence follows a completed one, at a later
      time, and none has two successors. */
  predicate LinearChains(db: Db) {
    LinksOk(db) && NoTwins(db)
  }

  /** An insertion of a next occurrence finds its job completed and without a successor. */
  predicate Follows(s: State, a: Action) {
    Enabled(s, a) && a.InsertNext? ==>
      var p := s.tasks[a.task].job;
      s.db.jobs[p].status == Completed && forall j | j in s.db.jobs :: s.db.jobs[j].prev != Some(p)
  }

  /** A task was spawned when its job was due. */
  predicate SpawnedDue(t: Task) {
    ClaimGate(t.snap, t.spawnedAt) && (t.phase.Done? ==> t.spawnedAt <= t.phase.at)
  }

  predicate AllSpawnedDue(s: State) {
    forall t | t in s.tasks :: SpawnedDue(s.tasks[t])
  }

  lemma {:induction false} SpawnedDueStep(s: State, a: Action, t: TaskId)
    requires References(s) && AllSpawnedDue(s) && t in Next(s, a).tasks
    ensures SpawnedDue(Next(s, a).tasks[t])
  {
    hide Apply;
    TasksEvolve(s, a, t);
    if t in s.tasks {
      assert TaskRefs(s, s.tasks[t]) && SpawnedDue(s.tasks[t]);
    }
  }

  lemma {:induction false} SpawnedDueHolds(s0: State, acts: seq<Action>)
    requires Initial(s0)
    ensures AllSpawnedDue(Run(s0, acts))
    decreases |acts|
  {
    hide Next, SpawnedDue, AllLaws;
    if acts != [] {
      var s, a := Run(s0, acts[..|acts| - 1]), acts[|acts| - 1];
      SpawnedDueHolds(s0, acts[..|acts| - 1]);
      AllLawsHold(s0, acts[..|acts| - 1]);
      assert References(s) by { LawsRefer(s); }
      forall t | t in Next(s, a).tasks ensures SpawnedDue(Next(s, a).tasks[t]) {
        SpawnedDueStep(s, a, t);
      }
    }
  }

  lemma {:induction false} LawsRefer(s: State)
    requires AllLaws(s)
    ensures References(s)
  {
  }

  lemma {:induction false} FollowingIsLinear(s: State, a: Action)
    requires AllLaws(s) && NoStrays(s) && Exact(s) && AllSpawnedDue(s) && LinearChains(s.db)
    requires Enabled(s, a) && a.InsertNext? && Follows(s, a)
    ensures LinearChains(Next(s, a).db)
  {
    hide AllLaws, NoStrays, Exact, Next, Enabled, NextOccurrence;
    OccurrenceLinks(s, a);
    assert TaskRefs(s, s.tasks[a.task]) by { LawsRefer(s); }
    assert SpawnedDue(s.tasks[a.task]);
    OccurrenceNext(s, a.task, a.id, a.nextAt);
    var db := Next(s, a).db;
    forall j | j in db.jobs ensures LinkLaw(db, j) {
      if j in s.db.jobs {
        assert LinkLaw(s.db, j);
      }
    }
  }

  lemma {:induction false} OccurrenceLinks(s: State, a: Action)
    requires Enabled(s, a) && a.InsertNext?
    ensures var p := s.tasks[a.task].job; var row := NextOccurrence(p, s.db.jobs[p], a.nextAt, s.db.now);
      && TaskIn(s, a.task) && a.id !in s.db.jobs && row.prev == Some(p)
      && row.scheduledAt == Some(a.nextAt) && a.nextAt > s.tasks[a.task].phase.at && s.tasks[a.task].phase.Done?
  {
  }

  lemma {:induction false} ForkingIsNotLinear(s: State, a: Action)
    requires !Follows(s, a)
    ensures !LinearChains(Next(s, a).db)
  {
    hide Next, NextOccurrence;
    OccurrenceLinks(s, a);
    OccurrenceNext(s, a.task, a.id, a.nextAt);
    var p := s.tasks[a.task].job;
    if s.db.jobs[p].status != Completed {
      assert !LinkLaw(Next(s, a).db, a.id);
    } else {
      var j :| j in s.db.jobs && s.db.jobs[j].prev == Some(p);
      assert Next(s, a).db.jobs[j].prev == Next(s, a).db.jobs[a.id].prev;
    }
  }

  lemma {:induction false} OthersKeepLinear(s: State, a: Action)
    requires AllLaws(s) && NoStrays(s) && Exact(s) && LinearChains(s.db)
    requires !Enabled(s, a) || !a.InsertNext?
    ensures LinearChains(Next(s, a).db)
  {
    hide Next, Enabled, AllLaws, Exact, NoStrays, NewRow, SameJob;
    var s' := Next(s, a);
    forall j | j in s'.db.jobs && s'.db.jobs[j].prev.Some?
      ensures j in s.db.jobs && SameLink(s.db.jobs[j], s'.db.jobs[j])
    {
      LinkOrigin(s, a, j);
    }
    forall j | j in s'.db.jobs ensures LinkLaw(s'.db, j) {
      if s'.db.jobs[j].prev.Some? {
        assert LinkLaw(s.db, j);
        StaysCompleted(s, a, s.db.jobs[j].prev.value);
      }
    }
  }

  predicate SameLink(a: Job, b: Job) {
    a.prev == b.prev && a.scheduledAt == b.scheduledAt
  }

  lemma {:induction false} LinkOrigin(s: State, a: Action, j: JobId)
    requires NoStrays(s) && j in Next(s, a).db.jobs && Next(s, a).db.jobs[j].prev.Some?
    requires !Enabled(s, a) || !a.InsertNext?
    ensures j in s.db.jobs && SameLink(s.db.jobs[j], Next(s, a).db.jobs[j])
  {
    hide Next;
    RowOrigin(s, a, j);
  }

  /** From a state with all laws, a step keeps chains linear iff it is not the insertion of a next
      occurrence for a job that is unfinished or has one already. */
  lemma {:induction false} LinearIffFollows(s: State, a: Action)
    requires AllLaws(s) && NoStrays(s) && Exact(s) && AllSpawnedDue(s) && LinearChains(s.db)
    ensures LinearChains(Next(s, a).db) <==> Follows(s, a)
  {
    hide AllLaws, NoStrays, Exact, AllSpawnedDue, LinearChains, Next;
    if !Follows(s, a) {
      ForkingIsNotLinear(s, a);
    } else if Enabled(s, a) && a.InsertNext? {
      FollowingIsLinear(s, a);
    } else {
      OthersKeepLinear(s, a);
    }
  }

  predicate AlwaysLinear(s0: State, acts: seq<Action>) {
    forall k | 0 <= k <= |acts| :: LinearChains(Run(s0, acts[..k]).db)
  }

  predicate AlwaysFollows(s0: State, acts: seq<Action>) {
    forall k | 0 <= k < |acts| :: Follows(Run(s0, acts[..k]), acts[k])
  }

  /** In a fail-stop run chains are linear at every point iff every insertion follows a completed
      job that has no next occurrence yet. The executor checks neither. */
  lemma {:induction false} LinearRunsFollow(s0: State, acts: seq<Action>)
    requires Initial(s0) && FailStop(s0, acts)
    ensures AlwaysLinear(s0, acts) <==> AlwaysFollows(s0, acts)
    decreases |acts|
  {
    hide Run, Initial, Disciplined, Follows, LinearChains, Next, FailStop, Exact, AllLaws, NoStrays, AllSpawnedDue;
    if acts == [] {
      assert acts[..0] == acts;
      NoChainsYet(s0);
    } else {
      var n := |acts| - 1;
      assert acts[..n] + [acts[n]] == acts;
      RunSnoc(s0, acts[..n], acts[n]);
      LinearRunsFollow(s0, acts[..n]);
      AllLawsHold(s0, acts[..n]);
      ExactHolds(s0, acts[..n]);
      SpawnedDueHolds(s0, acts[..n]);
      LinearSplits(s0, acts, n);
      if LinearChains(Run(s0, acts[..n]).db) {
        LinearIffFollows(Run(s0, acts[..n]), acts[n]);
      }
    }
  }

  lemma {:induction false} NoChainsYet(s0: State)
    requires Initial(s0)
    ensures LinearChains(Run(s0, []).db)
  {
  }

  lemma {:induction false} LinearSplits(s0: State, acts: seq<Action>, n: nat)
    requires |acts| == n + 1
    ensures AlwaysFollows(s0, acts) <==> AlwaysFollows(s0, acts[..n]) && Follows(Run(s0, acts[..n]), acts[n])
    ensures AlwaysLinear(s0, acts) <==> AlwaysLinear(s0, acts[..n]) && LinearChains(Run(s0, acts).db)
    ensures AlwaysLinear(s0, acts[..n]) ==> LinearChains(Run(s0, acts[..n]).db)
  {
    hide Run, Follows, LinearChains;
    assert acts[..n + 1] == acts && acts[..n][..n] == acts[..n];
    forall k | 0 <= k <= n ensures acts[..n][..k] == acts[..k] {
    }
  }

  lemma {:induction false} FailStopPrefix(s0: State, acts: seq<Action>, k: nat)
    requires FailStop(s0, acts) && k <= |acts|
    ensures FailStop(s0, acts[..k])
    decreases |acts|
  {
    if k == |acts| {
      assert acts[..k] == acts;
    } else {
      FailStopPrefix(s0, acts[..|acts| - 1], k);
      assert acts[..|acts| - 1][..k] == acts[..k];
    }
  }

  /** Without a rolled-back commit that is reported as success, every insertion is in order. */
  lemma {:induction false} HonestRunsFollow(s0: State, acts: seq<Action>)
    requires Initial(s0) && FailStop(s0, acts) && HonestRun(acts)
    ensures AlwaysFollows(s0, acts)
  {
    hide FailStop, Run, Follows;
    forall k | 0 <= k <= |acts| ensures LinearChains(Run(s0, acts[..k]).db) {
      FailStopPrefix(s0, acts, k);
      ChainLawsHold(s0, acts[..k]);
    }
    LinearRunsFollow(s0, acts);
  }

  // ---------------------------------------------------------------- chains

  /** A chain: a job that no occurrence inserted, and successive next occurrences. */
  predicate Chain(db: Db, c: seq<JobId>) {
    && c != []
    && (forall i | 0 <= i < |c| :: c[i] in db.jobs)
    && db.jobs[c[0]].prev.None?
    && (forall i | 0 <= i < |c| - 1 :: db.jobs[c[i + 1]].prev == Some(c[i]))
  }

  lemma {:induction false} NoFork(db: Db, c: seq<JobId>, d: seq<JobId>)
    requires NoTwins(db) && Chain(db, c) && Chain(db, d) && c[0] == d[0] && |c| <= |d|
    ensures c == d[..|c|]
    decreases |c|
  {
    var n := |c| - 1;
    if n > 0 {
      assert Chain(db, c[..n]);
      NoFork(db, c[..n], d);
      assert c[n - 1] == d[..n][n - 1] == d[n - 1];
      assert db.jobs[c[n]].prev == db.jobs[d[n]].prev;
    }
  }

  /** Chains never fork, all their jobs but the last are completed, and their scheduled times
      strictly increase. */
  lemma {:induction false} ChainsAreLinear(s0: State, acts: seq<Action>, c: seq<JobId>, d: seq<JobId>)
    requires Initial(s0) && FailStop(s0, acts) && HonestRun(acts)
    requires Chain(Run(s0, acts).db, c) && Chain(Run(s0, acts).db, d) && c[0] == d[0] && |c| <= |d|
    ensures c == d[..|c|]
    ensures var jobs := Run(s0, acts).db.jobs;
      forall i | 0 <= i < |d| - 1 :: jobs[d[i]].status == Completed && EarlierThan(jobs[d[i]], jobs[d[i + 1]])
  {
    hide Run, FailStop, HonestRun;
    ChainLawsHold(s0, acts);
    var db := Run(s0, acts).db;
    NoFork(db, c, d);
    forall i | 0 <= i < |d| - 1
      ensures db.jobs[d[i]].status == Completed && EarlierThan(db.jobs[d[i]], db.jobs[d[i + 1]])
    {
      assert LinkLaw(db, d[i + 1]);
    }
  }

  /** COMMIT of an aborted transaction reports success, and the executor then still inserts the
      next occurrence. That occurrence follows a completed job iff the transaction took effect,
      so a failing statement in the completing transaction leaves two unfinished occurrences. */
  lemma {:induction false} ReportedCommitDecides(
    s0: State, acts: seq<Action>, t: TaskId, finishedAt: Time, o: Outcome, id: JobId, nextAt: Time)
    requires Initial(s0) && FailStop(s0, acts) && HonestRun(acts)
    requires Enabled(Run(s0, acts), Succeed(t, finishedAt, o)) && o.reported
    requires Run(s0, acts).tasks[t].snap.IsRecurring()
    requires id !in Run(s0, acts).db.jobs && nextAt > Run(s0, acts).db.now
    ensures var s := Run(s0, acts);
      var after := Next(Next(s, Succeed(t, finishedAt, o)), InsertNext(t, id, nextAt));
      && id in after.db.jobs && after.db.jobs[id].prev == Some(s.tasks[t].job)
      && (LinkLaw(after.db, id) <==> o.Committed?)
  {
    hide Run, FailStop, HonestRun;
    var s := Run(s0, acts);
    ExactHolds(s0, acts);
    AllLawsHold(s0, acts);
    RunningAndDue(s, t);
    CommitThenInsert(s, t, finishedAt, o, id, nextAt);
  }

  lemma {:induction false} RunningAndDue(s: State, t: TaskId)
    requires AllLaws(s) && Exact(s) && t in s.tasks && s.tasks[t].phase.Started?
    ensures var j := s.tasks[t].job;
      j in s.db.jobs && s.db.jobs[j].status == Running && ClaimGate(s.db.jobs[j], s.db.now)
  {
    OwnsNow(s, t);
    assert JobLaws(View(s.db, s.tasks[t].job), s.db.now);
  }

  lemma {:induction false} CommitThenInsert(s: State, t: TaskId, f: Time, o: Outcome, id: JobId, nextAt: Time)
    requires Enabled(s, Succeed(t, f, o)) && o.reported && s.tasks[t].snap.IsRecurring()
    requires s.db.jobs[s.tasks[t].job].status == Running && ClaimGate(s.db.jobs[s.tasks[t].job], s.db.now)
    requires id !in s.db.jobs && nextAt > s.db.now
    ensures var after := Next(Next(s, Succeed(t, f, o)), InsertNext(t, id, nextAt));
      && id in after.db.jobs && after.db.jobs[id].prev == Some(s.tasks[t].job)
      && (LinkLaw(after.db, id) <==> o.Committed?)
  {
    var p := s.tasks[t].job;
    var mid := Next(s, Succeed(t, f, o));
    assert mid.tasks[t].phase == Done(s.db.now, o.Committed?);
    assert p in mid.db.jobs && id !in mid.db.jobs;
    assert mid.db.jobs[p] == if o.Committed? then CompleteRow(s.db.jobs[p]) else s.db.jobs[p];
    InsertLinks(mid, t, id, nextAt);
  }

  lemma {:induction false} InsertLinks(s: State, t: TaskId, id: JobId, nextAt: Time)
    requires Enabled(s, InsertNext(t, id, nextAt)) && ClaimGate(s.db.jobs[s.tasks[t].job], s.tasks[t].phase.at)
    ensures var db := Next(s, InsertNext(t, id, nextAt)).db;
      && id in db.jobs && db.jobs[id].prev == Some(s.tasks[t].job)
      && (LinkLaw(db, id) <==> s.db.jobs[s.tasks[t].job].status == Completed)
  {
  }
}
