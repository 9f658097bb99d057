/** What the protocol does not guarantee, and exactly when it does. */
module LimitsOfTheProtocol {
  import opened Domain
  import opened Tables
  import opened Protocol
  import opened Effects
  import opened AllRuns
  import opened ExactRuns
  import opened Admission

  // ---------------------------------------------------------------- care is exact

  /** Recovery takes the row from a live task whenever its worker is stale, also when the worker
      claimed before its first heartbeat. */
  lemma {:induction false} RecoveryRobs(s: State, t: TaskId)
    requires Consistent(s) && t in s.tasks && s.tasks[t].Holding() && Stale(s.db, s.tasks[t].worker)
    ensures var s' := Next(s, Recover);
      && t in s'.tasks && s'.tasks[t] == s.tasks[t] && s.tasks[t].job in s'.db.jobs
      && s'.db.jobs[s.tasks[t].job].status == Queued && s'.db.jobs[s.tasks[t].job].worker.None?
      && !Consistent(s')
  {
    hide Next, ExactLaws, Stale;
    OwnsNow(s, t);
    RecoverNext(s);
    assert !TaskOwns(Next(s, Recover), s.tasks[t]);
  }

  /** A revived job breaks its exact laws iff it was completed or has a later unretried entry. */
  lemma {:induction false} RevivedLaws(v: JobView, k: nat, now: Time)
    requires ExactLaws(v, now) && k < |v.dead|
    ensures ExactLaws(After(v, Revive(k), now), now) <==> Harmless(v, Revive(k), now)
  {
    if Harmless(v, Revive(k), now) {
      ExactLawsKept(v, Revive(k), now);
    } else if v.row.status != Completed {
      var w := After(v, Revive(k), now);
      assert w.dead[|w.dead| - 1] == v.dead[|v.dead| - 1];
    }
  }

  lemma {:induction false} RetryRobs(s: State, e: nat)
    requires Consistent(s) && Enabled(s, RetryCommit(e, true)) && !Revivable(s, e)
    ensures !Consistent(Next(s, RetryCommit(e, true)))
  {
    hide ExactLaws, Harmless, After;
    var a, j := RetryCommit(e, true), s.db.dlq[e].job;
    var s' := Next(s, a);
    StepEffect(s, a, j);
    DlqRankAt(s.db.dlq, e);
    RevivedLaws(View(s.db, j), DlqRank(s.db.dlq, e), s.db.now);
    if !NobodyHolds(s, j) {
      var t :| t in s.tasks && s.tasks[t].job == j && s.tasks[t].Holding();
      RetryCommitNext(s, e);
      assert !TaskOwns(s', s'.tasks[t]);
    } else {
      assert !Harmless(View(s.db, j), Revive(DlqRank(s.db.dlq, e)), s.db.now) by {
        NotRevivable(s, e);
      }
      assert !ExactLaws(View(s'.db, j), s'.db.now);
    }
  }

  lemma {:induction false} NotRevivable(s: State, e: nat)
    requires e < |s.db.dlq| && s.db.dlq[e].job in s.db.jobs
    requires !Revivable(s, e) && NobodyHolds(s, s.db.dlq[e].job)
    ensures !Harmless(View(s.db, s.db.dlq[e].job), Revive(DlqRank(s.db.dlq, e)), s.db.now)
  {
  }

  /** What the tables and the live tasks show stays consistent in a step iff the step is careful:
      recovery finds no live task of a stale worker, and a committing manual retry finds its job not
      completed, without a live task and without a later unretried dead letter. */
  lemma {:induction false} ConsistentIffCareful(s: State, a: Action)
    requires References(s) && NoStrays(s) && Consistent(s)
    ensures Consistent(Next(s, a)) <==> Careful(s, a)
  {
    hide Consistent, References, NoStrays, Next, Revivable;
    if Careful(s, a) {
      ConsistentStep(s, a);
    } else if a.Recover? {
      var t :| t in s.tasks && s.tasks[t].Holding() && Stale(s.db, s.tasks[t].worker);
      RecoveryRobs(s, t);
    } else {
      RetryRobs(s, a.entry);
    }
  }

  /** Every step of the run is careful where it happens. */
  predicate CarefulRun(s0: State, acts: seq<Action>) {
    forall k | 0 <= k < |acts| :: Careful(Run(s0, acts[..k]), acts[k])
  }

  predicate AlwaysConsistent(s0: State, acts: seq<Action>) {
    forall k | 0 <= k <= |acts| :: Consistent(Run(s0, acts[..k]))
  }

  /** A run is consistent at every point iff every step of it is careful. */
  lemma {:induction false} ConsistentRunsAreCareful(s0: State, acts: seq<Action>)
    requires Initial(s0)
    ensures AlwaysConsistent(s0, acts) <==> CarefulRun(s0, acts)
    decreases |acts|
  {
    hide Run, Careful, Consistent, Initial, Next;
    if acts == [] {
      assert acts[..0] == acts;
      NothingYet(s0);
    } else {
      var n := |acts| - 1;
      var a := acts[n];
      assert acts[..n] + [a] == acts == acts[..n + 1];
      forall k | 0 <= k <= n ensures acts[..n][..k] == acts[..k] {
      }
      ConsistentRunsAreCareful(s0, acts[..n]);
      AllLawsHold(s0, acts[..n]);
      RunSnoc(s0, acts[..n], a);
      if Consistent(Run(s0, acts[..n])) {
        ConsistentIffCareful(Run(s0, acts[..n]), a);
      }
      CareSplits(s0, acts, n);
    }
  }

  lemma {:induction false} NothingYet(s0: State)
    requires Initial(s0)
    ensures Consistent(Run(s0, []))
  {
  }

  lemma {:induction false} CareSplits(s0: State, acts: seq<Action>, n: nat)
    requires |acts| == n + 1
    ensures CarefulRun(s0, acts) <==> CarefulRun(s0, acts[..n]) && Careful(Run(s0, acts[..n]), acts[n])
    ensures AlwaysConsistent(s0, acts) <==> AlwaysConsistent(s0, acts[..n]) && Consistent(Run(s0, acts))
  {
    hide Run, Careful, Consistent;
    assert acts[..n + 1] == acts;
    forall k | 0 <= k <= n ensures acts[..n][..k] == acts[..k] {
    }
  }

  /** Fail-stop runs are careful, but not only they: manual retries of one entry may overlap as long
      as each commit is careful. */
  lemma {:induction false} FailStopRunsAreCareful(s0: State, acts: seq<Action>)
    requires Initial(s0) && FailStop(s0, acts)
    ensures CarefulRun(s0, acts)
    decreases |acts|
  {
    hide Careful, Exact, Disciplined;
    if acts != [] {
      var n := |acts| - 1;
      FailStopRunsAreCareful(s0, acts[..n]);
      ExactHolds(s0, acts[..n]);
      DisciplinedIsCareful(Run(s0, acts[..n]), acts[n]);
      CareSplits(s0, acts, n);
    }
  }

  // ---------------------------------------------------------------- the admission bound is tight

  const REQUEST := JobRequest(Immediate, None, None, None, None, None, None)

  /** An empty database with one queue. */
  function EmptyState(limit: int): State {
    State(Db(0, map[0 := Queue(limit, false, None)], map[], map[], [], [], [], map[]), map[], map[], multiset{})
  }

  function Below(n: nat): (ids: set<nat>)
    ensures |ids| == n && forall k: nat :: k in ids <==> k < n
  {
    if n == 0 then {} else Below(n - 1) + {n - 1}
  }

  /** The jobs and tasks below r exist; every job runs. */
  predicate Busy(s: State, limit: int, r: nat) {
    && s.db.now == 0 && s.db.queues == map[0 := Queue(limit, false, None)]
    && s.db.jobs.Keys == s.tasks.Keys == Below(r)
    && (forall j | j in s.db.jobs :: s.db.jobs[j].queue == 0 && s.db.jobs[j].status == Running)
    && (forall t | t in s.tasks :: s.tasks[t].phase.Started?)
  }

  /** The pollers of the workers below p passed the limit check, and the others are idle. */
  ghost predicate Passed(s: State, p: nat) {
    forall w: WorkerId :: PollOf(s, w) == (if w < p then Admitted(0) else Idle)
  }

  ghost predicate Crowd(s: State, limit: int, r: nat, p: nat) {
    Busy(s, limit, r) && Passed(s, p)
  }

  lemma {:induction false} CrowdCounts(s: State, limit: int, r: nat, p: nat)
    requires Crowd(s, limit, r, p)
    ensures RunningCount(s, 0) == r && PendingChecks(s, 0) == p
  {
    assert RunningJobs(s.db, 0) == Below(r);
    forall w: WorkerId ensures w in AdmittedTo(s, 0) <==> w in Below(p) {
      assert PollOf(s, w) == if w < p then Admitted(0) else Idle;
    }
    assert AdmittedTo(s, 0) == Below(p);
    assert SpawnedIn(s, 0) == {};
  }

  /** At no point of the run are more than c checks outstanding. */
  predicate Bounded(s0: State, acts: seq<Action>, c: nat) {
    forall k | 0 <= k <= |acts| :: PendingChecks(Run(s0, acts[..k]), 0) <= c
  }

  lemma {:induction false} BoundedSnoc(s0: State, acts: seq<Action>, a: Action, c: nat)
    requires Bounded(s0, acts, c) && PendingChecks(Next(Run(s0, acts), a), 0) <= c
    ensures Bounded(s0, acts + [a], c) && Run(s0, acts + [a]) == Next(Run(s0, acts), a)
  {
    hide Next, PendingChecks, Run;
    RunSnoc(s0, acts, a);
    forall k | 0 <= k <= |acts| + 1 ensures PendingChecks(Run(s0, (acts + [a])[..k]), 0) <= c {
      assert (acts + [a])[..k] == if k <= |acts| then acts[..k] else acts + [a];
    }
  }

  /** A step that is no limit check adds no outstanding check. */
  lemma {:induction false} CalmSnoc(s0: State, acts: seq<Action>, a: Action, c: nat)
    requires Bounded(s0, acts, c) && !a.PollCount?
    ensures Bounded(s0, acts + [a], c) && Run(s0, acts + [a]) == Next(Run(s0, acts), a)
  {
    hide Next, PendingChecks, Run;
    assert acts[..|acts|] == acts;
    PendingSize(Run(s0, acts), a, 0);
    BoundedSnoc(s0, acts, a, c);
  }

  lemma {:induction false} CheckNext(s: State, limit: int, r: nat, p: nat)
    requires Crowd(s, limit, r, p) && r < limit
    ensures Crowd(Next(Next(s, PollPause(p, 0)), PollCount(p)), limit, r, p + 1)
  {
    hide Apply;
    CrowdCounts(s, limit, r, p);
    PollNext(s, p, 0);
    PollerSet(s, Next(Next(s, PollPause(p, 0)), PollCount(p)), p, Admitted(0));
  }

  lemma {:induction false} PollerSet(s: State, s': State, p: WorkerId, poll: Poll)
    requires s'.pollers == s.pollers[p := poll]
    ensures forall w: WorkerId :: PollOf(s', w) == (if w == p then poll else PollOf(s, w))
  {
  }

  lemma {:induction false} NewcomerIsBest(s: State, limit: int, r: nat, p: nat)
    requires Crowd(s, limit, r, p + 1)
    ensures r !in s.db.jobs && r !in s.tasks && 0 in s.db.queues && s.db.now == 0 && PollOf(s, p) == Admitted(0)
    ensures Claimable(PutRow(s.db, r, NewJob(0, s.db.queues[0], REQUEST, 0)), 0, {}, r)
    ensures NewJob(0, s.db.queues[0], REQUEST, 0).queue == 0
  {
  }

  lemma {:induction false} KeysGrow<V>(m: map<nat, V>, r: nat, v: V)
    requires m.Keys == Below(r)
    ensures m[r := v].Keys == Below(r + 1)
  {
    assert Below(r + 1) == Below(r) + {r};
  }

  lemma {:induction false} BusyGrows(s: State, s': State, limit: int, r: nat, row: Job, t: Task)
    requires Busy(s, limit, r) && row.queue == 0 && row.status == Running && t.phase.Started?
    requires s'.db == PutRow(s.db, r, row) && s'.tasks == s.tasks[r := t]
    ensures Busy(s', limit, r + 1)
  {
    KeysGrow(s.db.jobs, r, row);
    KeysGrow(s.tasks, r, t);
    hide Below;
    assert s'.db.jobs == s.db.jobs[r := row];
  }

  lemma {:induction false} CrowdGrows(s: State, s': State, limit: int, r: nat, p: nat, row: Job, t: Task)
    requires Crowd(s, limit, r, p + 1) && row.queue == 0 && row.status == Running && t.phase.Started?
    requires s'.db == PutRow(s.db, r, row) && s'.tasks == s.tasks[r := t] && s'.pollers == s.pollers[p := Idle]
    ensures Crowd(s', limit, r + 1, p)
  {
    hide Busy;
    BusyGrows(s, s', limit, r, row, t);
    PollerSet(s, s', p, Idle);
  }

  lemma {:induction false} ServeNext(s: State, limit: int, r: nat, p: nat)
    requires Crowd(s, limit, r, p + 1)
    ensures Crowd(Next(Next(Next(s, Create(r, 0, REQUEST)), Claim(p, r, r, {})), MarkRunning(r, 0)), limit, r + 1, p)
  {
    hide Next, Enabled, Claimable, NewJob, Crowd;
    NewcomerIsBest(s, limit, r, p);
    CreateNext(s, r, 0, REQUEST);
    var created := Next(s, Create(r, 0, REQUEST));
    ClaimNext(created, p, 0, r, r, {});
    var claimed := Next(created, Claim(p, r, r, {}));
    MarkNext(claimed, r, 0);
    var running := Next(claimed, MarkRunning(r, 0));
    assert running.db == PutRow(s.db, r, running.db.jobs[r]);
    CrowdGrows(s, running, limit, r, p, running.db.jobs[r], running.tasks[r]);
  }

  /** The worker p passes the limit check. */
  lemma {:induction false} Check(s0: State, before: seq<Action>, limit: int, r: nat, p: nat, c: nat)
    returns (acts: seq<Action>)
    requires Crowd(Run(s0, before), limit, r, p) && r < limit && p < c && Bounded(s0, before, c)
    ensures Crowd(Run(s0, acts), limit, r, p + 1) && Bounded(s0, acts, c)
  {
    hide Next, PendingChecks, Run, Crowd;
    CheckNext(Run(s0, before), limit, r, p);
    CalmSnoc(s0, before, PollPause(p, 0), c);
    acts := before + [PollPause(p, 0)];
    CrowdCounts(Next(Run(s0, acts), PollCount(p)), limit, r, p + 1);
    BoundedSnoc(s0, acts, PollCount(p), c);
    acts := acts + [PollCount(p)];
  }

  /** The worker p claims a new job and marks it running. */
  lemma {:induction false} Serve(s0: State, before: seq<Action>, limit: int, r: nat, p: nat, c: nat)
    returns (acts: seq<Action>)
    requires Crowd(Run(s0, before), limit, r, p + 1) && Bounded(s0, before, c)
    ensures Crowd(Run(s0, acts), limit, r + 1, p) && Bounded(s0, acts, c)
  {
    hide Next, PendingChecks, Run, Crowd;
    ServeNext(Run(s0, before), limit, r, p);
    CalmSnoc(s0, before, Create(r, 0, REQUEST), c);
    acts := before + [Create(r, 0, REQUEST)];
    CalmSnoc(s0, acts, Claim(p, r, r, {}), c);
    acts := acts + [Claim(p, r, r, {})];
    CalmSnoc(s0, acts, MarkRunning(r, 0), c);
    acts := acts + [MarkRunning(r, 0)];
  }

  /** The bound of AdmissionBound is the least one: for every limit and every number c of
      outstanding checks, some run reaches it. With two checks the limit is already exceeded. */
  lemma {:induction false} AdmissionBoundIsReached(limit: int, c: nat) returns (acts: seq<Action>)
    requires limit >= 1 && c >= 1
    ensures Bounded(EmptyState(limit), acts, c)
    ensures RunningCount(Run(EmptyState(limit), acts), 0) == limit - 1 + c
  {
    hide Next, Crowd, PendingChecks, RunningCount, Bounded;
    var s0 := EmptyState(limit);
    acts := [];
    Deserted(limit, c);
    for n := 0 to limit - 1
      invariant Crowd(Run(s0, acts), limit, n, 0) && Bounded(s0, acts, c)
    {
      acts := Check(s0, acts, limit, n, 0, c);
      acts := Serve(s0, acts, limit, n, 0, c);
    }
    for p := 0 to c
      invariant Crowd(Run(s0, acts), limit, limit - 1, p) && Bounded(s0, acts, c)
    {
      acts := Check(s0, acts, limit, limit - 1, p, c);
    }
    for i := 0 to c
      invariant Crowd(Run(s0, acts), limit, limit - 1 + i, c - i) && Bounded(s0, acts, c)
    {
      acts := Serve(s0, acts, limit, limit - 1 + i, c - i - 1, c);
    }
    CrowdCounts(Run(s0, acts), limit, limit - 1 + c, 0);
  }

  lemma {:induction false} Deserted(limit: int, c: nat)
    ensures Crowd(EmptyState(limit), limit, 0, 0) && Bounded(EmptyState(limit), [], c)
  {
    CrowdCounts(EmptyState(limit), limit, 0, 0);
  }
}
