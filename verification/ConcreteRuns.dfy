/** Concrete runs in which the careless steps do their damage: recovery of a live worker, overlapping
    manual retries, and an insertion after a commit that never took effect. */
module ConcreteRuns {
  import opened Domain
  import opened Backoff
  import opened Tables
  import opened Protocol
  import opened AllRuns
  import opened ExactRuns
  import opened LimitsOfTheProtocol
  import opened RecurringChains

  /** Two live tasks hold the same job. */
  predicate DoublyHeld(s: State) {
    exists t, u | t in s.tasks && u in s.tasks && t != u ::
      s.tasks[t].Holding() && s.tasks[u].Holding() && s.tasks[t].job == s.tasks[u].job
  }

  lemma {:induction false} RunTwo(s: State, a: Action, b: Action)
    ensures Run(s, [a, b]) == Next(Next(s, a), b)
    ensures FailStop(s, [a, b]) <==> Disciplined(s, a) && Disciplined(Next(s, a), b)
  {
    hide Next, Disciplined;
    assert [a, b] == [a] + [b];
    RunSnoc(s, [], a);
    RunSnoc(s, [a], b);
  }

  lemma {:induction false} RunThree(s: State, a: Action, b: Action, c: Action)
    ensures Run(s, [a, b, c]) == Next(Next(Next(s, a), b), c)
    ensures FailStop(s, [a, b, c]) <==> FailStop(s, [a, b]) && Disciplined(Next(Next(s, a), b), c)
  {
    hide Next, Disciplined;
    assert [a, b, c] == [a, b] + [c];
    RunTwo(s, a, b);
    RunSnoc(s, [a, b], c);
  }

  // ---------------------------------------------------------------- small states

  const LIMIT: int := 9

  /** One open queue, all pollers idle, and only job 0 possibly queued. */
  ghost predicate Small(s: State) {
    && s.db.queues == map[0 := Queue(LIMIT, false, None)] && 0 in s.db.jobs
    && s.db.jobs.Keys <= {0, 1, 2} && s.db.jobs[0].queue == 0 && s.db.jobs[0].scheduledAt.None?
    && (forall j | j in s.db.jobs && j != 0 :: s.db.jobs[j].status == Scheduled)
    && forall w: WorkerId :: PollOf(s, w).Idle?
  }

  function Grabbed(s: State, w: WorkerId, t: TaskId): State
    requires 0 in s.db.jobs
  {
    s.(db := ClaimDb(s.db, w, 0), pollers := s.pollers[w := Admitted(0)][w := Idle],
       tasks := s.tasks[t := Task(w, 0, ClaimRow(s.db.jobs[0], w, s.db.now), s.db.now, Spawned)])
  }

  /** One turn of a poller that claims job 0. */
  function Turn(w: WorkerId, t: TaskId): seq<Action> {
    [PollPause(w, 0), PollCount(w), Claim(w, t, 0, {})]
  }

  lemma {:induction false} Grab(s: State, w: WorkerId, t: TaskId)
    requires Small(s) && s.db.jobs[0].status == Queued && t !in s.tasks
    ensures Run(s, Turn(w, t)) == Grabbed(s, w, t) && FailStop(s, Turn(w, t))
    ensures Small(Grabbed(s, w, t))
  {
    RunThree(s, PollPause(w, 0), PollCount(w), Claim(w, t, 0, {}));
    assert FailStop(s, [PollPause(w, 0), PollCount(w)]) by { RunTwo(s, PollPause(w, 0), PollCount(w)); }
    assert RunningJobs(s.db, 0) <= {0, 1, 2};
    SubsetOfThree(RunningJobs(s.db, 0));
    PollNext(s, w, 0);
    hide Next, Run, FailStop;
    var polled := s.(pollers := s.pollers[w := Admitted(0)]);
    ClaimNext(polled, w, 0, t, 0, {});
    forall v: WorkerId ensures PollOf(Grabbed(s, w, t), v).Idle? {
      assert PollOf(s, v).Idle?;
    }
  }

  lemma {:induction false} SubsetOfThree(a: set<JobId>)
    requires a <= {0, 1, 2}
    ensures |a| <= 3
  {
    assert a == {0, 1, 2} - ({0, 1, 2} - a);
  }

  /** Two claims of job 0, the first one robbed, leave two holders. */
  lemma {:induction false} HeldTwice(s: State, t: TaskId, w: WorkerId, u: TaskId)
    requires 0 in s.db.jobs && t in s.tasks && s.tasks[t].Holding() && s.tasks[t].job == 0 && u != t
    ensures DoublyHeld(Grabbed(s, w, u))
  {
    var s' := Grabbed(s, w, u);
    assert t in s'.tasks && u in s'.tasks && s'.tasks[t].Holding() && s'.tasks[u].Holding();
  }

  // ---------------------------------------------------------------- recovery of a live worker

  /** A job is created, worker 1 beats once and claims it. */
  function Opening(r: JobRequest): seq<Action> {
    [Create(0, 0, r), Heartbeat(1)] + Turn(1, 0)
  }

  const SILENCE: Time := 61_000_000

  /** Worker 1 is silent for 61 seconds and taken for dead, and worker 2 claims. */
  const WRONGFUL_RECOVERY: seq<Action> := Opening(REQUEST) + [Advance(SILENCE), Recover] + Turn(2, 1)

  /** The state in which worker 1 polls. */
  function Opened(r: JobRequest): State {
    var s0 := EmptyState(LIMIT);
    s0.(db := s0.db.(jobs := map[0 := NewJob(0, Queue(LIMIT, false, None), r, 0)], lastSeen := map[1 := 0]))
  }

  lemma {:induction false} OpeningRun(r: JobRequest)
    requires (r.jobType == Immediate || r.jobType == Recurring) && r.idempotencyKey.None?
    ensures var s0 := EmptyState(LIMIT);
      && Run(s0, Opening(r)) == Grabbed(Opened(r), 1, 0) && FailStop(s0, Opening(r)) && Small(Grabbed(Opened(r), 1, 0))
  {
    var s0, s := EmptyState(LIMIT), Opened(r);
    RunTwo(s0, Create(0, 0, r), Heartbeat(1));
    CreateNext(s0, 0, 0, r);
    assert Next(Next(s0, Create(0, 0, r)), Heartbeat(1)).db.jobs == s.db.jobs;
    hide Next;
    Grab(s, 1, 0);
    Extend(s0, [Create(0, 0, r), Heartbeat(1)], Turn(1, 0));
  }

  /** Running on after a fail-stop prefix. */
  lemma {:induction false} Extend(s0: State, a: seq<Action>, b: seq<Action>)
    ensures Run(s0, a + b) == Run(Run(s0, a), b)
    ensures FailStop(s0, a) && FailStop(Run(s0, a), b) ==> FailStop(s0, a + b)
    decreases |b|
  {
    hide Next, Disciplined;
    RunConcat(s0, a, b);
    if b == [] {
      assert a + b == a;
    } else {
      var n := |b| - 1;
      Extend(s0, a, b[..n]);
      assert (a + b)[..|a| + n] == a + b[..n];
    }
  }

  /** Recovery when worker 1, whose beat is 61 seconds old, holds job 0. */
  lemma {:induction false} SilentRecovered(s: State)
    requires Small(s) && s.db.now == SILENCE && s.db.lastSeen == map[1 := 0]
    requires s.db.jobs[0].Held() && s.db.jobs[0].worker == Some(1)
    ensures var s' := s.(db := RecoverDb(s.db));
      && Small(s') && s'.db.jobs[0].status == Queued && s'.db.jobs.Keys == s.db.jobs.Keys
      && SameJob(s.db.jobs[0], s'.db.jobs[0])
      && forall j | j in s.db.jobs && j != 0 :: s'.db.jobs[j] == s.db.jobs[j]
  {
    assert Orphaned(s.db, s.db.jobs[0]);
    forall w: WorkerId ensures PollOf(s.(db := RecoverDb(s.db)), w).Idle? {
      assert PollOf(s, w).Idle?;
    }
  }

  /** A worker that held job 0 and fell silent loses it to recovery, alive or not. */
  lemma {:induction false} SilenceRun(s: State)
    requires Small(s) && s.db.now == 0 && s.db.lastSeen == map[1 := 0]
    requires s.db.jobs[0].Held() && s.db.jobs[0].worker == Some(1)
    ensures var s' := Run(s, [Advance(SILENCE), Recover]);
      && Small(s') && s'.db.jobs[0].status == Queued && s'.tasks == s.tasks && s'.db.jobs.Keys == s.db.jobs.Keys
      && s'.db.now == SILENCE && SameJob(s.db.jobs[0], s'.db.jobs[0])
      && forall j | j in s.db.jobs && j != 0 :: s'.db.jobs[j] == s.db.jobs[j]
    ensures s.tasks == map[] ==> FailStop(s, [Advance(SILENCE), Recover])
  {
    RunTwo(s, Advance(SILENCE), Recover);
    AdvanceNext(s, SILENCE);
    var late := s.(db := s.db.(now := SILENCE));
    RecoverNext(late);
    hide Next, Run, FailStop, RecoverRow;
    assert Small(late) by { LaterIsSmall(s); }
    hide Small, SameJob;
    SilentRecovered(late);
  }

  lemma {:induction false} LaterIsSmall(s: State)
    requires Small(s)
    ensures Small(s.(db := s.db.(now := SILENCE)))
  {
    forall w: WorkerId ensures PollOf(s.(db := s.db.(now := SILENCE)), w).Idle? {
      assert PollOf(s, w).Idle?;
    }
  }

  /** Recovery of a worker that is alive but silent ends with two holders, without any manual retry. */
  lemma {:induction false} WrongfulRecoveryDoublyHolds()
    ensures Initial(EmptyState(LIMIT)) && DoublyHeld(Run(EmptyState(LIMIT), WRONGFUL_RECOVERY))
  {
    var s0 := EmptyState(LIMIT);
    OpeningRun(REQUEST);
    hide Run, Small, DoublyHeld;
    var s1 := Grabbed(Opened(REQUEST), 1, 0);
    SilenceRun(s1);
    var s2 := Run(s1, [Advance(SILENCE), Recover]);
    Grab(s2, 2, 1);
    HeldTwice(s2, 0, 2, 1);
    Extend(s0, Opening(REQUEST), [Advance(SILENCE), Recover]);
    Extend(s0, Opening(REQUEST) + [Advance(SILENCE), Recover], Turn(2, 1));
  }

  // ---------------------------------------------------------------- overlapping manual retries

  /** A job with one attempt. */
  const ONCE: JobRequest := REQUEST.(maxAttempts := Some(1))

  /** The job is dead-lettered, and two users pass the check before either transaction runs. */
  const BURIED: seq<Action> := [MarkRunning(0, 0), Fail(0, 0, 0, false, 0, Committed(true))]

  /** The second transaction requeues the job while worker 2 holds it. */
  const OVERLAPPING_RETRIES: seq<Action> :=
    Opening(ONCE) + BURIED + [RetryCheck(0), RetryCheck(0), RetryCommit(0, true)] + Turn(2, 1)
    + [RetryCommit(0, true)] + Turn(3, 2)

  lemma {:induction false} BuriedRun()
    ensures var s := Run(Grabbed(Opened(ONCE), 1, 0), BURIED);
      && Small(s) && s.db.dlq == [DlqEntry(0, 1, false)] && s.tasks == map[] && s.retrying == multiset{}
  {
    var s := Grabbed(Opened(ONCE), 1, 0);
    RunTwo(s, BURIED[0], BURIED[1]);
    MarkNext(s, 0, 0);
    var running := Next(s, BURIED[0]);
    assert running.tasks[0].snap.maxAttempts == 1 && DeadLettered(running.tasks[0]);
    FailNext(running, BURIED[1]);
    hide Next, Run;
    assert running.tasks - {0} == map[];
    forall w: WorkerId ensures PollOf(Run(s, BURIED), w).Idle? {
      assert s.pollers == map[1 := Idle];
    }
  }

  lemma {:induction false} ReviveNext(s: State)
    requires Small(s) && |s.db.dlq| == 1 && s.db.dlq[0].job == 0 && 0 in s.retrying
    ensures var s' := Next(s, RetryCommit(0, true));
      && Small(s') && s'.db.jobs[0].status == Queued && s'.tasks == s.tasks
      && s'.retrying == s.retrying - multiset{0} && |s'.db.dlq| == 1 && s'.db.dlq[0].job == 0
  {
    RetryCommitNext(s, 0);
    hide Next;
    forall w: WorkerId ensures PollOf(Next(s, RetryCommit(0, true)), w).Idle? {
      assert PollOf(s, w).Idle?;
    }
  }

  lemma {:induction false} ChecksPass(s: State)
    requires Small(s) && s.db.dlq == [DlqEntry(0, 1, false)]
    ensures Next(Next(s, RetryCheck(0)), RetryCheck(0)) == s.(retrying := s.retrying + multiset{0} + multiset{0})
    ensures Small(Next(Next(s, RetryCheck(0)), RetryCheck(0)))
  {
    assert Next(s, RetryCheck(0)) == s.(retrying := s.retrying + multiset{0});
    forall w: WorkerId ensures PollOf(Next(Next(s, RetryCheck(0)), RetryCheck(0)), w).Idle? {
      assert PollOf(s, w).Idle?;
    }
  }

  /** Two overlapping manual retries of one dead letter end with two holders, without any recovery. */
  lemma {:induction false} OverlappingRetriesDoublyHold()
    ensures Initial(EmptyState(LIMIT)) && DoublyHeld(Run(EmptyState(LIMIT), OVERLAPPING_RETRIES))
  {
    var s0 := EmptyState(LIMIT);
    OpeningRun(ONCE);
    BuriedRun();
    hide Small, DoublyHeld, Opened;
    var checks := [RetryCheck(0), RetryCheck(0), RetryCommit(0, true)];
    var s1 := Run(Grabbed(Opened(ONCE), 1, 0), BURIED);
    RunThree(s1, RetryCheck(0), RetryCheck(0), RetryCommit(0, true));
    ChecksPass(s1);
    ReviveNext(Next(Next(s1, RetryCheck(0)), RetryCheck(0)));
    var s2 := Run(s1, checks);
    Grab(s2, 2, 1);
    var s3 := Grabbed(s2, 2, 1);
    RunOne(s3, RetryCommit(0, true));
    ReviveNext(s3);
    var s4 := Next(s3, RetryCommit(0, true));
    Grab(s4, 3, 2);
    hide Run, Next;
    HeldTwice(s4, 1, 3, 2);
    Extend(s0, Opening(ONCE), BURIED);
    Extend(s0, Opening(ONCE) + BURIED, checks);
    Extend(s0, Opening(ONCE) + BURIED + checks, Turn(2, 1));
    Extend(s0, Opening(ONCE) + BURIED + checks + Turn(2, 1), [RetryCommit(0, true)]);
    Extend(s0, Opening(ONCE) + BURIED + checks + Turn(2, 1) + [RetryCommit(0, true)], Turn(3, 2));
  }

  // ---------------------------------------------------------------- a forked chain

  const HOURLY: JobRequest := REQUEST.(jobType := Recurring, cron := Some("0 * * * *"))

  const HOUR: Time := 3_600_000_000

  /** The task marks the row, ends its success transaction and inserts the next occurrence. */
  function Execute(t: TaskId, at: Time, o: Outcome, id: JobId): seq<Action> {
    [MarkRunning(t, at), Succeed(t, at, o), InsertNext(t, id, HOUR)]
  }

  /** The first execution inserts the next occurrence although its transaction was rolled back;
      worker 1 then dies, recovery requeues the job and worker 2 really completes it. */
  const FORKED_CHAIN: seq<Action> :=
    Opening(HOURLY) + Execute(0, 0, RolledBack(true), 1) + [Advance(SILENCE), Recover]
    + Turn(2, 1) + Execute(1, SILENCE, Committed(true), 2)

  /** The row of job 0 and the next occurrence after an execution. */
  predicate Executed(before: State, after: State, t: TaskId, committed: bool, id: JobId)
    requires 0 in before.db.jobs
  {
    && after.db.now == before.db.now && after.db.lastSeen == before.db.lastSeen && after.tasks == before.tasks - {t}
    && after.db.queues == before.db.queues && after.pollers == before.pollers && id !in before.db.jobs
    && var row := if committed then CompleteRow(RunRow(before.db.jobs[0])) else RunRow(before.db.jobs[0]);
       after.db.jobs == before.db.jobs[0 := row][id := NextOccurrence(0, row, HOUR, before.db.now)]
  }

  lemma {:induction false} ExecuteRun(s: State, t: TaskId, o: Outcome, id: JobId)
    requires 0 in s.db.jobs && o.reported && s.db.now < HOUR && id !in s.db.jobs
    requires t in s.tasks && s.tasks[t].job == 0 && s.tasks[t].phase.Spawned? && s.tasks[t].spawnedAt <= s.db.now
    requires s.tasks[t].snap.IsRecurring()
    ensures Executed(s, Run(s, Execute(t, s.db.now, o, id)), t, o.Committed?, id)
    ensures FailStop(s, Execute(t, s.db.now, o, id))
  {
    var now := s.db.now;
    RunThree(s, MarkRunning(t, now), Succeed(t, now, o), InsertNext(t, id, HOUR));
    RunTwo(s, MarkRunning(t, now), Succeed(t, now, o));
    MarkNext(s, t, now);
    var running := Next(s, MarkRunning(t, now));
    SucceedNext(running, t, now, o);
    var done := Next(running, Succeed(t, now, o));
    assert done.tasks[t] == s.tasks[t].(phase := Done(now, o.Committed?));
    OccurrenceNext(done, t, id, HOUR);
    hide Next, Run, FailStop, NextOccurrence;
    assert done.tasks - {t} == s.tasks - {t};
  }

  lemma {:induction false} ExecutedIsSmall(s: State, s': State, t: TaskId, committed: bool, id: JobId)
    requires Small(s) && Executed(s, s', t, committed, id) && id <= 2
    ensures Small(s') && s'.db.jobs.Keys == s.db.jobs.Keys + {id} && s'.db.jobs[id].prev == Some(0)
    ensures s'.db.jobs[0] == if committed then CompleteRow(RunRow(s.db.jobs[0])) else RunRow(s.db.jobs[0])
    ensures forall j | j in s.db.jobs && j != 0 :: s'.db.jobs[j] == s.db.jobs[j]
  {
    forall w: WorkerId ensures PollOf(s', w).Idle? {
      assert PollOf(s, w).Idle?;
    }
  }

  /** Two occurrences follow the same job. */
  predicate Forked(db: Db) {
    exists j, k | j in db.jobs && k in db.jobs :: j != k && db.jobs[j].prev == db.jobs[k].prev == Some(0)
  }

  /** Worker 1 holds job 0 and may insert job 1. */
  predicate FirstHold(s: State) {
    && s.db.jobs.Keys == {0} && s.db.now == 0 && s.db.lastSeen == map[1 := 0] && s.tasks.Keys == {0}
    && s.tasks[0].job == 0 && s.tasks[0].phase.Spawned? && s.tasks[0].spawnedAt == 0 && s.tasks[0].snap.IsRecurring()
    && s.db.jobs[0].worker == Some(1) && s.db.jobs[0].IsRecurring()
  }

  lemma {:induction false} HourlyOpened()
    ensures FirstHold(Grabbed(Opened(HOURLY), 1, 0))
  {
  }

  /** The first execution: nothing is committed, but the next occurrence is inserted. */
  lemma {:induction false} RolledBackStep(s: State)
    requires Small(s) && FirstHold(s)
    ensures var s' := Run(s, Execute(0, 0, RolledBack(true), 1));
      && Small(s') && s'.tasks == map[] && s'.db.jobs.Keys == {0, 1} && s'.db.jobs[1].prev == Some(0)
      && s'.db.now == 0 && s'.db.lastSeen == map[1 := 0]
      && s'.db.jobs[0].Held() && s'.db.jobs[0].worker == Some(1) && s'.db.jobs[0].IsRecurring()
    ensures FailStop(s, Execute(0, 0, RolledBack(true), 1))
  {
    hide Run, FailStop, Small;
    ExecuteRun(s, 0, RolledBack(true), 1);
    ExecutedIsSmall(s, Run(s, Execute(0, 0, RolledBack(true), 1)), 0, false, 1);
  }

  lemma {:induction false} SecondExecution(s: State)
    requires Small(s) && s.tasks == map[] && s.db.jobs.Keys == {0, 1} && s.db.jobs[1].prev == Some(0)
    requires s.db.jobs[0].status == Queued && s.db.jobs[0].IsRecurring() && s.db.now == SILENCE
    ensures Forked(Run(s, Turn(2, 1) + Execute(1, SILENCE, Committed(true), 2)).db)
    ensures FailStop(s, Turn(2, 1) + Execute(1, SILENCE, Committed(true), 2))
  {
    Grab(s, 2, 1);
    hide Run, FailStop, Small, Executed;
    var held := Grabbed(s, 2, 1);
    ExecuteRun(held, 1, Committed(true), 2);
    var end := Run(held, Execute(1, SILENCE, Committed(true), 2));
    ExecutedIsSmall(held, end, 1, true, 2);
    assert end.db.jobs[1].prev == end.db.jobs[2].prev == Some(0);
    Extend(s, Turn(2, 1), Execute(1, SILENCE, Committed(true), 2));
  }

  lemma {:induction false} ForkedIsNotLinear(db: Db)
    requires Forked(db)
    ensures !LinearChains(db)
  {
  }

  lemma {:induction false} OneDishonestCommit()
    ensures forall i | 0 <= i < |FORKED_CHAIN| && i != 6 :: HonestCommit(FORKED_CHAIN[i])
  {
  }

  /** One commit that was rolled back and reported as success forks a chain in a run that is fail-stop:
      two occurrences follow the same job. */
  lemma {:induction false} ReportedRollbackForks()
    ensures var s0 := EmptyState(LIMIT); var db := Run(s0, FORKED_CHAIN).db;
      Initial(s0) && FailStop(s0, FORKED_CHAIN) && Forked(db) && !LinearChains(db)
    ensures forall i | 0 <= i < |FORKED_CHAIN| && i != 6 :: HonestCommit(FORKED_CHAIN[i])
  {
    var s0, first, silence := EmptyState(LIMIT), Execute(0, 0, RolledBack(true), 1), [Advance(SILENCE), Recover];
    var last := Turn(2, 1) + Execute(1, SILENCE, Committed(true), 2);
    assert Opening(HOURLY) + first + silence + last == FORKED_CHAIN;
    OneDishonestCommit();
    OpeningRun(HOURLY);
    HourlyOpened();
    hide Run, FailStop, Small, Forked, LinearChains, Opening, Opened, Grabbed, Execute, Turn, FirstHold, HonestCommit;
    var s1 := Run(s0, Opening(HOURLY));
    RolledBackStep(s1);
    var s2 := Run(s1, first);
    SilenceRun(s2);
    var s3 := Run(s2, silence);
    SecondExecution(s3);
    Extend(s0, Opening(HOURLY), first);
    Extend(s0, Opening(HOURLY) + first, silence);
    Extend(s0, Opening(HOURLY) + first + silence, last);
    ForkedIsNotLinear(Run(s0, FORKED_CHAIN).db);
  }
}
