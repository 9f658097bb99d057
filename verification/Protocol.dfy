/** The job-lifecycle protocol: the shared database, the live tasks and pollers of the
    workers, and every atomic step that one of them can take. Each SQL statement that runs
    on its own and each transaction is one step. */
module Protocol {
  import opened Domain
  import opened Backoff
  import opened Tables

  datatype Db = Db(
    now: Time,
    queues: map<QueueId, Queue>,
    policies: map<PolicyId, RetryPolicy>,
    jobs: map<JobId, Job>,
    executions: seq<Execution>,
    dlq: seq<DlqEntry>,
    outbox: seq<Event>,
    lastSeen: map<WorkerId, Time>)

  /** Spawned: the claim returned and the task exists. Started: the row was marked running;
      startedAt is the clock value the task read first. Done: the completing transaction
      reported success; applied tells whether it really took effect. */
  datatype Phase = Spawned | Started(startedAt: Time) | Done(at: Time, applied: bool)

  /** A live executor task with the row that its claim returned. */
  datatype Task = Task(worker: WorkerId, job: JobId, snap: Job, spawnedAt: Time, phase: Phase) {
    predicate Holding() {
      !phase.Done?
    }
  }

  /** Where a worker's poller is between its statements. */
  datatype Poll = Idle | Unpaused(queue: QueueId) | Admitted(queue: QueueId)

  /** retrying: dead-letter entries whose "not yet retried" check has passed and whose
      transaction has not run yet. */
  datatype State = State(
    db: Db,
    tasks: map<TaskId, Task>,
    pollers: map<WorkerId, Poll>,
    retrying: multiset<nat>)

  datatype JobRequest = JobRequest(
    jobType: JobType, priority: Option<Priority>, maxAttempts: Option<int>, scheduledAt: Option<Time>,
    cron: Option<string>, idempotencyKey: Option<string>, policy: Option<PolicyId>)

  /** What became of a transaction, and what the client was told. */
  datatype Outcome = Committed(reported: bool) | RolledBack(reported: bool)

  datatype Action =
    | Advance(to: Time)
    | SetPaused(queue: QueueId, paused: bool)
    | Create(id: JobId, queue: QueueId, request: JobRequest)
    | Cancel(id: JobId)
    | PollPause(worker: WorkerId, queue: QueueId)
    | PollCount(worker: WorkerId)
    | PollGiveUp(worker: WorkerId)
    | Claim(worker: WorkerId, task: TaskId, id: JobId, locked: set<JobId>)
    | MarkRunning(task: TaskId, startedAt: Time)
    | Succeed(task: TaskId, finishedAt: Time, outcome: Outcome)
    | Fail(task: TaskId, finishedAt: Time, decidedAt: Time, policyFound: bool, delay: int, outcome: Outcome)
    | InsertNext(task: TaskId, id: JobId, nextAt: Time)
    | Stop(task: TaskId)
    | Crash(worker: WorkerId)
    | Promote
    | Heartbeat(worker: WorkerId)
    | Recover
    | RetryCheck(entry: nat)
    | RetryCommit(entry: nat, applied: bool)

  // ---------------------------------------------------------------- rows

  /** The row that job creation inserts; the job type decides the initial status. */
  function NewJob(q: QueueId, queue: Queue, r: JobRequest, now: Time): Job {
    var (status, scheduledAt) :=
      match r.jobType
      case Immediate => (Queued, None)
      case Delayed => (Scheduled, r.scheduledAt)
      case AtTime => (Scheduled, r.scheduledAt)
      case Recurring => (Queued, None)
      case Batch => (Queued, None);
    Job(q, r.jobType, if r.priority.Some? then r.priority.value else Normal, status, 0,
        if r.maxAttempts.Some? then r.maxAttempts.value else 3, scheduledAt, None, r.cron, None, None,
        r.idempotencyKey, if r.policy.Some? then r.policy else queue.policy, now, None, Tally(0, 0, 0))
  }

  function ClaimRow(row: Job, w: WorkerId, now: Time): Job {
    row.(status := Claimed, worker := Some(w), claimedAt := Some(now),
         tally := row.tally.(claims := row.tally.claims + 1))
  }

  function RunRow(row: Job): Job {
    row.(status := Running)
  }

  function CompleteRow(row: Job): Job {
    row.(status := Completed, worker := None)
  }

  function DeadRow(row: Job, attempt: int): Job {
    row.(status := Failed, attempts := attempt, worker := None)
  }

  function RetryRow(row: Job, attempt: int, nextAt: Time): Job {
    row.(status := Scheduled, nextAttemptAt := Some(nextAt), attempts := attempt, worker := None)
  }

  function ManualRow(row: Job): Job {
    row.(status := Queued, worker := None, claimedAt := None, nextAttemptAt := None,
         tally := row.tally.(manualRetries := row.tally.manualRetries + 1))
  }

  predicate Cancellable(row: Job) {
    row.status == Pending || row.status == Queued || row.status == Scheduled
  }

  function CancelRow(row: Job): Job {
    if Cancellable(row) then row.(status := Failed) else row
  }

  /** COALESCE(next_attempt_at, scheduled_at) <= NOW(); false when both are NULL. */
  predicate Due(row: Job, now: Time) {
    row.status == Scheduled &&
    (if row.nextAttemptAt.Some? then row.nextAttemptAt.value <= now
     else row.scheduledAt.Some? && row.scheduledAt.value <= now)
  }

  function PromoteRow(row: Job, now: Time): Job {
    if Due(row, now) then row.(status := Queued) else row
  }

  const STALE_THRESHOLD: int := 60

  /** No heartbeat row, or the last one is strictly older than the threshold. */
  predicate Stale(db: Db, w: WorkerId) {
    w !in db.lastSeen || db.now - db.lastSeen[w] > Seconds(STALE_THRESHOLD)
  }

  predicate Orphaned(db: Db, row: Job) {
    row.Held() && row.worker.Some? && Stale(db, row.worker.value)
  }

  function RecoverRow(db: Db, row: Job): Job {
    if Orphaned(db, row) then
      row.(status := Queued, worker := None, claimedAt := None,
           tally := row.tally.(recoveries := row.tally.recoveries + 1))
    else row
  }

  /** INSERT ... SELECT of the next occurrence from the completed row. */
  function NextOccurrence(p: JobId, row: Job, nextAt: Time, now: Time): Job {
    Job(row.queue, row.jobType, row.priority, Scheduled, 0, row.maxAttempts, Some(nextAt), None, row.cron,
        None, None, None, row.policy, now, Some(p), Tally(0, 0, 0))
  }

  // ---------------------------------------------------------------- queries

  predicate ClaimGate(row: Job, now: Time) {
    row.scheduledAt.None? || row.scheduledAt.value <= now
  }

  predicate Eligible(db: Db, q: QueueId, j: JobId) {
    j in db.jobs && db.jobs[j].status == Queued && db.jobs[j].queue == q && ClaimGate(db.jobs[j], db.now)
  }

  /** ORDER BY priority weight DESC, created_at ASC. */
  predicate Before(a: Job, b: Job) {
    Weight(a.priority) > Weight(b.priority) ||
    (Weight(a.priority) == Weight(b.priority) && a.createdAt < b.createdAt)
  }

  /** j may be returned by the SKIP LOCKED subquery while other transactions lock `locked`. */
  predicate Claimable(db: Db, q: QueueId, locked: set<JobId>, j: JobId) {
    && Eligible(db, q, j)
    && j !in locked
    && forall k | k in db.jobs && k !in locked && Eligible(db, q, k) :: !Before(db.jobs[k], db.jobs[j])
  }

  function RunningJobs(db: Db, q: QueueId): set<JobId> {
    set j | j in db.jobs && db.jobs[j].queue == q && db.jobs[j].status == Running
  }

  predicate KeyFree(db: Db, q: QueueId, key: Option<string>) {
    key.None? || forall j | j in db.jobs && db.jobs[j].queue == q :: db.jobs[j].idempotencyKey != key
  }

  /** The delay after the given failed attempt; None when computing it aborts the task. */
  function RetryDelay(db: Db, snap: Job, attempt: int, policyFound: bool): Option<int> {
    if snap.policy.Some? && snap.policy.value in db.policies && policyFound
    then Some(NextDelaySeconds(db.policies[snap.policy.value], attempt))
    else DefaultDelay(attempt)
  }

  // ---------------------------------------------------------------- transactions

  function PutRow(db: Db, j: JobId, row: Job): Db {
    db.(jobs := db.jobs[j := row])
  }

  function ClaimDb(db: Db, w: WorkerId, j: JobId): Db
    requires j in db.jobs
  {
    PutRow(db, j, ClaimRow(db.jobs[j], w, db.now))
  }

  /** The success transaction: row, execution, event. */
  function CompleteDb(db: Db, t: Task, finishedAt: Time): Db
    requires t.job in db.jobs && t.phase.Started?
  {
    var e := Execution(t.job, t.worker, t.snap.attempts + 1, t.phase.startedAt, finishedAt, true, None, finishedAt);
    PutRow(db, t.job, CompleteRow(db.jobs[t.job]))
      .(executions := db.executions + [e], outbox := db.outbox + [Event(JobCompleted, t.job)])
  }

  predicate DeadLettered(t: Task) {
    t.snap.attempts + 1 >= t.snap.maxAttempts
  }

  /** The dead-letter transaction: execution, row, entry, event. */
  function DeadDb(db: Db, t: Task, finishedAt: Time): Db
    requires t.job in db.jobs && t.phase.Started?
  {
    var attempt := t.snap.attempts + 1;
    var e := Execution(t.job, t.worker, attempt, t.phase.startedAt, finishedAt, false, None, finishedAt);
    PutRow(db, t.job, DeadRow(db.jobs[t.job], attempt))
      .(executions := db.executions + [e],
        dlq := db.dlq + [DlqEntry(t.job, attempt, false)],
        outbox := db.outbox + [Event(JobMovedToDlq, t.job)])
  }

  /** The retry transaction: execution, row, event. */
  function RetryDb(db: Db, t: Task, finishedAt: Time, decidedAt: Time, delay: int): Db
    requires t.job in db.jobs && t.phase.Started?
  {
    var attempt := t.snap.attempts + 1;
    var e := Execution(t.job, t.worker, attempt, t.phase.startedAt, finishedAt, false, Some(delay), decidedAt);
    PutRow(db, t.job, RetryRow(db.jobs[t.job], attempt, decidedAt + Seconds(delay)))
      .(executions := db.executions + [e], outbox := db.outbox + [Event(JobRetryScheduled, t.job)])
  }

  function FailDb(db: Db, t: Task, finishedAt: Time, decidedAt: Time, delay: int): Db
    requires t.job in db.jobs && t.phase.Started?
  {
    if DeadLettered(t) then DeadDb(db, t, finishedAt) else RetryDb(db, t, finishedAt, decidedAt, delay)
  }

  function PromoteDb(db: Db): Db {
    db.(jobs := map j | j in db.jobs :: PromoteRow(db.jobs[j], db.now))
  }

  function RecoverDb(db: Db): Db {
    db.(jobs := map j | j in db.jobs :: RecoverRow(db, db.jobs[j]))
  }

  function ManualRetryDb(db: Db, e: nat): Db
    requires e < |db.dlq| && db.dlq[e].job in db.jobs
  {
    PutRow(db, db.dlq[e].job, ManualRow(db.jobs[db.dlq[e].job])).(dlq := db.dlq[e := db.dlq[e].(retried := true)])
  }

  // ---------------------------------------------------------------- steps

  predicate TaskIn(s: State, t: TaskId) {
    t in s.tasks && s.tasks[t].job in s.db.jobs
  }

  function PollOf(s: State, w: WorkerId): Poll {
    if w in s.pollers then s.pollers[w] else Idle
  }

  predicate Enabled(s: State, a: Action) {
    match a
    case Advance(to) => to >= s.db.now
    case SetPaused(q, _) => q in s.db.queues
    case Create(id, q, r) => id !in s.db.jobs && q in s.db.queues && KeyFree(s.db, q, r.idempotencyKey)
    case Cancel(id) => id in s.db.jobs
    case PollPause(w, q) => PollOf(s, w).Idle? && q in s.db.queues
    case PollCount(w) => PollOf(s, w).Unpaused? && PollOf(s, w).queue in s.db.queues
    case PollGiveUp(w) => true
    case Claim(w, t, j, locked) =>
      PollOf(s, w).Admitted? && t !in s.tasks && Claimable(s.db, PollOf(s, w).queue, locked, j)
    case MarkRunning(t, at) =>
      TaskIn(s, t) && s.tasks[t].phase.Spawned? && s.tasks[t].spawnedAt <= at <= s.db.now
    case Succeed(t, finishedAt, _) =>
      TaskIn(s, t) && s.tasks[t].phase.Started? && s.tasks[t].phase.startedAt <= finishedAt <= s.db.now
    case Fail(t, finishedAt, decidedAt, found, delay, _) =>
      && TaskIn(s, t) && s.tasks[t].phase.Started?
      && s.tasks[t].phase.startedAt <= finishedAt <= decidedAt <= s.db.now
      && (DeadLettered(s.tasks[t]) ||
          RetryDelay(s.db, s.tasks[t].snap, s.tasks[t].snap.attempts + 1, found) == Some(delay))
    case InsertNext(t, id, nextAt) =>
      && TaskIn(s, t) && s.tasks[t].phase.Done? && s.tasks[t].snap.IsRecurring()
      && id !in s.db.jobs && nextAt > s.tasks[t].phase.at
    case Stop(t) => t in s.tasks
    case Crash(_) => true
    case Promote => true
    case Heartbeat(_) => true
    case Recover => true
    case RetryCheck(e) => e < |s.db.dlq| && !s.db.dlq[e].retried
    case RetryCommit(e, _) => e in s.retrying && e < |s.db.dlq| && s.db.dlq[e].job in s.db.jobs
  }

  function Apply(s: State, a: Action): State
    requires Enabled(s, a)
  {
    match a
    case Advance(to) => s.(db := s.db.(now := to))
    case SetPaused(q, p) => s.(db := s.db.(queues := s.db.queues[q := s.db.queues[q].(paused := p)]))
    case Create(id, q, r) => s.(db := PutRow(s.db, id, NewJob(q, s.db.queues[q], r, s.db.now)))
    case Cancel(id) => s.(db := PutRow(s.db, id, CancelRow(s.db.jobs[id])))
    case PollPause(w, q) =>
      s.(pollers := s.pollers[w := if s.db.queues[q].paused then Idle else Unpaused(q)])
    case PollCount(w) =>
      var q := PollOf(s, w).queue;
      s.(pollers := s.pollers[w := if |RunningJobs(s.db, q)| >= s.db.queues[q].limit then Idle else Admitted(q)])
    case PollGiveUp(w) => s.(pollers := s.pollers[w := Idle])
    case Claim(w, t, j, _) =>
      s.(db := ClaimDb(s.db, w, j),
         tasks := s.tasks[t := Task(w, j, ClaimRow(s.db.jobs[j], w, s.db.now), s.db.now, Spawned)],
         pollers := s.pollers[w := Idle])
    case MarkRunning(t, at) =>
      var task := s.tasks[t];
      s.(db := PutRow(s.db, task.job, RunRow(s.db.jobs[task.job])),
         tasks := s.tasks[t := task.(phase := Started(at))])
    case Succeed(t, finishedAt, outcome) =>
      var task := s.tasks[t];
      s.(db := if outcome.Committed? then CompleteDb(s.db, task, finishedAt) else s.db,
         tasks := if outcome.reported then s.tasks[t := task.(phase := Done(s.db.now, outcome.Committed?))]
                  else s.tasks - {t})
    case Fail(t, finishedAt, decidedAt, _, delay, outcome) =>
      s.(db := if outcome.Committed? then FailDb(s.db, s.tasks[t], finishedAt, decidedAt, delay) else s.db,
         tasks := s.tasks - {t})
    case InsertNext(t, id, nextAt) =>
      var p := s.tasks[t].job;
      s.(db := PutRow(s.db, id, NextOccurrence(p, s.db.jobs[p], nextAt, s.db.now)), tasks := s.tasks - {t})
    case Stop(t) => s.(tasks := s.tasks - {t})
    case Crash(w) =>
      s.(tasks := map t | t in s.tasks && s.tasks[t].worker != w :: s.tasks[t], pollers := s.pollers[w := Idle])
    case Promote => s.(db := PromoteDb(s.db))
    case Heartbeat(w) => s.(db := s.db.(lastSeen := s.db.lastSeen[w := s.db.now]))
    case Recover => s.(db := RecoverDb(s.db))
    case RetryCheck(e) => s.(retrying := s.retrying + multiset{e})
    case RetryCommit(e, applied) =>
      s.(db := if applied then ManualRetryDb(s.db, e) else s.db, retrying := s.retrying - multiset{e})
  }

  // ---------------------------------------------------------------- runs

  predicate Initial(s: State) {
    && s.db.jobs == map[] && s.db.executions == [] && s.db.dlq == [] && s.db.outbox == []
    && s.tasks == map[] && s.pollers == map[] && s.retrying == multiset{}
  }

  /** An attempt at a step that is not enabled changes nothing. */
  function Next(s: State, a: Action): State {
    if Enabled(s, a) then Apply(s, a) else s
  }

  function Run(s: State, acts: seq<Action>): State {
    if acts == [] then s else Next(Run(s, acts[..|acts| - 1]), acts[|acts| - 1])
  }

  /** The statement or transaction that takes the tables from before to after is the step a. */
  ghost predicate IsStep(before: Db, a: Action, after: Db) {
    forall s: State | s.db == before :: Next(s, a).db == after
  }

  /** The fail-stop discipline of one step: recovery finds no live task of a stale worker,
      and a second manual retry of an entry does not start while one is in flight. */
  predicate Disciplined(s: State, a: Action) {
    match a
    case Recover => forall t | t in s.tasks && s.tasks[t].Holding() :: !Stale(s.db, s.tasks[t].worker)
    case RetryCheck(e) => e !in s.retrying
    case _ => true
  }

  /** Every step of the run keeps the discipline. */
  predicate FailStop(s: State, acts: seq<Action>) {
    acts == [] ||
    (FailStop(s, acts[..|acts| - 1]) && Disciplined(Run(s, acts[..|acts| - 1]), acts[|acts| - 1]))
  }

  lemma {:induction false} RunSnoc(s: State, acts: seq<Action>, a: Action)
    ensures Run(s, acts + [a]) == Next(Run(s, acts), a)
    ensures FailStop(s, acts + [a]) <==> FailStop(s, acts) && Disciplined(Run(s, acts), a)
  {
    hide Next, Disciplined;
    assert (acts + [a])[..|acts|] == acts;
  }

  lemma {:induction false} RunConcat(s: State, a: seq<Action>, b: seq<Action>)
    ensures Run(s, a + b) == Run(Run(s, a), b)
    decreases |b|
  {
    hide Next;
    if b == [] {
      assert a + b == a;
    } else {
      var n := |b| - 1;
      RunConcat(s, a, b[..n]);
      assert (a + b)[..|a| + n] == a + b[..n];
    }
  }

  lemma {:induction false} RunOne(s: State, a: Action)
    ensures Run(s, [a]) == Next(s, a)
  {
    RunSnoc(s, [], a);
  }

  // ---------------------------------------------------------------- what single steps do

  lemma {:induction false} CreateNext(s: State, id: JobId, q: QueueId, r: JobRequest)
    requires id !in s.db.jobs && q in s.db.queues && KeyFree(s.db, q, r.idempotencyKey)
    ensures Next(s, Create(id, q, r)) == s.(db := PutRow(s.db, id, NewJob(q, s.db.queues[q], r, s.db.now)))
  {
  }

  lemma {:induction false} AdvanceNext(s: State, to: Time)
    requires s.db.now <= to
    ensures Next(s, Advance(to)) == s.(db := s.db.(now := to))
  {
  }

  lemma {:induction false} PollNext(s: State, w: WorkerId, q: QueueId)
    requires PollOf(s, w).Idle? && q in s.db.queues && !s.db.queues[q].paused
    requires |RunningJobs(s.db, q)| < s.db.queues[q].limit
    ensures Next(Next(s, PollPause(w, q)), PollCount(w)) == s.(pollers := s.pollers[w := Admitted(q)])
  {
    assert Next(s, PollPause(w, q)) == s.(pollers := s.pollers[w := Unpaused(q)]);
  }

  lemma {:induction false} GiveUpNext(s: State, w: WorkerId)
    ensures Next(s, PollGiveUp(w)) == s.(pollers := s.pollers[w := Idle])
  {
  }

  lemma {:induction false} ClaimNext(s: State, w: WorkerId, q: QueueId, tid: TaskId, j: JobId, locked: set<JobId>)
    requires PollOf(s, w) == Admitted(q) && tid !in s.tasks && Claimable(s.db, q, locked, j)
    ensures Next(s, Claim(w, tid, j, locked)) ==
      s.(db := ClaimDb(s.db, w, j), pollers := s.pollers[w := Idle],
         tasks := s.tasks[tid := Task(w, j, ClaimRow(s.db.jobs[j], w, s.db.now), s.db.now, Spawned)])
  {
  }

  lemma {:induction false} MarkNext(s: State, tid: TaskId, at: Time)
    requires TaskIn(s, tid) && s.tasks[tid].phase.Spawned? && s.tasks[tid].spawnedAt <= at <= s.db.now
    ensures var t := s.tasks[tid];
      Next(s, MarkRunning(tid, at)) ==
        s.(db := PutRow(s.db, t.job, RunRow(s.db.jobs[t.job])), tasks := s.tasks[tid := t.(phase := Started(at))])
  {
  }

  lemma {:induction false} SucceedNext(s: State, tid: TaskId, f: Time, o: Outcome)
    requires TaskIn(s, tid) && s.tasks[tid].phase.Started? && s.tasks[tid].phase.startedAt <= f <= s.db.now
    ensures var t := s.tasks[tid];
      Next(s, Succeed(tid, f, o)) ==
        s.(db := if o.Committed? then CompleteDb(s.db, t, f) else s.db,
           tasks := if o.reported then s.tasks[tid := t.(phase := Done(s.db.now, o.Committed?))] else s.tasks - {tid})
  {
  }

  lemma {:induction false} FailNext(s: State, a: Action)
    requires Enabled(s, a) && a.Fail?
    ensures var t := s.tasks[a.task];
      Next(s, a) ==
        s.(db := if a.outcome.Committed? then FailDb(s.db, t, a.finishedAt, a.decidedAt, a.delay) else s.db,
           tasks := s.tasks - {a.task})
  {
  }

  lemma {:induction false} OccurrenceNext(s: State, tid: TaskId, id: JobId, at: Time)
    requires Enabled(s, InsertNext(tid, id, at))
    ensures var p := s.tasks[tid].job;
      Next(s, InsertNext(tid, id, at)) ==
        s.(db := PutRow(s.db, id, NextOccurrence(p, s.db.jobs[p], at, s.db.now)), tasks := s.tasks - {tid})
  {
  }

  lemma {:induction false} StopNext(s: State, tid: TaskId)
    requires tid in s.tasks
    ensures Next(s, Stop(tid)) == s.(tasks := s.tasks - {tid})
  {
  }

  /** A crash takes the worker's tasks and its poller's place, and nothing else. */
  lemma {:induction false} CrashNext(s: State, w: WorkerId)
    ensures var s' := Next(s, Crash(w));
      && s'.db == s.db && s'.retrying == s.retrying && PollOf(s', w).Idle?
      && (forall v: WorkerId | v != w :: PollOf(s', v) == PollOf(s, v))
      && (forall t :: t in s'.tasks <==> t in s.tasks && s.tasks[t].worker != w)
      && forall t | t in s'.tasks :: s'.tasks[t] == s.tasks[t]
  {
  }

  lemma {:induction false} RecoverNext(s: State)
    ensures Next(s, Recover) == s.(db := RecoverDb(s.db))
  {
  }

  lemma {:induction false} RetryCommitNext(s: State, e: nat)
    requires Enabled(s, RetryCommit(e, true))
    ensures Next(s, RetryCommit(e, true)) == s.(db := ManualRetryDb(s.db, e), retrying := s.retrying - multiset{e})
  {
  }
}
