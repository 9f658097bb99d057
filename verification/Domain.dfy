/** Entities and enumerations of the scheduler.
    Columns that no statement ever reads back (name, payload, project, batch and
    correlation identifiers, updated_at, completed_at) are not modelled. */
module Domain {

  datatype Option<+T> = None | Some(value: T)

  datatype Result<+T, +E> = Success(value: T) | Failure(error: E)

  // UUIDs; only equality and freshness matter.
  type JobId = nat
  type QueueId = nat
  type WorkerId = nat
  type TaskId = nat
  type PolicyId = nat

  // Timestamps are microseconds, the resolution of TIMESTAMPTZ.
  type Time = int
  function Seconds(n: int): int {
    n * 1_000_000
  }

  function Min(a: int, b: int): int {
    if a < b then a else b
  }

  datatype JobStatus = Pending | Queued | Claimed | Running | Completed | Scheduled | Failed

  datatype JobType = Immediate | Delayed | AtTime | Recurring | Batch

  datatype Priority = Low | Normal | High | Critical

  /** The CASE expression that orders the claim query. */
  function Weight(p: Priority): int {
    match p
    case Critical => 20
    case High => 10
    case Normal => 5
    case Low => 1
  }

  /** Critical goes before high, high before normal and normal before low; among jobs of one
      priority the older one goes first. */
  predicate Ahead(a: Job, b: Job) {
    || (a.priority == Critical && b.priority in {High, Normal, Low})
    || (a.priority == High && b.priority in {Normal, Low})
    || (a.priority == Normal && b.priority == Low)
    || (a.priority == b.priority && a.createdAt < b.createdAt)
  }

  /** History counters of one job. They are not columns: no statement reads them,
      they only let the theorems count what happened to the job. */
  datatype Tally = Tally(claims: nat, recoveries: nat, manualRetries: nat)

  datatype Job = Job(
    queue: QueueId,
    jobType: JobType,
    priority: Priority,
    status: JobStatus,
    attempts: int,
    maxAttempts: int,
    scheduledAt: Option<Time>,
    nextAttemptAt: Option<Time>,
    cron: Option<string>,
    worker: Option<WorkerId>,
    claimedAt: Option<Time>,
    idempotencyKey: Option<string>,
    policy: Option<PolicyId>,
    createdAt: Time,
    // History, not columns: the occurrence that inserted this one, and the counters.
    prev: Option<JobId>,
    tally: Tally
  ) {
    predicate CanTransitionTo(next: JobStatus) {
      || (status == Pending && next == Queued)
      || (status == Queued && next == Claimed)
      || (status == Claimed && next == Running)
      || (status == Running && next == Completed)
      || (status == Running && next == Scheduled)
      || (status == Running && next == Failed)
      || (status == Scheduled && next == Queued)
    }

    predicate IsRecurring() {
      jobType == Recurring && cron.Some?
    }

    /** A worker owns the row. */
    predicate Held() {
      status == Claimed || status == Running
    }

    /** The attempt number from which a failure is dead-lettered. */
    function DeadAt(): int {
      if maxAttempts < 1 then 1 else maxAttempts
    }
  }

  datatype Queue = Queue(limit: int, paused: bool, policy: Option<PolicyId>)

  /** A row of job_executions. decidedAt is history: when the task read the clock to schedule the
      retry, or else the end of the attempt. So is retryDelay: the back-off, in seconds, that the
      failing transaction scheduled, or None when the attempt succeeded or was dead-lettered. */
  datatype Execution = Execution(
    job: JobId, worker: WorkerId, attempt: int, started: Time, finished: Time, success: bool,
    retryDelay: Option<int>, decidedAt: Time)

  datatype DlqEntry = DlqEntry(job: JobId, attempts: int, retried: bool)

  datatype EventKind = JobCompleted | JobRetryScheduled | JobMovedToDlq

  datatype Event = Event(kind: EventKind, job: JobId)

  datatype BackoffStrategy = Fixed | Linear | Exponential

  datatype RetryPolicy = RetryPolicy(
    strategy: BackoffStrategy, baseDelay: int, maxDelay: Option<int>, multiplier: Option<real>)

  /** The Job entity as an object, for the method that assigns its status. */
  class JobEntity {
    var job: Job
    var updatedAt: Time

    constructor (j: Job, now: Time)
      ensures job == j && updatedAt == now
    {
      job := j;
      updatedAt := now;
    }

    method TransitionTo(next: JobStatus, now: Time) returns (ok: bool)
      modifies this
      ensures ok == old(job).CanTransitionTo(next)
      ensures ok == ((old(job).status, next) in {
        (Pending, Queued), (Queued, Claimed), (Claimed, Running), (Running, Completed), (Running, Scheduled),
        (Running, Failed), (Scheduled, Queued)})
      ensures ok ==> job == old(job).(status := next) && updatedAt == now
      ensures !ok ==> job == old(job) && updatedAt == old(updatedAt)
    {
      if !job.CanTransitionTo(next) {
        return false;
      }
      job := job.(status := next);
      updatedAt := now;
      return true;
    }
  }
}
