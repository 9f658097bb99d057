# A verified model of the distributed job scheduler

The scheduler has no master. Workers, the promoter, the recovery loop, users and the outbox relay
meet only in a shared database, and almost every `UPDATE` of the executor is unguarded
(`WHERE id = $1`). That jobs have one owner, that attempts are counted right and that the tables
agree is therefore a property of the whole system. This project models the system as a protocol of
atomic steps and proves what holds in every run, and what holds in runs where recovery never takes a
job from a live task. It then proves, from the heartbeat timing, that recovery never does.

## How it is built

- `Domain`, `Backoff`, `Tables`: rows, the reference state machine, retry delays, the rows of one job.
- `Protocol`: the shared database, the live tasks and pollers, and each SQL statement or transaction
  as one step. An action carries everything the environment chooses (times, locked rows, whether a
  transaction commits and what the client is told), so a run is a list of actions and every theorem
  quantifies over all lists. An action that is not enabled changes nothing.
- `Effects`: a step changes what the tables say of one job by exactly one effect. The invariants are
  proved about effects.
- `AllRuns`, `Conservation`, `Admission`, `Lifecycle`: laws of every run.
- `ExactRuns`, `FailStopTheorems`, `RecurringChains`: laws of fail-stop runs. A run is fail-stop when
  recovery finds no live task of a stale worker and a manual retry of a dead letter does not start
  while another retry of the same entry is in flight (the service checks the entry before it opens
  its transaction).
- `TimedRuns`: ten-second beats, thirty-second recovery, a strict sixty-second threshold. Timed runs
  are fail-stop runs.
- `HeartbeatBudget`: how many missed beats the timing tolerates.
- `LimitsOfTheProtocol`, `ConcreteRuns`: the exact conditions under which runs stay consistent, runs from
  the empty database in which they fail, and the tightness of the admission bound.
- `ClaimOrder`: the order of claims.
- `JobStore`, `Worker`: the database as a mutable object, the repository's and services' methods on
  it, and the worker's code; their contracts are the protocol's steps.
- `RateLimit`, `OutboxRelay`, `CircuitBreaker`, `Workflow`: the smaller machines.

Times are integers in microseconds. The fields `prev` and `tally` of a job and `retryDelay` and
`decidedAt` of an execution are history, not columns: no statement reads them.

## What the proofs found

- **Recovery and manual retry.** A run keeps tables and live tasks consistent at every point iff every
  step of it is careful: recovery finds no live task of a stale worker, and a committing manual retry
  finds its job not completed, without a live task and without a later unretried dead letter
  (`LimitsOfTheProtocol.ConsistentRunsAreCareful`). The code checks none of this at those points. Two
  concrete runs end with two live tasks holding one job: one recovery of a worker that is alive but
  silent, and two manual retries of one dead letter that overlap (`ConcreteRuns`). The project's own
  README speaks of "zero double-execution races"; that holds in careful runs, and in all runs only the
  bound of `Conservation.DoubleExecutionBound`.
- **Heartbeats.** Five missed beats in a row are safe and six are not
  (`HeartbeatBudget.MissBudgetIsExact`). The heartbeat task starts before the worker's row exists, so its
  first upsert can fail; a worker that claims before its first beat has succeeded loses the job to the
  next recovery (`LimitsOfTheProtocol.RecoveryRobs`).
- **Recurring jobs.** PostgreSQL acknowledges `COMMIT` of an aborted transaction, and the executor
  drops statement errors, so it can insert the next occurrence of a job it did not complete. One such
  commit forks a chain in a run that is otherwise in order (`ConcreteRuns.ReportedRollbackForks`).
  Chains stay linear in a fail-stop run iff every insertion finds its job completed and without a
  successor (`RecurringChains.LinearRunsFollow`), which the `INSERT` does not check.
- **Concurrency limit.** The limit check, the claim and the marking of the row are three statements.
  With `c` outstanding checks at most `limit - 1 + c` jobs run, and for every limit and every `c >= 1` some
  run reaches that number (`LimitsOfTheProtocol.AdmissionBoundIsReached`): two pollers can already run
  two jobs in a queue with limit one.
- **Outbox.** Fifty events that never publish fill every batch: a later event is published iff fewer
  than fifty such events are queued before it (`OutboxRelay.DrainsIffBatchNotBlocked`).
- **Circuit breaker.** A call dropped between storing `Open` and storing the first failure time leaves
  the circuit open for ever iff no other call is in flight then
  (`CircuitBreaker.DroppedCallBlocksIff`), and every fresh breaker can get there. Without such a drop an
  open circuit always has a failure time.
- **Back-off.** The default delay overflows from attempt 61 on. With overflow checks the multiplication
  aborts the task. Without them, as in the release build of the Dockerfile, it wraps, and attempt 61
  aborts the task one line later because the delay is no valid duration (`Backoff.BuildsAgreeIff`).
  Either way the job is left running. The equivalent seeded policy does not overflow. The documentation
  gives the exponent as the attempt number and mentions jitter; the code uses the attempt number minus
  one and has no jitter.
- **Cancelling.** The API documentation says that a running job can be cancelled; the statement touches
  only pending, queued and scheduled rows. In fail-stop runs a cancelled job stays failed and is never
  claimed until one of its dead letters is retried by hand. In other runs recovery may have requeued a
  job whose task is still alive, and then that task undoes the cancel: a failed job stays failed iff no
  live task holds it (`Lifecycle.StaysFailedIff`).

## Model

| member | source | states |
|---|---|---|
| FailStopTheorems.ExclusiveOwnership | crates/repositories/src/job_repository.rs:20-59 | In every fail-stop run a job has at most one live task; the row names that task's worker, its status is claimed or running according to the task's phase, and the snapshot's attempt count is current. |
| FailStopTheorems.ExactAttempts | crates/worker/src/executor.rs:47-61 | In every fail-stop run the execution rows of a job are numbered 1..n, only the last can be a success, a success row exists iff the job is completed, and attempt_count is the number of failure rows. |
| FailStopTheorems.DeadLetters | crates/worker/src/executor.rs:87-136 | In every fail-stop run the k-th dead letter records attempt max(1, max_attempts) + k - 1; at most one is unretried and then the job is failed with no live task; there are dead letters iff the attempts reached the maximum. |
| FailStopTheorems.StatusChangesAreLegal | crates/domain/src/entities/job.rs:71-83 | In every fail-stop run each status change is an edge of the domain state machine or one of three named exceptions: requeue by recovery, failure by cancel, requeue by manual retry. |
| FailStopTheorems.CompletedIsFinal | crates/worker/src/executor.rs:40-45 | Once a job is completed in a fail-stop run, its row, executions, dead letters and events never change again. |
| FailStopTheorems.RetrySeparation | crates/worker/src/executor.rs:146-157 | In every fail-stop run an attempt starts no earlier than the end of the previous one plus its back-off, unless that one was dead-lettered; without a policy the back-off is the default. |
| FailStopTheorems.DefaultRetrySpan | crates/worker/src/executor.rs:193-195 | With the default back-off attempt n >= 6 starts at least 310 + 300 (n - 6) seconds after attempt 1, whatever crashes in between. |
| FailStopTheorems.RetryTimeIsExact | crates/worker/src/executor.rs:146-157 | In every fail-stop run a scheduled retry waits exactly until the decision time of the last failure plus its back-off in seconds. |
| Lifecycle.RetryBecomesClaimable | crates/worker/src/executor.rs:146-157 | In every run a committed failure that is not the last schedules the job for that time, and the promoter makes it claimable iff that time has come. |
| Lifecycle.DelaysFollowPolicy | crates/worker/src/executor.rs:176-196 | In every run each recorded back-off is the default or what the job's policy says: its base, the base times the attempt, or the capped exponential. |
| RecurringChains.ChainsAreLinear | crates/scheduler-core/src/recurring.rs:25-65 | Chains of occurrences never fork, all occurrences but the last are completed, and scheduled times strictly increase, in fail-stop runs without a rolled-back commit reported as success. |
| RecurringChains.LinearIffFollows | crates/scheduler-core/src/recurring.rs:39-65 | From a state with all laws a step keeps chains linear iff it is not an insertion for a job that is unfinished or has a next occurrence already. |
| RecurringChains.LinearRunsFollow | crates/scheduler-core/src/recurring.rs:39-65 | In a fail-stop run chains are linear at every point iff every insertion finds its job completed and without a successor. |
| RecurringChains.HonestRunsFollow | crates/worker/src/executor.rs:71-83 | Without a rolled-back commit reported as success, every insertion does. |
| ConcreteRuns.ReportedRollbackForks | crates/worker/src/executor.rs:33-83 | A fail-stop run from the empty database in which a single rolled-back commit that was reported as success ends with two occurrences of one predecessor. |
| RecurringChains.ReportedCommitDecides | crates/worker/src/executor.rs:71-83 | After a commit that was reported, the occurrence inserted next follows a completed job iff the transaction really took effect. |
| Lifecycle.OccurrencesInherit | crates/scheduler-core/src/recurring.rs:39-65 | In every run an occurrence has the queue, type, expression, priority, maximum attempts and policy of its predecessor and no idempotency key, so it recurs iff that one does. |
| Lifecycle.ChainGoesOn | crates/scheduler-core/src/recurring.rs:25-75 | In every run the occurrence inserted after a reported completion recurs as well, and the promoter makes it claimable iff its time has come. |
| Lifecycle.DownUntilRevived | crates/repositories/src/job_repository.rs:26-36 | In every run a failed job without a live task stays failed and is never claimed before a manual retry of one of its dead letters commits. |
| Lifecycle.StaysFailedIff | crates/worker/src/executor.rs:18-45 | A failed job stays failed in all runs without such a retry iff no live task holds it. |
| Lifecycle.CancelHolds | crates/services/src/job_service.rs:182-188 | In fail-stop runs a cancel fails a pending, queued or scheduled job for good in that sense, and leaves any other job as it was. |
| Conservation.CrossTableConservation | crates/worker/src/executor.rs:33-169 | In every run, per job: completion events are the success rows, dead-letter events are the dead letters, and retry plus dead-letter events are the failure rows. |
| Conservation.DoubleExecutionBound | crates/repositories/src/job_repository.rs:164-183 | In every run, wrongful recovery included: execution rows plus live tasks of a job are at most its claims, and those at most 1 + scheduled retries + recoveries + manual retries. |
| Conservation.WorkerOnlyWhileHeld | crates/repositories/src/job_repository.rs:26-31 | In every run worker_id is set only on claimed and running rows. |
| Conservation.QueuedJobsAreClaimable | crates/repositories/src/job_repository.rs:33-36 | In every run the scheduled_at guard of the claim never excludes a queued job. |
| Conservation.PromotionIsExact | crates/repositories/src/job_repository.rs:151-161 | In every run the promoter makes a scheduled job claimable iff its back-off time, or else its scheduled time, exists and has passed. |
| Conservation.IdempotentSubmission | crates/repositories/src/job_repository.rs:207-223 | However submissions interleave, a queue holds at most one job per idempotency key. |
| Effects.StepEffect | crates/worker/src/executor.rs:14-172 | Every step of the protocol changes the row, executions, dead letters and event counts of an existing job by exactly one effect. |
| Effects.StepCreates | crates/services/src/job_service.rs:106-139 | A job comes into existence only by creation or as a next occurrence, and then has no history in any table. |
| AllRuns.AllLawsHold | crates/worker/src/executor.rs:14-172 | Every run keeps the reference, ownership, gate, balance and claim laws of all jobs and tasks. |
| ExactRuns.OnlyOwnerActs | crates/worker/src/executor.rs:18-20 | A careful step does not touch the row of a job with a live task, except that task's own. |
| ExactRuns.ExactHolds | crates/worker/src/executor.rs:86-172 | Every fail-stop run keeps exact history, dead-letter law, ownership and separation for every job and task. |
| LimitsOfTheProtocol.ConsistentIffCareful | crates/services/src/dlq_service.rs:41-85 | From a consistent state (exact laws of every job, one owner per held job) a step stays consistent iff it is careful. |
| LimitsOfTheProtocol.ConsistentRunsAreCareful | crates/repositories/src/job_repository.rs:164-183 | A run is consistent at every point iff each of its steps is careful where it happens. |
| LimitsOfTheProtocol.FailStopRunsAreCareful | crates/services/src/dlq_service.rs:34-94 | Fail-stop runs are careful. |
| LimitsOfTheProtocol.RecoveryRobs | src/main.rs:58-71 | Recovery takes the row from every live task whose worker is stale, also when the worker claimed before its first successful beat. |
| ConcreteRuns.WrongfulRecoveryDoublyHolds | crates/repositories/src/job_repository.rs:164-183 | A run from the empty database in which recovery of a live, silent worker ends with two live tasks holding one job. |
| ConcreteRuns.OverlappingRetriesDoublyHold | crates/services/src/dlq_service.rs:41-85 | A run from the empty database in which two overlapping manual retries of one entry end the same way, without any recovery. |
| Admission.AdmissionBound | crates/worker/src/poller.rs:87-128 | If at most c passed checks are ever outstanding, the running jobs of a queue never exceed limit - 1 + c, in every run. |
| LimitsOfTheProtocol.AdmissionBoundIsReached | crates/worker/src/poller.rs:101-128 | That bound is the least one: for every limit and every c of at least one some run with at most c outstanding checks ends with exactly limit - 1 + c running jobs. |
| Admission.PauseTakesEffect | crates/worker/src/poller.rs:97-99 | While a queue stays paused a worker claims at most one more job from it, and none unless its poller was already past the pause check. |
| TimedRuns.TimedRunsAreFailStop | crates/worker/src/heartbeat.rs:17-27 | Runs with ten-second beats of which at most five in a row fail, in which a worker's first beat succeeds and manual retries of one entry do not overlap, are fail-stop runs of the protocol. |
| TimedRuns.TimedRunsAreExact | crates/scheduler-core/src/stale_recovery.rs:9-22 | So every such timed run has the exact laws, with no assumption about recovery. |
| TimedRuns.DeadWorkersAreDetected | crates/scheduler-core/src/stale_recovery.rs:11-16 | A job is held by a dead worker for at most ninety seconds after that worker's last beat. |
| HeartbeatBudget.NinetySecondsAreReached | crates/scheduler-core/src/stale_recovery.rs:11-16 | That bound is reached: a timed run in which a dead worker still holds its job ninety seconds after its last beat. |
| TimedRuns.LiveTasksAreNeverRobbed | crates/repositories/src/job_repository.rs:164-183 | In timed runs the worker of a live task is never stale, so recovery leaves its job alone. |
| HeartbeatBudget.MissBudgetIsExact | crates/repositories/src/job_repository.rs:174-176 | All timed runs in which at most m beats in a row fail are fail-stop iff m <= 5. |
| HeartbeatBudget.SixMissesRob | crates/scheduler-core/src/stale_recovery.rs:9-22 | With more, a timed run reaches a recovery tick at which the worker of a live task is stale. |
| ClaimOrder.ClaimsAreSorted | crates/repositories/src/job_repository.rs:37-46 | Successive claims with no arrivals return distinct eligible jobs, critical before high before normal before low and older before younger at one priority, and pass over none that comes before them. |
| ClaimOrder.ClaimPossibleIff | crates/repositories/src/job_repository.rs:32-46 | A claim can return a job iff there is an eligible one that no other transaction locks. |
| ClaimOrder.DrainingExists | crates/repositories/src/job_repository.rs:32-47 | Whatever workers claim one after the other, each gets a job as long as eligible ones are left. |
| ClaimOrder.ClaimsDrainTheQueue | crates/repositories/src/job_repository.rs:32-47 | As many such claims as there are eligible jobs return exactly the eligible jobs. |
| ClaimOrder.ConcurrentClaimsAreDistinct | crates/repositories/src/job_repository.rs:45-46 | Overlapping claims return distinct jobs, each the first in that order among those that no other transaction locks. |
| JobStore.Store.FindByIdempotencyKey | crates/repositories/src/job_repository.rs:207-223 | Finds a job of the queue with the key iff there is one. |
| JobStore.Store.InsertJob | crates/services/src/job_service.rs:106-139 | The insert succeeds iff no job of the queue has the key, and then adds exactly one row, given column by column from the request and the queue. |
| JobStore.Store.CreateJob | crates/services/src/job_service.rs:47-143 | An existing job with the key wins over every check; otherwise the checks fail in the source's order and a success adds exactly that row. |
| JobStore.Store.CancelJob | crates/services/src/job_service.rs:164-192 | Cancelling fails only for a missing job or a missing right; otherwise it fails the row iff its status was pending, queued or scheduled and changes nothing else. |
| JobStore.Store.ClaimNextJob | crates/repositories/src/job_repository.rs:20-59 | Claims a queued job of the queue whose scheduled time has passed, that nobody locks and that no such job comes before by priority and then age; or finds that there is none. |
| JobStore.Store.ReQueueScheduledJobs | crates/repositories/src/job_repository.rs:151-161 | Queues exactly the due scheduled rows and returns their number. |
| JobStore.Store.RecoverStaleJobs | crates/repositories/src/job_repository.rs:164-184 | Requeues exactly the held rows of stale workers and returns their number. |
| JobStore.Store.RetryJob | crates/services/src/dlq_service.rs:34-94 | Manual retry fails in the source's order of checks; for every pattern of failing statements and lost answers it requeues the job and stamps the entry together, or does neither. |
| JobStore.Store.SetPaused | crates/services/src/queue_service.rs:38-50 | Pausing and resuming fail only for a missing queue or a missing right, and otherwise set exactly the flag. |
| JobStore.Store.ScheduleNextOccurrence | crates/scheduler-core/src/recurring.rs:25-75 | Fails in the source's order of checks, and otherwise inserts exactly one row, given column by column from the predecessor and the next time. |
| JobStore.Store.MarkRunning | crates/worker/src/executor.rs:18-23 | Marks the row running whatever its status, and does nothing if there is no row. |
| JobStore.Store.SuccessTransaction | crates/worker/src/executor.rs:35-74 | For every pattern of failing statements the transaction applies all three statements or none, and reports success even when a failed statement turned it into a rollback. |
| JobStore.Store.FailureTransaction | crates/worker/src/executor.rs:87-169 | For every pattern of failing statements the dead-letter or the retry statements are applied together or not at all; a retry waits until the decision time plus the delay in seconds. |
| Worker.ExecuteJob | crates/worker/src/executor.rs:14-172 | For every outcome of its statements one execution is a run of protocol steps whose task is gone at the end, and the tables tell the rest: new attempts succeeded iff the handler did; without faults the job is completed, or dead-lettered iff its attempts are used up, or waiting; the next occurrence exists iff a recurring job's commit was reported and its expression names a time. |
| Worker.FaultlessExecution | crates/worker/src/executor.rs:33-169 | The same for executions without faults, with the counts of new attempts and dead letters. |
| Worker.ExecutionContinuesChain | crates/worker/src/executor.rs:76-84 | Exactly when an execution inserts a next occurrence, and with which expression and time. |
| Worker.FinishSuccess | crates/worker/src/executor.rs:34-84 | The success branch completes the row with one successful attempt and its event iff the transaction took effect, and inserts the next occurrence iff the commit was reported. |
| Worker.FinishFailure | crates/worker/src/executor.rs:86-170 | The failure branch leaves one failed attempt and a dead-lettered or waiting row iff the transaction took effect, with the delay computed before it, or nothing. |
| Worker.PollQueue | crates/worker/src/poller.rs:90-134 | Without interference a turn claims iff the queue exists, is not paused, is below its limit and has an unlocked eligible job; then it spawns a task for the best one. |
| Worker.PollTick | crates/worker/src/poller.rs:75-137 | A tick gives every queue one such turn, in order, and raises the counter of active jobs once per spawned task. |
| Domain.JobEntity.TransitionTo | crates/domain/src/entities/job.rs:85-95 | Changes the status iff the transition is legal, and otherwise leaves the entity as it was. |
| Backoff.DefaultIsSeededPolicy | crates/worker/src/executor.rs:193-195 | The default delay is computed without i64 overflow iff attempt <= 60, and there equals the seeded policy. |
| Backoff.DefaultDelayShape | crates/worker/src/executor.rs:193-195 | 10, 20, 40, 80, 160 seconds, then 300 from attempt 6 on. |
| Backoff.DefaultDelayMonotone | crates/worker/src/executor.rs:193-195 | The default delay never shrinks and stays between 10 and 300 seconds. |
| Backoff.DefaultBackoffTotal | crates/worker/src/executor.rs:193-195 | The delays after attempts 1..n add up to 310 + 300 (n - 5) seconds for 5 <= n <= 60. |
| Backoff.ExponentialGrowsToCap | crates/domain/src/entities/retry_policy.rs:30-38 | An exponential policy never waits longer than its cap; with a multiplier of at least one it never waits less after a later attempt, and with one between zero and one never longer. |
| Backoff.ExponentialClosedForm | crates/domain/src/entities/retry_policy.rs:30-34 | With an integral multiplier k the uncapped delay after attempt n is base * k^(n-1), up to the largest i64. |
| Backoff.BuildsAgreeIff | crates/worker/src/executor.rs:193-195 | Builds with and without overflow checks compute the same default delay iff the attempt is at most 61 or is 63; both abort at attempt 61. |
| Backoff.LinearIgnoresCap | crates/domain/src/entities/retry_policy.rs:27-40 | A linear policy passes any cap it is given. |
| RateLimit.AdmitsIffEnvelope | crates/api/src/middleware/rate_limit.rs:45-67 | For arbitrary clocks a request is admitted iff no window ending with it would exceed the capacity plus the refill of the forward clock jumps inside it. |
| RateLimit.WindowBound | crates/api/src/middleware/rate_limit.rs:55-62 | For arbitrary clocks the admitted cost of a window is at most the capacity plus that refill. |
| RateLimit.AtMostSixtyPlusElapsed | crates/api/src/middleware/rate_limit.rs:12-15 | With a non-decreasing clock at most 60 + (t - s) requests are admitted between s and t. |
| RateLimit.RefusalIsJustified | crates/api/src/middleware/rate_limit.rs:58-62 | A refused request ends some window that is saturated to the last token. |
| RateLimit.MiddlewareAdmitsIff | crates/api/src/middleware/rate_limit.rs:12-15 | With the middleware's constants and one clock a request is admitted iff no window ending with it holds 60 plus its length in seconds admitted requests. |
| RateLimit.ExpiryChangesNothing | crates/api/src/middleware/rate_limit.rs:64-65 | The two expiring keys decide like a bucket that never forgets if ttl, less the clock drift, times refill reaches the capacity. |
| RateLimit.MiddlewareNeverForgets | crates/api/src/middleware/rate_limit.rs:12-15 | With the middleware's constants that holds for up to a minute of drift. |
| RateLimit.ScriptIsEnvelope | crates/api/src/middleware/rate_limit.rs:45-67 | Within the drift that the expiry tolerates, the level that the script computes from its two keys covers the cost iff the envelope admits the request. |
| RateLimit.RateLimiter.Invoke | crates/api/src/middleware/rate_limit.rs:36-68 | One run of the script rewrites both keys and admits iff the refilled level covers the cost, which within that drift is iff the envelope of all its earlier requests admits it. |
| RateLimit.RateLimiter.Admit | crates/api/src/middleware/rate_limit.rs:71-89 | A request passes iff the script admits it or Redis cannot be asked. |
| OutboxRelay.Relay.Fetch | crates/infrastructure/src/outbox_relay.rs:18-27 | Returns at most fifty unpublished events in order, and leaves one out only if it returns fifty older ones. |
| OutboxRelay.Relay.RunTick | crates/infrastructure/src/outbox_relay.rs:35-64 | A tick appends to the log exactly the fetched events whose publish succeeded and marks exactly those whose mark succeeded too. |
| OutboxRelay.PublishCount | crates/infrastructure/src/outbox_relay.rs:50-63 | In every run an event was published exactly as often as its mark failed, plus once if it is marked. |
| OutboxRelay.DrainBound | crates/infrastructure/src/outbox_relay.rs:20-24 | With b < 50 always-failing events before it, an event is published after k ticks once k (50 - b) covers the good events up to it. |
| OutboxRelay.BacklogDrains | crates/infrastructure/src/outbox_relay.rs:20-24 | With a set F of fewer than fifty always-failing events, all g others are published after k ticks if k (50 - size of F) >= g. |
| OutboxRelay.DrainsIffBatchNotBlocked | crates/infrastructure/src/outbox_relay.rs:20-53 | A publishable event is eventually published iff fewer than fifty always-failing events are queued before it. |
| OutboxRelay.RelayKeepsOrder | crates/infrastructure/src/outbox_relay.rs:20-64 | While everything succeeds the log is the events in created_at order, without gaps or repeats, and they are the published ones. |
| CircuitBreaker.LockLawKeptIff | crates/infrastructure/src/circuit_breaker.rs:70-74 | A move of concurrent calls keeps "an open circuit has a failure time when the lock is free" iff it does not drop a call between the two stores. |
| CircuitBreaker.OpenHasFailureTime | crates/infrastructure/src/circuit_breaker.rs:42-53 | Under every interleaving without such a drop, the branch for an open circuit without a failure time is dead. |
| CircuitBreaker.DroppedCallBlocksIff | crates/infrastructure/src/circuit_breaker.rs:51-53 | After such a drop with no failure time yet, no run ever lets a call through again iff the dropped call was the only one in flight. |
| CircuitBreaker.EveryBreakerCanDie | crates/infrastructure/src/circuit_breaker.rs:69-74 | From every fresh breaker some run ends with such a drop. |
| CircuitBreaker.Guard.Call | crates/infrastructure/src/circuit_breaker.rs:34-83 | In sequential use a call is rejected iff the trailing failures reached the threshold and the last is younger than the timeout. |
| CircuitBreaker.SequentialMachine | crates/infrastructure/src/circuit_breaker.rs:34-83 | Used by one call after the other, the concurrent machine rejects a call iff the same history says so. |
| CircuitBreaker.TrailingExactly | crates/infrastructure/src/circuit_breaker.rs:69-70 | The circuit has counted at least n failures iff the last n calls that went through all failed. |
| CircuitBreaker.ProbeDecides | crates/infrastructure/src/circuit_breaker.rs:46-47 | A failed probe reopens the circuit for a full timeout; a successful one closes it. |
| CircuitBreaker.RejectionMeansFailures | crates/infrastructure/src/circuit_breaker.rs:69-74 | A rejection means that the last `threshold` calls that went through all failed. |
| Workflow.WorkflowStore.OnJobCompleted | crates/services/src/workflow_service.rs:16-47 | Without interference the loop queues exactly the pending dependents of the job whose dependencies are all completed. |
| Workflow.ReleasedOnlyWhenReady | crates/services/src/workflow_service.rs:25-40 | However calls interleave, a pending job that is not cancelled is released only when all its dependencies are completed. |
| Workflow.NoLostWakeup | crates/services/src/workflow_service.rs:16-47 | When the calls for all completions have ended, no pending job with dependencies has them all completed. |
| Workflow.WorkflowReachesAll | crates/services/src/workflow_service.rs:16-47 | On an acyclic graph whose pending jobs all have dependencies, a workflow at rest with its released jobs completed has completed every job except those that are cancelled or depend on a cancelled one. |
| Workflow.DoomedNeverCompletes | crates/services/src/job_service.rs:182-188 | If the jobs with dependencies start pending, a job that is cancelled or depends on a cancelled one is not completed in any reachable world. |
| Workflow.WorkflowCanFinish | crates/services/src/workflow_service.rs:16-47 | If moreover only those start pending and the graph is acyclic, every reachable world has a continuation without further cancels that completes exactly the other jobs. |

## Left out

- HTTP handlers, routing, WebSockets, the frontend and deployment; authentication and roles beyond "member, viewer or none".
- Deletion: no statement of the lifecycle deletes rows, and cascades from deleting a project are not modelled.
- Columns that no statement branches on (name, payload, project, batch and correlation identifiers, updated_at, completed_at), the workers table (every worker that claims is registered, by foreign key) and the relay's choice of channel.
- PostgreSQL's row locks are an arbitrary set of locked rows per claim; a statement or transaction takes effect at one instant.
- Database and application clocks are one clock, except in the token bucket, where they may drift.
- Statement errors in a claim, a check or an unguarded update are modelled as the step not happening, or as the task stopping right after it.
- Progress of jobs: a task may stop and leave its job claimed or running until its worker is stale, and a scheduled job without a time is never promoted.
- JobStore.Store.CreateJob: one uninterrupted submission; the race between its check and its insert is in Conservation.IdempotentSubmission and JobStore.Store.InsertJob.
- Worker.ExecuteJob: one uninterrupted execution; interleavings are the protocol's.
- Worker.PollTick: one uninterrupted tick, in which the counter is only raised; a task lowers it when it ends, and no statement of the lifecycle branches on it.
- Backoff.DefaultIsSeededPolicy: the protocol's default delay is that of a build with overflow checks. The release build differs from attempt 62 on only, which a job reaches only if its policy was found for attempt 61 and is not found later.
- A policy whose delay is out of range for a duration or a timestamp aborts the task in the code; the model schedules the retry.
- RecurringChains.ChainsAreLinear: one sufficient condition; the exact one is RecurringChains.LinearRunsFollow.
- TimedRuns.TimedRunsAreFailStop: beats and recovery ticks fall exactly on their periods, a worker's first beat succeeds before it claims, and manual retries of one entry do not overlap.
- Backoff.ExponentialGrowsToCap: multipliers are real numbers and not negative, and attempts are at least one; floating-point rounding and special values are not modelled.
- Workflow.WorkflowCanFinish: the continuation lets every released job succeed in the end.
- OutboxRelay.RelayKeepsOrder: events become visible in created_at order; one relay runs.
- The key that groups requests for rate limiting, cron parsing (an arbitrary time after now), queue statistics, the language-model client and the saga log lines.
- JobRepository's mark_running, mark_completed, schedule_retry, mark_failed and insert_execution: the executor has its own statements and never calls them.
- Attempt counts are unbounded integers.
