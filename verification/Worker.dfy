/** The worker process: one poll of a queue and one execution of a claimed job, written as the
    code runs them, and proved to be runs of the protocol. */
module Worker {
  import opened Domain
  import opened Backoff
  import opened Protocol
  import opened JobStore

  // The simulated handler takes fifty milliseconds.
  const HANDLER_TIME: nat := 50_000

  /** acts is a run of the protocol from s whose database is the store's. */
  ghost predicate Performs(store: Store, s: State, acts: seq<Action>)
    reads store
  {
    Run(s, acts).db == store.Contents()
  }

  /** The job's policy if the lookup finds it, whatever its strategy says, and else the default. */
  method CalculateRetryDelay(store: Store, snap: Job, attempt: int, policyFound: bool) returns (delay: Option<int>)
    ensures delay == RetryDelay(store.Contents(), snap, attempt, policyFound)
    ensures !policyFound || snap.policy.None? || snap.policy.value !in store.policies ==> delay == DefaultDelay(attempt)
    ensures policyFound && snap.policy.Some? && snap.policy.value in store.policies ==>
      delay.Some? && PolicyDelay(store.policies[snap.policy.value], attempt, delay.value)
  {
    if snap.policy.Some? {
      if policyFound && snap.policy.value in store.policies {
        return Some(NextDelaySeconds(store.policies[snap.policy.value], attempt));
      }
    }
    return DefaultDelay(attempt);
  }

  /** What the environment decides during one execution: whether the UPDATE that marks the row,
      the handler, BEGIN, the policy lookup, each statement and COMMIT go well. */
  datatype Luck = Luck(
    marked: CommitFate, handlerOk: bool, began: bool, policyFound: bool, ok: seq<bool>, fate: CommitFate,
    cronParses: bool)

  /** What becomes of a transaction of n statements. */
  function OutcomeOf(luck: Luck, n: nat): Outcome
    requires n <= |luck.ok|
  {
    if luck.fate != LostBefore && forall i | 0 <= i < n :: luck.ok[i] then Committed(luck.fate == Acknowledged)
    else RolledBack(luck.fate == Acknowledged)
  }

  /** The failure transaction skips its third statement unless it dead-letters. */
  function FailOutcome(luck: Luck, dead: bool): Outcome
    requires |luck.ok| >= 4
  {
    if luck.fate != LostBefore && luck.ok[0] && luck.ok[1] && (dead ==> luck.ok[2]) && luck.ok[3]
    then Committed(luck.fate == Acknowledged) else RolledBack(luck.fate == Acknowledged)
  }

  /** The step after a reported commit. */
  function ReenqueueStep(
    now: Time, tid: TaskId, snap: Job, luck: Luck, nextId: JobId, upcoming: Time -> Option<Time>): Action
  {
    if snap.IsRecurring() && luck.cronParses && upcoming(now).Some? then InsertNext(tid, nextId, upcoming(now).value)
    else Stop(tid)
  }

  /** The steps of the success branch. */
  function SuccessSteps(
    now: Time, tid: TaskId, snap: Job, luck: Luck, nextId: JobId, upcoming: Time -> Option<Time>): seq<Action>
    requires |luck.ok| >= 3
  {
    if !luck.began then [Stop(tid)]
    else
      var o := OutcomeOf(luck, 3);
      [Succeed(tid, now, o)] + (if o.reported then [ReenqueueStep(now, tid, snap, luck, nextId, upcoming)] else [])
  }

  /** The steps of the failure branch; a delay that cannot be computed aborts the task. */
  function FailureSteps(db: Db, tid: TaskId, t: Task, luck: Luck): seq<Action>
    requires |luck.ok| >= 4
  {
    var d := if DeadLettered(t) then Some(0) else RetryDelay(db, t.snap, t.snap.attempts + 1, luck.policyFound);
    if !luck.began || d.None? then [Stop(tid)]
    else [Fail(tid, db.now, db.now, luck.policyFound, d.value, FailOutcome(luck, DeadLettered(t)))]
  }

  /** The steps of one execution that starts now. */
  function ExecutionSteps(
    db: Db, tid: TaskId, t: Task, luck: Luck, nextId: JobId, upcoming: Time -> Option<Time>): seq<Action>
    requires |luck.ok| >= 4
  {
    var end := db.now + HANDLER_TIME;
    match luck.marked
    case LostBefore => [Stop(tid)]
    case LostAfter => [MarkRunning(tid, db.now)] + [Stop(tid)]
    case Acknowledged =>
      [MarkRunning(tid, db.now)] + [Advance(end)]
      + (if luck.handlerOk then SuccessSteps(end, tid, t.snap, luck, nextId, upcoming)
         else FailureSteps(db.(now := end), tid, t, luck))
  }

  // ---------------------------------------------------------------- what an execution leaves behind

  /** The tables after the success branch, which begins with `before`: the job is completed by one
      successful attempt iff the transaction took effect, and a reported commit of a recurring job
      inserts the next occurrence if the expression parses and names a time. */
  ghost predicate SuccessOutcome(before: Db, after: Db, t: Task, luck: Luck, nextId: JobId, next: Option<Time>)
    requires t.job in before.jobs && t.phase.Started? && |luck.ok| >= 3
  {
    var committed := luck.began && luck.ok[0] && luck.ok[1] && luck.ok[2] && luck.fate != LostBefore;
    var inserts := Inserts(t, luck, next);
    var row := before.jobs[t.job];
    && after == before.(jobs := after.jobs, executions := after.executions, outbox := after.outbox)
    && after.executions == before.executions
         + (if committed
            then [Execution(t.job, t.worker, t.snap.attempts + 1, t.phase.startedAt, before.now, true, None,
                            before.now)]
            else [])
    && after.outbox == before.outbox + (if committed then [Event(JobCompleted, t.job)] else [])
    && after.jobs.Keys == before.jobs.Keys + (if inserts then {nextId} else {})
    && (forall j | j in before.jobs && j != t.job :: after.jobs[j] == before.jobs[j])
    && after.jobs[t.job] == (if committed then row.(status := Completed, worker := None) else row)
    && (inserts ==> AsOccurrence(after.jobs[nextId], t.job, row, next.value, before.now))
  }

  /** The tables after the failure branch: one failed attempt, and the job is dead-lettered when its
      attempts are used up and else waits for its back-off, iff the transaction took effect. */
  ghost predicate FailureOutcome(before: Db, after: Db, t: Task, luck: Luck)
    requires t.job in before.jobs && t.phase.Started? && |luck.ok| >= 4
  {
    var attempt := t.snap.attempts + 1;
    var dead := attempt >= t.snap.maxAttempts;
    var delay := RetryDelay(before, t.snap, attempt, luck.policyFound);
    var committed := luck.began && (dead || delay.Some?) && luck.ok[0] && luck.ok[1] && (dead ==> luck.ok[2])
      && luck.ok[3] && luck.fate != LostBefore;
    var row := before.jobs[t.job];
    if !committed then after == before
    else if dead then
      after == before.(
        jobs := before.jobs[t.job := row.(status := Failed, attempts := attempt, worker := None)],
        executions := before.executions
          + [Execution(t.job, t.worker, attempt, t.phase.startedAt, before.now, false, None, before.now)],
        dlq := before.dlq + [DlqEntry(t.job, attempt, false)],
        outbox := before.outbox + [Event(JobMovedToDlq, t.job)])
    else
      after == before.(
        jobs := before.jobs[t.job := row.(status := Scheduled, attempts := attempt, worker := None,
                                          nextAttemptAt := Some(before.now + delay.value * 1_000_000))],
        executions := before.executions
          + [Execution(t.job, t.worker, attempt, t.phase.startedAt, before.now, false, delay, before.now)],
        outbox := before.outbox + [Event(JobRetryScheduled, t.job)])
  }

  /** After the commit was reported: the next occurrence of a recurring job. */
  method Reenqueue(store: Store, ghost s: State, ghost tid: TaskId, t: Task, luck: Luck, nextId: JobId,
                   upcoming: Time -> Option<Time>)
    returns (ghost acts: seq<Action>)
    requires s.db == store.Contents() && tid in s.tasks && s.tasks[tid] == t
    requires t.job in store.jobs && t.phase.Done? && t.phase.at <= store.now && nextId !in store.jobs
    requires forall now :: upcoming(now).Some? ==> upcoming(now).value > now
    modifies store
    ensures acts == [ReenqueueStep(old(store.now), tid, t.snap, luck, nextId, upcoming)]
    ensures Performs(store, s, acts) && tid !in Run(s, acts).tasks
    ensures var next := upcoming(old(store.now));
      if t.snap.jobType == Recurring && t.snap.cron.Some? && luck.cronParses && next.Some? then
        && store.Contents() == old(store.Contents()).(jobs := store.jobs)
        && OnlyRow(old(store.jobs), store.jobs, nextId)
        && AsOccurrence(store.jobs[nextId], t.job, old(store.jobs)[t.job], next.value, old(store.now))
      else store.Contents() == old(store.Contents())
  {
    hide Apply;
    ghost var last := Stop(tid);
    StopNext(s, tid);
    if t.snap.IsRecurring() {
      var next := upcoming(store.now);
      var res := store.ScheduleNextOccurrence(t.job, t.snap, nextId, luck.cronParses, next);
      if res.Success? {
        last := InsertNext(tid, nextId, next.value);
        OccurrenceNext(s, tid, nextId, next.value);
      }
    }
    RunSnoc(s, [], last);
    return [last];
  }

  lemma {:induction false} OutcomeOfThree(luck: Luck)
    requires |luck.ok| >= 3
    ensures OutcomeOf(luck, 3).Committed? <==> luck.ok[..3] == [true, true, true] && luck.fate != LostBefore
    ensures OutcomeOf(luck, 3).reported <==> luck.fate == Acknowledged
  {
  }

  predicate Inserts(t: Task, luck: Luck, next: Option<Time>) {
    luck.began && luck.fate == Acknowledged
    && t.snap.jobType == Recurring && t.snap.cron.Some? && luck.cronParses && next.Some?
  }

  lemma {:induction false} SuccessLeaves(
    before: Db, mid: Db, after: Db, t: Task, luck: Luck, nextId: JobId, next: Option<Time>)
    requires t.job in before.jobs && t.phase.Started? && |luck.ok| >= 3 && luck.began && nextId !in before.jobs
    requires if OutcomeOf(luck, 3).Committed? then
        mid == before.(
          jobs := before.jobs[t.job := before.jobs[t.job].(status := Completed, worker := None)],
          executions := before.executions + [ExecutionRow(t, before.now, true, None, before.now)],
          outbox := before.outbox + [Event(JobCompleted, t.job)])
      else mid == before
    requires if Inserts(t, luck, next) then
        && after == mid.(jobs := after.jobs) && OnlyRow(mid.jobs, after.jobs, nextId)
        && AsOccurrence(after.jobs[nextId], t.job, mid.jobs[t.job], next.value, before.now)
      else after == mid
    ensures SuccessOutcome(before, after, t, luck, nextId, next)
  {
  }

  /** The success branch: the transaction, then the next occurrence of a recurring job. */
  method FinishSuccess(store: Store, ghost s: State, ghost tid: TaskId, t: Task, luck: Luck, nextId: JobId,
                       upcoming: Time -> Option<Time>)
    returns (ghost acts: seq<Action>)
    requires s.db == store.Contents() && tid in s.tasks && s.tasks[tid] == t
    requires t.job in store.jobs && t.phase.Started? && t.phase.startedAt <= store.now && |luck.ok| >= 3
    requires nextId !in store.jobs
    requires forall now :: upcoming(now).Some? ==> upcoming(now).value > now
    modifies store
    ensures acts == SuccessSteps(old(store.now), tid, t.snap, luck, nextId, upcoming)
    ensures Performs(store, s, acts) && tid !in Run(s, acts).tasks
    ensures SuccessOutcome(old(store.Contents()), store.Contents(), t, luck, nextId, upcoming(old(store.now)))
  {
    hide Run, Next, ReenqueueStep, OutcomeOf, SuccessOutcome, AsOccurrence;
    OutcomeOfThree(luck);
    ghost var before, next := store.Contents(), upcoming(store.now);
    if !luck.began {
      StopNext(s, tid);
      RunOne(s, Stop(tid));
      NothingLeft(before, t, luck, nextId, next);
      return [Stop(tid)];
    }
    var finishedAt := store.now;
    var outcome := store.SuccessTransaction(t, finishedAt, luck.ok[..3], luck.fate);
    ghost var commit := Succeed(tid, finishedAt, outcome);
    SucceedNext(s, tid, finishedAt, outcome);
    RunOne(s, commit);
    acts := [commit];
    ghost var mid := store.Contents();
    if outcome.reported {
      ghost var rest := Reenqueue(store, Next(s, commit), tid, t.(phase := Done(store.now, outcome.Committed?)),
                                  luck, nextId, upcoming);
      RunConcat(s, [commit], rest);
      acts := [commit] + rest;
    }
    SuccessLeaves(before, mid, store.Contents(), t, luck, nextId, next);
  }

  lemma {:induction false} NothingLeft(db: Db, t: Task, luck: Luck, nextId: JobId, next: Option<Time>)
    requires t.job in db.jobs && t.phase.Started? && |luck.ok| >= 3 && !luck.began
    ensures SuccessOutcome(db, db, t, luck, nextId, next)
  {
  }

  lemma {:induction false} NothingFailed(db: Db, t: Task, luck: Luck)
    requires t.job in db.jobs && t.phase.Started? && |luck.ok| >= 4
    requires !luck.began
      || (!DeadLettered(t) && RetryDelay(db, t.snap, t.snap.attempts + 1, luck.policyFound).None?)
    ensures FailureOutcome(db, db, t, luck)
  {
    hide RetryDelay;
  }

  lemma {:induction false} FailureLeaves(before: Db, after: Db, t: Task, luck: Luck, delay: int)
    requires t.job in before.jobs && t.phase.Started? && |luck.ok| >= 4 && luck.began
    requires DeadLettered(t) || RetryDelay(before, t.snap, t.snap.attempts + 1, luck.policyFound) == Some(delay)
    requires FailOutcome(luck, DeadLettered(t)).Committed? && DeadLettered(t) ==>
      after == before.(
        jobs := before.jobs[t.job := before.jobs[t.job].(
          status := Failed, attempts := t.snap.attempts + 1, worker := None)],
        executions := before.executions + [ExecutionRow(t, before.now, false, None, before.now)],
        dlq := before.dlq + [DlqEntry(t.job, t.snap.attempts + 1, false)],
        outbox := before.outbox + [Event(JobMovedToDlq, t.job)])
    requires FailOutcome(luck, DeadLettered(t)).Committed? && !DeadLettered(t) ==>
      after == before.(
        jobs := before.jobs[t.job := before.jobs[t.job].(
          status := Scheduled, attempts := t.snap.attempts + 1, worker := None,
          nextAttemptAt := Some(before.now + delay * 1_000_000))],
        executions := before.executions + [ExecutionRow(t, before.now, false, Some(delay), before.now)],
        outbox := before.outbox + [Event(JobRetryScheduled, t.job)])
    requires !FailOutcome(luck, DeadLettered(t)).Committed? ==> after == before
    ensures FailureOutcome(before, after, t, luck)
  {
    hide RetryDelay;
  }

  /** The failure branch: the delay outside the transaction, then the transaction. */
  method FinishFailure(store: Store, ghost s: State, ghost tid: TaskId, t: Task, luck: Luck)
    returns (ghost acts: seq<Action>)
    requires s.db == store.Contents() && tid in s.tasks && s.tasks[tid] == t
    requires t.job in store.jobs && t.phase.Started? && t.phase.startedAt <= store.now && |luck.ok| >= 4
    modifies store
    ensures acts == FailureSteps(old(store.Contents()), tid, t, luck)
    ensures Performs(store, s, acts) && tid !in Run(s, acts).tasks
    ensures FailureOutcome(old(store.Contents()), store.Contents(), t, luck)
  {
    hide Run, Next, RetryDelay, PolicyDelay, FailDb, FailureOutcome;
    ghost var before := store.Contents();
    StopNext(s, tid);
    RunOne(s, Stop(tid));
    if !luck.began {
      NothingFailed(before, t, luck);
      return [Stop(tid)];
    }
    var finishedAt := store.now;
    var delay := 0;
    if !DeadLettered(t) {
      var d := CalculateRetryDelay(store, t.snap, t.snap.attempts + 1, luck.policyFound);
      if d.None? {
        NothingFailed(before, t, luck);
        return [Stop(tid)];
      }
      delay := d.value;
    }
    var outcome := store.FailureTransaction(t, finishedAt, store.now, delay, luck.ok[..4], luck.fate);
    ghost var commit := Fail(tid, finishedAt, finishedAt, luck.policyFound, delay, outcome);
    FailNext(s, commit);
    RunOne(s, commit);
    FailureLeaves(before, store.Contents(), t, luck, delay);
    return [commit];
  }

  lemma {:induction false} SameFailureSteps(a: Db, b: Db, tid: TaskId, t: Task, u: Task, luck: Luck)
    requires a.now == b.now && a.policies == b.policies && t.snap == u.snap && |luck.ok| >= 4
    ensures FailureSteps(a, tid, t, luck) == FailureSteps(b, tid, u, luck)
  {
  }

  /** The tables when the handler starts: the row is marked running, and fifty milliseconds later the
      handler is done. */
  function Marked(db: Db, j: JobId): Db
    requires j in db.jobs
  {
    db.(jobs := db.jobs[j := db.jobs[j].(status := Running)], now := db.now + 50_000)
  }

  /** The tables after an execution that starts with `before`: where a lost answer stops it, and the
      handler's outcome decides which branch runs. */
  ghost predicate ExecutionOutcome(
    before: Db, after: Db, claimed: Task, luck: Luck, nextId: JobId, upcoming: Time -> Option<Time>)
    requires claimed.job in before.jobs && |luck.ok| >= 4
  {
    var t := claimed.(phase := Started(before.now));
    match luck.marked
    case LostBefore => after == before
    case LostAfter =>
      after == before.(jobs := before.jobs[claimed.job := before.jobs[claimed.job].(status := Running)])
    case Acknowledged =>
      var handled := Marked(before, claimed.job);
      && (luck.handlerOk ==> SuccessOutcome(handled, after, t, luck, nextId, upcoming(handled.now)))
      && (!luck.handlerOk ==> FailureOutcome(handled, after, t, luck))
  }

  /** A handler that succeeds leaves no failed attempt and one that fails no successful one. */
  lemma {:induction false} RowsTellTheHandler(
    before: Db, after: Db, claimed: Task, luck: Luck, nextId: JobId, upcoming: Time -> Option<Time>)
    requires claimed.job in before.jobs && |luck.ok| >= 4
    requires ExecutionOutcome(before, after, claimed, luck, nextId, upcoming)
    ensures |before.executions| <= |after.executions| <= |before.executions| + 1
    ensures after.executions[..|before.executions|] == before.executions
    ensures forall i | |before.executions| <= i < |after.executions| ::
      after.executions[i].success == luck.handlerOk && after.executions[i].job == claimed.job
      && after.executions[i].attempt == claimed.snap.attempts + 1 && after.executions[i].worker == claimed.worker
  {
    hide RetryDelay, AsOccurrence;
  }

  lemma {:induction false} SameDelay(a: Db, b: Db, snap: Job, attempt: int, found: bool)
    requires a.policies == b.policies
    ensures RetryDelay(a, snap, attempt, found) == RetryDelay(b, snap, attempt, found)
  {
  }

  predicate AllOk(luck: Luck) {
    && luck.marked == Acknowledged && luck.began && luck.fate != LostBefore
    && forall i | 0 <= i < |luck.ok| :: luck.ok[i]
  }

  /** What an execution without faults leaves: a completed job with a successful attempt, or a failed
      attempt after which the job is dead-lettered iff its attempts are used up and waits otherwise. */
  lemma {:induction false} FaultlessExecution(
    before: Db, after: Db, claimed: Task, luck: Luck, nextId: JobId, upcoming: Time -> Option<Time>)
    requires claimed.job in before.jobs && nextId !in before.jobs && |luck.ok| >= 4 && AllOk(luck)
    requires ExecutionOutcome(before, after, claimed, luck, nextId, upcoming)
    ensures luck.handlerOk ==>
      && claimed.job in after.jobs && after.jobs[claimed.job].status == Completed
      && after.dlq == before.dlq && |after.executions| == |before.executions| + 1
    ensures !luck.handlerOk && claimed.snap.attempts + 1 >= claimed.snap.maxAttempts ==>
      && claimed.job in after.jobs && after.jobs[claimed.job].status == Failed
      && after.dlq == before.dlq + [DlqEntry(claimed.job, claimed.snap.attempts + 1, false)]
      && |after.executions| == |before.executions| + 1
    ensures !luck.handlerOk && claimed.snap.attempts + 1 < claimed.snap.maxAttempts
            && RetryDelay(before, claimed.snap, claimed.snap.attempts + 1, luck.policyFound).Some? ==>
      && claimed.job in after.jobs && after.jobs[claimed.job].status == Scheduled
      && after.jobs[claimed.job].attempts == claimed.snap.attempts + 1
      && after.dlq == before.dlq && |after.executions| == |before.executions| + 1
  {
    hide RetryDelay, AsOccurrence;
    assert RetryDelay(Marked(before, claimed.job), claimed.snap, claimed.snap.attempts + 1, luck.policyFound)
        == RetryDelay(before, claimed.snap, claimed.snap.attempts + 1, luck.policyFound) by {
      SameDelay(before, Marked(before, claimed.job), claimed.snap, claimed.snap.attempts + 1, luck.policyFound);
    }
  }

  /** A chain of occurrences goes on exactly after a reported commit of a recurring job whose expression
      names another time, and then with a job that recurs in the same way. */
  lemma {:induction false} ExecutionContinuesChain(
    before: Db, after: Db, claimed: Task, luck: Luck, nextId: JobId, upcoming: Time -> Option<Time>)
    requires claimed.job in before.jobs && nextId !in before.jobs && |luck.ok| >= 4
    requires ExecutionOutcome(before, after, claimed, luck, nextId, upcoming)
    ensures nextId in after.jobs <==>
      && luck.marked == Acknowledged && luck.handlerOk && luck.began && luck.fate == Acknowledged
      && claimed.snap.jobType == Recurring && claimed.snap.cron.Some? && luck.cronParses
      && upcoming(before.now + 50_000).Some?
    ensures nextId in after.jobs ==> var row := after.jobs[nextId];
      && row.prev == Some(claimed.job) && row.scheduledAt == upcoming(before.now + 50_000)
      && row.status == Scheduled && row.jobType == before.jobs[claimed.job].jobType
      && row.cron == before.jobs[claimed.job].cron
  {
    hide RetryDelay;
  }

  /** The main consequences, read from the tables alone. New attempts succeeded iff the handler did.
      Without faults the job is completed or else, its attempts used up, failed with a new dead letter,
      or waiting with one attempt more. A next occurrence exists iff the commit of a recurring job was
      reported and its expression names another time. */
  ghost predicate ExecutionTells(
    before: Db, after: Db, claimed: Task, luck: Luck, nextId: JobId, upcoming: Time -> Option<Time>)
    requires claimed.job in before.jobs && |luck.ok| >= 4
  {
    var attempt := claimed.snap.attempts + 1;
    && claimed.job in after.jobs
    && var row := after.jobs[claimed.job];
    && (forall i | |before.executions| <= i < |after.executions| :: after.executions[i].success == luck.handlerOk)
    && (AllOk(luck) && luck.handlerOk ==> row.status == Completed && after.dlq == before.dlq)
    && (AllOk(luck) && !luck.handlerOk && attempt >= claimed.snap.maxAttempts ==>
          row.status == Failed && after.dlq == before.dlq + [DlqEntry(claimed.job, attempt, false)])
    && (AllOk(luck) && !luck.handlerOk && attempt < claimed.snap.maxAttempts
        && RetryDelay(before, claimed.snap, attempt, luck.policyFound).Some? ==>
          row.status == Scheduled && row.attempts == attempt && after.dlq == before.dlq)
    && (nextId in after.jobs <==>
          && luck.marked == Acknowledged && luck.handlerOk && luck.began && luck.fate == Acknowledged
          && claimed.snap.jobType == Recurring && claimed.snap.cron.Some? && luck.cronParses
          && upcoming(before.now + 50_000).Some?)
    && (nextId in after.jobs ==>
          after.jobs[nextId].prev == Some(claimed.job) && after.jobs[nextId].cron == before.jobs[claimed.job].cron)
  }

  lemma {:induction false} ConcludeExecution(
    before: Db, after: Db, claimed: Task, luck: Luck, nextId: JobId, upcoming: Time -> Option<Time>)
    requires claimed.job in before.jobs && nextId !in before.jobs && |luck.ok| >= 4
    requires ExecutionOutcome(before, after, claimed, luck, nextId, upcoming)
    ensures ExecutionTells(before, after, claimed, luck, nextId, upcoming)
  {
    RowKept(before, after, claimed, luck, nextId, upcoming);
    hide ExecutionOutcome, AllOk, RetryDelay;
    RowsTellTheHandler(before, after, claimed, luck, nextId, upcoming);
    ExecutionContinuesChain(before, after, claimed, luck, nextId, upcoming);
    if AllOk(luck) {
      FaultlessExecution(before, after, claimed, luck, nextId, upcoming);
    }
  }

  lemma {:induction false} RowKept(
    before: Db, after: Db, claimed: Task, luck: Luck, nextId: JobId, upcoming: Time -> Option<Time>)
    requires claimed.job in before.jobs && nextId !in before.jobs && |luck.ok| >= 4
    requires ExecutionOutcome(before, after, claimed, luck, nextId, upcoming)
    ensures claimed.job in after.jobs
  {
    hide RetryDelay;
  }

  lemma {:induction false} ConcludeBranch(
    before: Db, after: Db, claimed: Task, luck: Luck, nextId: JobId, upcoming: Time -> Option<Time>)
    requires claimed.job in before.jobs && nextId !in before.jobs && |luck.ok| >= 4 && luck.marked == Acknowledged
    requires var handled, t := Marked(before, claimed.job), claimed.(phase := Started(before.now));
      if luck.handlerOk then SuccessOutcome(handled, after, t, luck, nextId, upcoming(handled.now))
      else FailureOutcome(handled, after, t, luck)
    ensures ExecutionOutcome(before, after, claimed, luck, nextId, upcoming)
  {
    hide SuccessOutcome, FailureOutcome;
  }

  /** One executor task from its claim to its end. */
  method ExecuteJob(store: Store, ghost s: State, ghost tid: TaskId, claimed: Task,
                    luck: Luck, nextId: JobId, upcoming: Time -> Option<Time>)
    returns (ghost acts: seq<Action>)
    requires s.db == store.Contents() && tid in s.tasks && s.tasks[tid] == claimed && claimed.job in store.jobs
    requires claimed.phase.Spawned? && claimed.spawnedAt <= store.now
    requires |luck.ok| >= 4 && nextId !in store.jobs
    requires forall now :: upcoming(now).Some? ==> upcoming(now).value > now
    modifies store
    ensures acts == ExecutionSteps(old(store.Contents()), tid, claimed, luck, nextId, upcoming)
    ensures Performs(store, s, acts) && tid !in Run(s, acts).tasks
    ensures ExecutionOutcome(old(store.Contents()), store.Contents(), claimed, luck, nextId, upcoming)
    ensures ExecutionTells(old(store.Contents()), store.Contents(), claimed, luck, nextId, upcoming)
  {
    hide Run, Next, SuccessSteps, FailureSteps, SuccessOutcome, FailureOutcome, ExecutionTells;
    ghost var before := store.Contents();
    var startedAt := store.now;
    if luck.marked == LostBefore {
      StopNext(s, tid);
      RunOne(s, Stop(tid));
      ConcludeExecution(before, store.Contents(), claimed, luck, nextId, upcoming);
      return [Stop(tid)];
    }
    store.MarkRunning(claimed.job);
    ghost var mark, wait := MarkRunning(tid, startedAt), Advance(startedAt + HANDLER_TIME);
    MarkNext(s, tid, startedAt);
    RunOne(s, mark);
    if luck.marked == LostAfter {
      StopNext(Next(s, mark), tid);
      RunSnoc(s, [mark], Stop(tid));
      ConcludeExecution(before, store.Contents(), claimed, luck, nextId, upcoming);
      return [mark] + [Stop(tid)];
    }
    store.Sleep(HANDLER_TIME);
    assert store.Contents() == Marked(before, claimed.job);
    hide Marked, ExecutionOutcome;
    AdvanceNext(Next(s, mark), startedAt + HANDLER_TIME);
    RunSnoc(s, [mark], wait);
    ghost var running := Next(Next(s, mark), wait);
    var task := claimed.(phase := Started(startedAt));
    ghost var rest;
    if luck.handlerOk {
      rest := FinishSuccess(store, running, tid, task, luck, nextId, upcoming);
    } else {
      SameFailureSteps(s.db.(now := startedAt + HANDLER_TIME), store.Contents(), tid, claimed, task, luck);
      rest := FinishFailure(store, running, tid, task, luck);
    }
    RunConcat(s, [mark] + [wait], rest);
    acts := [mark] + [wait] + rest;
    ConcludeBranch(before, store.Contents(), claimed, luck, nextId, upcoming);
    ConcludeExecution(before, store.Contents(), claimed, luck, nextId, upcoming);
  }

  /** One turn of the poller on one queue: the pause check, the limit check, the claim. Without
      interference it claims iff the queue exists, is not paused, is below its limit and has an
      eligible job that nobody locks, and then the task it spawns holds the best such job. */
  method PollQueue(store: Store, ghost s: State, w: WorkerId, q: QueueId, ghost tid: TaskId, locked: set<JobId>)
    returns (claimed: Option<JobId>, ghost acts: seq<Action>)
    requires s.db == store.Contents() && PollOf(s, w).Idle? && tid !in s.tasks
    modifies store
    ensures Performs(store, s, acts) && PollOf(Run(s, acts), w).Idle?
    ensures claimed.Some? <==>
      && q in s.db.queues && !s.db.queues[q].paused && |RunningJobs(s.db, q)| < s.db.queues[q].limit
      && exists j | j in s.db.jobs && j !in locked :: Eligible(s.db, q, j)
    ensures claimed.Some? ==>
      Claimable(s.db, q, locked, claimed.value) && Claims(s, Run(s, acts), w, claimed.value, tid)
    ensures claimed.None? ==> Run(s, acts).tasks == s.tasks && Run(s, acts).db == s.db
  {
    hide Apply;
    claimed, acts := None, [];
    if q !in store.queues || store.queues[q].paused {
      return;
    }
    var running := store.CountRunningJobs(q);
    if running >= store.queues[q].limit {
      return;
    }
    ghost var pause, count := PollPause(w, q), PollCount(w);
    PollNext(s, w, q);
    RunSnoc(s, [], pause);
    RunSnoc(s, [pause], count);
    ghost var admitted := Next(Next(s, pause), count);
    claimed := store.ClaimNextJob(q, w, locked);
    ghost var last := if claimed.Some? then Claim(w, tid, claimed.value, locked) else PollGiveUp(w);
    if claimed.Some? {
      ClaimNext(admitted, w, q, tid, claimed.value, locked);
    } else {
      GiveUpNext(admitted, w);
    }
    RunSnoc(s, [pause] + [count], last);
    acts := [pause] + [count] + [last];
  }

  lemma {:induction false} SizeAfterInsert<K, V>(m: map<K, V>, k: K, v: V)
    requires k !in m
    ensures |m[k := v]| == |m| + 1
  {
    assert m[k := v].Keys == m.Keys + {k};
  }

  /** One queue's turn of a tick: nothing happens unless a job can be claimed, and then the best
      one that nobody locks is, for a new task of the worker. */
  ghost predicate Turn(before: State, after: State, w: WorkerId, q: QueueId, locked: set<JobId>) {
    if q in before.db.queues && !before.db.queues[q].paused
       && |RunningJobs(before.db, q)| < before.db.queues[q].limit
       && exists j | j in before.db.jobs && j !in locked :: Eligible(before.db, q, j)
    then exists j, t | j in before.db.jobs && t in after.tasks ::
           Claimable(before.db, q, locked, j) && Claims(before, after, w, j, t)
    else after.db == before.db && after.tasks == before.tasks
  }

  predicate Claims(before: State, after: State, w: WorkerId, j: JobId, t: TaskId)
    requires j in before.db.jobs
  {
    && after.db == ClaimDb(before.db, w, j) && t !in before.tasks
    && var row := ClaimRow(before.db.jobs[j], w, before.db.now);
       after.tasks == before.tasks[t := Task(w, j, row, before.db.now, Spawned)]
  }

  /** One tick of the poller over its queues, one turn each. The shared counter of active jobs
      is raised once for every task that the tick spawns. */
  method PollTick(store: Store, ghost s: State, w: WorkerId, queueIds: seq<QueueId>, locked: seq<set<JobId>>,
                  active: int, ghost base: TaskId)
    returns (nowActive: int, ghost turns: seq<State>)
    requires |locked| == |queueIds|
    requires s.db == store.Contents() && PollOf(s, w).Idle? && forall t | t in s.tasks :: t < base
    modifies store
    ensures |turns| == |queueIds| + 1 && turns[0] == s && turns[|queueIds|].db == store.Contents()
    ensures forall i | 0 <= i < |queueIds| :: Turn(turns[i], turns[i + 1], w, queueIds[i], locked[i])
    ensures nowActive - active == |turns[|queueIds|].tasks| - |s.tasks|
  {
    nowActive, turns := active, [s];
    for i := 0 to |queueIds|
      invariant |turns| == i + 1 && turns[0] == s && turns[i].db == store.Contents() && PollOf(turns[i], w).Idle?
      invariant forall k | 0 <= k < i :: Turn(turns[k], turns[k + 1], w, queueIds[k], locked[k])
      invariant nowActive - active == |turns[i].tasks| - |s.tasks|
      invariant forall t | t in turns[i].tasks :: t < base + i
    {
      var claimed;
      ghost var after;
      claimed, after := PollTurn(store, turns[i], w, queueIds[i], locked[i], base + i);
      if claimed {
        nowActive := nowActive + 1;
      }
      turns := turns + [after];
    }
  }

  method PollTurn(store: Store, ghost s: State, w: WorkerId, q: QueueId, locked: set<JobId>, ghost tid: TaskId)
    returns (claimed: bool, ghost after: State)
    requires s.db == store.Contents() && PollOf(s, w).Idle? && forall t | t in s.tasks :: t < tid
    modifies store
    ensures after.db == store.Contents() && PollOf(after, w).Idle? && Turn(s, after, w, q, locked)
    ensures |after.tasks| == |s.tasks| + (if claimed then 1 else 0)
    ensures forall t | t in after.tasks :: t < tid + 1
  {
    var job;
    ghost var acts;
    job, acts := PollQueue(store, s, w, q, tid, locked);
    claimed, after := job.Some?, Run(s, acts);
    hide Run, Next, Claimable, ClaimDb, Eligible, RunningJobs;
    if claimed {
      SizeAfterInsert(s.tasks, tid, after.tasks[tid]);
      assert Claims(s, after, w, job.value, tid);
    }
  }
}
