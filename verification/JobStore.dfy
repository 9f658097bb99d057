/** The database as an object: the repository's statements and the services' and executor's
    transactions as methods that update the tables in place. Each method's contract is the
    step of the protocol that it performs. */
module JobStore {
  import opened Domain
  import opened Backoff
  import opened Protocol

  datatype Role = Admin | Member | Viewer

  datatype JobServiceError = QueueNotFound | QueuePaused | Forbidden | InvalidCronExpression | UniqueViolation

  datatype DlqServiceError = DlqEntryNotFound | AlreadyRetried | DlqForbidden | JobNotFound | DlqDatabase

  datatype QueueServiceError = NoSuchQueue | QueueForbidden

  datatype RecurringError = NotRecurring | InvalidCron | NoFutureOccurrence | RowMissing

  /** What happens to COMMIT: acknowledged, or the connection is lost after or before it ran. */
  datatype CommitFate = Acknowledged | LostAfter | LostBefore

  // ---------------------------------------------------------------- rows, column by column

  /** The row of a new submission. */
  predicate AsRequested(row: Job, q: QueueId, queue: Queue, r: JobRequest, now: Time) {
    && row.queue == q && row.jobType == r.jobType && row.createdAt == now && row.attempts == 0
    && row.priority == (match r.priority case Some(p) => p case None => Normal)
    && row.maxAttempts == (match r.maxAttempts case Some(n) => n case None => 3)
    && row.policy == (match r.policy case Some(p) => Some(p) case None => queue.policy)
    && row.cron == r.cron && row.idempotencyKey == r.idempotencyKey
    && (r.jobType == Delayed || r.jobType == AtTime ==> row.status == Scheduled && row.scheduledAt == r.scheduledAt)
    && (r.jobType != Delayed && r.jobType != AtTime ==> row.status == Queued && row.scheduledAt == None)
    && row.nextAttemptAt == None && row.worker == None && row.claimedAt == None && row.prev == None
  }

  /** The row of an occurrence that follows job p at the given time. */
  predicate AsOccurrence(row: Job, p: JobId, parent: Job, at: Time, now: Time) {
    && row.queue == parent.queue && row.jobType == parent.jobType && row.priority == parent.priority
    && row.cron == parent.cron && row.maxAttempts == parent.maxAttempts && row.policy == parent.policy
    && row.status == Scheduled && row.scheduledAt == Some(at) && row.createdAt == now && row.attempts == 0
    && row.idempotencyKey == None && row.nextAttemptAt == None && row.worker == None && row.claimedAt == None
    && row.prev == Some(p)
  }

  /** The row that a finished attempt leaves in job_executions. */
  function ExecutionRow(t: Task, finishedAt: Time, ok: bool, delay: Option<int>, decidedAt: Time): Execution
    requires t.phase.Started?
  {
    Execution(t.job, t.worker, t.snap.attempts + 1, t.phase.startedAt, finishedAt, ok, delay, decidedAt)
  }

  /** The job is queued in q and its scheduled time, if it has one, has passed. */
  predicate WaitsIn(jobs: map<JobId, Job>, q: QueueId, now: Time, j: JobId) {
    && j in jobs && jobs[j].status == Queued && jobs[j].queue == q
    && (jobs[j].scheduledAt.None? || jobs[j].scheduledAt.value <= now)
  }

  /** The manual retry of entry e is a check and a commit, which takes effect or not. */
  ghost predicate RetriesEntry(before: Db, e: nat, applied: bool, after: Db) {
    forall s: State | s.db == before ::
      Next(Next(s, RetryCheck(e)), RetryCommit(e, applied)) == s.(db := after)
  }

  lemma {:induction false} PromoteIsStep(db: Db)
    ensures IsStep(db, Promote, PromoteDb(db))
  {
  }

  lemma {:induction false} RecoverIsStep(db: Db)
    ensures IsStep(db, Recover, RecoverDb(db))
  {
  }

  lemma {:induction false} RetryIsStep(db: Db, e: nat)
    requires e < |db.dlq| && !db.dlq[e].retried && db.dlq[e].job in db.jobs
    ensures RetriesEntry(db, e, true, ManualRetryDb(db, e)) && RetriesEntry(db, e, false, db)
  {
    forall s: State | s.db == db
      ensures Next(Next(s, RetryCheck(e)), RetryCommit(e, true)) == s.(db := ManualRetryDb(db, e))
      ensures Next(Next(s, RetryCheck(e)), RetryCommit(e, false)) == s
    {
      var checked := s.(retrying := s.retrying + multiset{e});
      assert Next(s, RetryCheck(e)) == checked;
      assert s.retrying + multiset{e} - multiset{e} == s.retrying;
      RetryCommitNext(checked, e);
    }
  }

  /** The due time is the back-off's, or else the scheduled one. */
  function Promoted(row: Job, now: Time): Job {
    var due := if row.nextAttemptAt.Some? then row.nextAttemptAt else row.scheduledAt;
    if row.status == Scheduled && due.Some? && due.value <= now then row.(status := Queued) else row
  }

  /** The row after recovery, which requeues what is claimed or running for a worker without a
      heartbeat in the last sixty seconds. */
  function Recovered(row: Job, lastSeen: map<WorkerId, Time>, now: Time, tally: Tally): Job {
    if (row.status == Claimed || row.status == Running) && row.worker.Some?
       && (row.worker.value !in lastSeen || now - lastSeen[row.worker.value] > 60_000_000)
    then row.(status := Queued, worker := None, claimedAt := None, tally := tally) else row
  }

  predicate AllPromoted(before: map<JobId, Job>, after: map<JobId, Job>, now: Time) {
    after.Keys == before.Keys && forall j | j in before :: after[j] == Promoted(before[j], now)
  }

  predicate AllRecovered(before: map<JobId, Job>, after: map<JobId, Job>, lastSeen: map<WorkerId, Time>, now: Time) {
    && after.Keys == before.Keys
    && forall j | j in before :: after[j] == Recovered(before[j], lastSeen, now, after[j].tally)
  }

  lemma {:induction false} PromotesTo(db: Db, after: map<JobId, Job>)
    requires AllPromoted(db.jobs, after, db.now)
    ensures db.(jobs := after) == PromoteDb(db) && IsStep(db, Promote, db.(jobs := after))
  {
    assert PromoteDb(db).jobs == after;
    PromoteIsStep(db);
  }

  lemma {:induction false} RecoveredRow(db: Db, row: Job)
    ensures RecoverRow(db, row) == Recovered(row, db.lastSeen, db.now, RecoverRow(db, row).tally)
  {
  }

  lemma {:induction false} RequeuedRow(db: Db, row: Job)
    ensures RecoverRow(db, row) ==
      if row.Held() && row.worker.Some?
         && (row.worker.value !in db.lastSeen || db.now - db.lastSeen[row.worker.value] > Seconds(STALE_THRESHOLD))
      then row.(status := Queued, worker := None, claimedAt := None,
                tally := row.tally.(recoveries := row.tally.recoveries + 1))
      else row
  {
  }

  lemma {:induction false} RecoversTo(db: Db, after: map<JobId, Job>)
    requires after.Keys == db.jobs.Keys && forall j | j in after :: after[j] == RecoverRow(db, db.jobs[j])
    ensures AllRecovered(db.jobs, after, db.lastSeen, db.now)
    ensures db.(jobs := after) == RecoverDb(db) && IsStep(db, Recover, db.(jobs := after))
  {
    assert RecoverDb(db).jobs == after;
    RecoverIsStep(db);
    hide RecoverRow, Recovered, IsStep, RecoverDb;
    forall j | j in after ensures after[j] == Recovered(db.jobs[j], db.lastSeen, db.now, after[j].tally) {
      RecoveredRow(db, db.jobs[j]);
    }
  }

  /** Only this row is written. */
  predicate OnlyRow(before: map<JobId, Job>, after: map<JobId, Job>, id: JobId) {
    id in after && after == before[id := after[id]]
  }

  predicate KeyTaken(jobs: map<JobId, Job>, q: QueueId, key: Option<string>) {
    key.Some? && exists j | j in jobs :: jobs[j].queue == q && jobs[j].idempotencyKey == key
  }

  class Store {
    var now: Time
    var queues: map<QueueId, Queue>
    var policies: map<PolicyId, RetryPolicy>
    var jobs: map<JobId, Job>
    var executions: seq<Execution>
    var dlq: seq<DlqEntry>
    var outbox: seq<Event>
    var lastSeen: map<WorkerId, Time>

    function Contents(): Db
      reads this
    {
      Db(now, queues, policies, jobs, executions, dlq, outbox, lastSeen)
    }

    method Sleep(duration: nat)
      modifies this`now
      ensures Contents() == old(Contents()).(now := old(now) + duration)
      ensures IsStep(old(Contents()), Advance(old(now) + duration), Contents())
    {
      now := now + duration;
    }

    // -------------------------------------------------------------- job service

    method FindByIdempotencyKey(key: string, q: QueueId) returns (found: Option<JobId>)
      ensures found.None? <==> KeyFree(Contents(), q, Some(key))
      ensures found.None? <==> !KeyTaken(jobs, q, Some(key))
      ensures found.Some? ==>
        found.value in jobs && jobs[found.value].queue == q && jobs[found.value].idempotencyKey == Some(key)
    {
      found := None;
      if j :| j in jobs && jobs[j].queue == q && jobs[j].idempotencyKey == Some(key) {
        found := Some(j);
      }
    }

    /** The INSERT under UNIQUE (queue_id, idempotency_key). */
    method InsertJob(id: JobId, q: QueueId, r: JobRequest) returns (res: Result<JobId, JobServiceError>)
      requires id !in jobs && q in queues
      modifies this`jobs
      ensures res == if old(KeyFree(Contents(), q, r.idempotencyKey)) then Success(id) else Failure(UniqueViolation)
      ensures Contents() ==
        if res.Success? then PutRow(old(Contents()), id, NewJob(q, queues[q], r, now)) else old(Contents())
      ensures res.Success? <==> !KeyTaken(old(jobs), q, r.idempotencyKey)
      ensures res.Success? ==> OnlyRow(old(jobs), jobs, id) && AsRequested(jobs[id], q, queues[q], r, now)
      ensures res.Success? ==> IsStep(old(Contents()), Create(id, q, r), Contents())
    {
      if r.idempotencyKey.Some? {
        var taken := FindByIdempotencyKey(r.idempotencyKey.value, q);
        if taken.Some? {
          return Failure(UniqueViolation);
        }
      }
      jobs := jobs[id := NewJob(q, queues[q], r, now)];
      return Success(id);
    }

    /** Submission: an existing job with the key wins over every other check. */
    method CreateJob(id: JobId, q: QueueId, role: Option<Role>, r: JobRequest, cronParses: bool)
      returns (res: Result<JobId, JobServiceError>)
      requires id !in jobs
      modifies this`jobs
      ensures KeyTaken(old(jobs), q, r.idempotencyKey) ==>
        && res.Success? && res.value in old(jobs)
        && old(jobs)[res.value].queue == q && old(jobs)[res.value].idempotencyKey == r.idempotencyKey
        && Contents() == old(Contents())
      ensures !KeyTaken(old(jobs), q, r.idempotencyKey) ==>
        && res == (if q !in queues then Failure(QueueNotFound)
                   else if queues[q].paused then Failure(QueuePaused)
                   else if role.None? || role.value == Viewer then Failure(Forbidden)
                   else if r.jobType == Recurring && r.cron.Some? && !cronParses then Failure(InvalidCronExpression)
                   else Success(id))
        && Contents() ==
             if res.Success? then PutRow(old(Contents()), id, NewJob(q, queues[q], r, now)) else old(Contents())
      ensures res == Success(id) ==> OnlyRow(old(jobs), jobs, id) && AsRequested(jobs[id], q, queues[q], r, now)
    {
      if r.idempotencyKey.Some? {
        var existing := FindByIdempotencyKey(r.idempotencyKey.value, q);
        if existing.Some? {
          return Success(existing.value);
        }
      }
      if q !in queues {
        return Failure(QueueNotFound);
      }
      if queues[q].paused {
        return Failure(QueuePaused);
      }
      if role.None? || role.value == Viewer {
        return Failure(Forbidden);
      }
      if r.jobType == Recurring && r.cron.Some? && !cronParses {
        return Failure(InvalidCronExpression);
      }
      res := InsertJob(id, q, r);
    }

    method CancelJob(id: JobId, role: Option<Role>) returns (res: Result<(), JobServiceError>)
      modifies this`jobs
      ensures res == if id !in old(jobs) then Failure(QueueNotFound)
                     else if role.None? || role.value == Viewer then Failure(Forbidden) else Success(())
      ensures res.Failure? ==> Contents() == old(Contents())
      ensures res.Success? ==> Contents() == PutRow(old(Contents()), id, CancelRow(old(jobs)[id]))
      ensures res.Success? ==> IsStep(old(Contents()), Cancel(id), Contents())
      ensures res.Success? && old(jobs)[id].status in {Pending, Queued, Scheduled} ==>
        jobs == old(jobs)[id := old(jobs)[id].(status := Failed)]
      ensures res.Success? && old(jobs)[id].status !in {Pending, Queued, Scheduled} ==> jobs == old(jobs)
    {
      if id !in jobs {
        return Failure(QueueNotFound);
      }
      if role.None? || role.value == Viewer {
        return Failure(Forbidden);
      }
      if Cancellable(jobs[id]) {
        jobs := jobs[id := jobs[id].(status := Failed)];
      }
      assert jobs == old(jobs)[id := CancelRow(old(jobs)[id])];
      return Success(());
    }

    // -------------------------------------------------------------- queue service

    /** Pausing and resuming a queue. */
    method SetPaused(q: QueueId, role: Option<Role>, paused: bool) returns (res: Result<(), QueueServiceError>)
      modifies this`queues
      ensures res == if q !in old(queues) then Failure(NoSuchQueue)
                     else if role.None? || role.value == Viewer then Failure(QueueForbidden) else Success(())
      ensures res.Failure? ==> queues == old(queues)
      ensures res.Success? ==>
        && queues == old(queues)[q := old(queues)[q].(paused := paused)]
        && IsStep(old(Contents()), Action.SetPaused(q, paused), Contents())
    {
      if q !in queues {
        return Failure(NoSuchQueue);
      }
      if role.None? || role.value == Viewer {
        return Failure(QueueForbidden);
      }
      queues := queues[q := queues[q].(paused := paused)];
      return Success(());
    }

    // -------------------------------------------------------------- job repository

    /** The claim: the subquery's ORDER BY and LIMIT 1 over the rows nobody else locks, then
        the UPDATE of that row. */
    method ClaimNextJob(q: QueueId, w: WorkerId, locked: set<JobId>) returns (claimed: Option<JobId>)
      modifies this`jobs
      ensures claimed.None? ==>
        && Contents() == old(Contents())
        && forall k | k in jobs && k !in locked :: !Eligible(Contents(), q, k)
      ensures claimed.Some? ==>
        && Claimable(old(Contents()), q, locked, claimed.value)
        && Contents() == ClaimDb(old(Contents()), w, claimed.value)
      ensures claimed.Some? ==>
        && claimed.value !in locked && WaitsIn(old(jobs), q, now, claimed.value)
        && OnlyRow(old(jobs), jobs, claimed.value)
        && var row := old(jobs)[claimed.value];
           jobs[claimed.value] == row.(status := Claimed, worker := Some(w), claimedAt := Some(now),
                                       tally := jobs[claimed.value].tally)
      ensures forall k | k in old(jobs) && k !in locked && WaitsIn(old(jobs), q, now, k) ::
        claimed.Some? && !Ahead(old(jobs)[k], old(jobs)[claimed.value])
    {
      claimed := None;
      var unseen := jobs.Keys;
      while unseen != {}
        invariant unseen <= jobs.Keys
        invariant claimed.Some? ==> Eligible(Contents(), q, claimed.value) && claimed.value !in locked
        invariant forall k | k in jobs && k !in unseen && k !in locked && Eligible(Contents(), q, k) ::
                    claimed.Some? && !Before(jobs[k], jobs[claimed.value])
        decreases unseen
      {
        var k :| k in unseen;
        unseen := unseen - {k};
        if k !in locked && Eligible(Contents(), q, k) && (claimed.None? || Before(jobs[k], jobs[claimed.value])) {
          claimed := Some(k);
        }
      }
      if claimed.Some? {
        jobs := jobs[claimed.value := ClaimRow(jobs[claimed.value], w, now)];
      }
    }

    /** UPDATE of every due scheduled row; returns the number of rows affected. */
    method ReQueueScheduledJobs() returns (n: nat)
      modifies this`jobs
      ensures AllPromoted(old(jobs), jobs, now)
      ensures n == |set j | j in jobs && jobs[j] != old(jobs)[j]|
      ensures Contents() == PromoteDb(old(Contents())) && IsStep(old(Contents()), Promote, Contents())
    {
      hide IsStep, PromoteDb;
      n := 0;
      var unseen := jobs.Keys;
      ghost var before := jobs;
      ghost var hit: set<JobId> := {};
      while unseen != {}
        invariant unseen <= jobs.Keys == before.Keys
        invariant forall j | j in jobs :: jobs[j] == if j in unseen then before[j] else Promoted(before[j], now)
        invariant forall j :: j in hit <==> j in jobs && jobs[j] != before[j]
        invariant n == |hit|
        decreases unseen
      {
        var k :| k in unseen;
        unseen := unseen - {k};
        var row := jobs[k];
        if Due(row, now) {
          jobs := jobs[k := row.(status := Queued)];
          n := n + 1;
          hit := hit + {k};
        }
      }
      assert hit == set j | j in jobs && jobs[j] != before[j];
      PromotesTo(old(Contents()), jobs);
    }

    /** UPDATE of every row held by a stale worker; returns the number of rows affected. */
    method RecoverStaleJobs() returns (n: nat)
      modifies this`jobs
      ensures AllRecovered(old(jobs), jobs, lastSeen, now)
      ensures n == |set j | j in jobs && jobs[j] != old(jobs)[j]|
      ensures Contents() == RecoverDb(old(Contents())) && IsStep(old(Contents()), Recover, Contents())
    {
      hide IsStep, RecoverDb, AllRecovered, RecoverRow;
      n := 0;
      var unseen := jobs.Keys;
      ghost var db := Contents();
      ghost var hit: set<JobId> := {};
      while unseen != {}
        invariant unseen <= jobs.Keys == db.jobs.Keys
        invariant forall j | j in jobs :: jobs[j] == if j in unseen then db.jobs[j] else RecoverRow(db, db.jobs[j])
        invariant forall j :: j in hit <==> j in jobs && jobs[j] != db.jobs[j]
        invariant n == |hit|
        decreases unseen
      {
        var k :| k in unseen;
        unseen := unseen - {k};
        var row := jobs[k];
        var orphaned := row.Held() && row.worker.Some?
          && (row.worker.value !in lastSeen || now - lastSeen[row.worker.value] > Seconds(STALE_THRESHOLD));
        var requeued := row.(status := Queued, worker := None, claimedAt := None,
                             tally := row.tally.(recoveries := row.tally.recoveries + 1));
        RequeuedRow(db, row);
        if orphaned {
          jobs := jobs[k := requeued];
          n := n + 1;
          hit := hit + {k};
        }
      }
      assert hit == set j | j in jobs && jobs[j] != db.jobs[j];
      RecoversTo(db, jobs);
    }

    /** Rows of the queue that are running. */
    method CountRunningJobs(q: QueueId) returns (n: nat)
      ensures n == |RunningJobs(Contents(), q)|
      ensures n == |set j | j in jobs && jobs[j].queue == q && jobs[j].status == Running|
    {
      var running := set j | j in jobs && jobs[j].queue == q && jobs[j].status == Running;
      assert running == RunningJobs(Contents(), q);
      n := |running|;
    }

    method UpsertHeartbeat(w: WorkerId)
      modifies this`lastSeen
      ensures Contents() == old(Contents()).(lastSeen := old(lastSeen)[w := now])
      ensures IsStep(old(Contents()), Heartbeat(w), Contents())
    {
      lastSeen := lastSeen[w := now];
    }

    // -------------------------------------------------------------- dead-letter service

    /** Manual retry: checks, then one transaction of two statements; BEGIN or a statement that fails
        drops the transaction, and the answer to COMMIT may be lost. */
    method RetryJob(e: nat, role: Option<Role>, ok: seq<bool>, fate: CommitFate)
      returns (res: Result<(), DlqServiceError>)
      requires |ok| == 3
      modifies this`jobs, this`dlq
      ensures res == if e >= |old(dlq)| then Failure(DlqEntryNotFound)
                     else if old(dlq)[e].retried then Failure(AlreadyRetried)
                     else if role.None? || role.value == Viewer then Failure(DlqForbidden)
                     else if !ok[0] || !ok[1] then Failure(DlqDatabase)
                     else if old(dlq)[e].job !in old(jobs) then Failure(JobNotFound)
                     else if !ok[2] || fate != Acknowledged then Failure(DlqDatabase)
                     else Success(())
      ensures res.Failure? && (res != Failure(DlqDatabase) || ok != [true, true, true] || fate == LostBefore) ==>
        Contents() == old(Contents())
      ensures res.Success? || (res == Failure(DlqDatabase) && ok == [true, true, true] && fate == LostAfter) ==>
        && Contents() == ManualRetryDb(old(Contents()), e) && RetriesEntry(old(Contents()), e, true, Contents())
        && var j := old(dlq)[e].job; var row := old(jobs)[j];
        && dlq == old(dlq)[e := old(dlq)[e].(retried := true)]
        && OnlyRow(old(jobs), jobs, j)
        && jobs[j] == row.(status := Queued, worker := None, claimedAt := None, nextAttemptAt := None,
                           tally := jobs[j].tally)
      ensures res == Failure(DlqDatabase) && old(dlq)[e].job in old(jobs) && Contents() == old(Contents()) ==>
        RetriesEntry(old(Contents()), e, false, Contents())
    {
      hide RetriesEntry;
      if e >= |dlq| {
        return Failure(DlqEntryNotFound);
      }
      if dlq[e].retried {
        return Failure(AlreadyRetried);
      }
      if role.None? || role.value == Viewer {
        return Failure(DlqForbidden);
      }
      var j := dlq[e].job;
      if j in jobs {
        RetryIsStep(Contents(), e);
      }
      if !ok[0] || !ok[1] {
        return Failure(DlqDatabase);
      }
      if j !in jobs {
        return Failure(JobNotFound);
      }
      if !ok[2] || fate == LostBefore {
        return Failure(DlqDatabase);
      }
      var row := jobs[j];
      jobs := jobs[j := row.(status := Queued, worker := None, claimedAt := None, nextAttemptAt := None,
                             tally := row.tally.(manualRetries := row.tally.manualRetries + 1))];
      dlq := dlq[e := dlq[e].(retried := true)];
      return if fate == Acknowledged then Success(()) else Failure(DlqDatabase);
    }

    // -------------------------------------------------------------- recurring jobs

    /** next: the first time the cron expression names after now, if it parses and has one. */
    method ScheduleNextOccurrence(job: JobId, snap: Job, id: JobId, cronParses: bool, next: Option<Time>)
      returns (res: Result<JobId, RecurringError>)
      requires id !in jobs
      modifies this`jobs
      ensures res == if snap.jobType != Recurring || snap.cron.None? then Failure(NotRecurring)
                     else if !cronParses then Failure(InvalidCron)
                     else if next.None? then Failure(NoFutureOccurrence)
                     else if job !in old(jobs) then Failure(RowMissing)
                     else Success(id)
      ensures res.Failure? ==> Contents() == old(Contents())
      ensures res.Success? ==>
        Contents() == PutRow(old(Contents()), id, NextOccurrence(job, old(jobs)[job], next.value, now))
      ensures res.Success? ==>
        OnlyRow(old(jobs), jobs, id) && AsOccurrence(jobs[id], job, old(jobs)[job], next.value, now)
    {
      if !snap.IsRecurring() {
        return Failure(NotRecurring);
      }
      if !cronParses {
        return Failure(InvalidCron);
      }
      if next.None? {
        return Failure(NoFutureOccurrence);
      }
      if job !in jobs {
        return Failure(RowMissing);
      }
      jobs := jobs[id := NextOccurrence(job, jobs[job], next.value, now)];
      return Success(id);
    }

    // -------------------------------------------------------------- executor

    method MarkRunning(id: JobId)
      modifies this`jobs
      ensures id in old(jobs) ==> Contents() == PutRow(old(Contents()), id, RunRow(old(jobs)[id]))
      ensures id !in old(jobs) ==> Contents() == old(Contents())
      ensures id in old(jobs) ==> jobs == old(jobs)[id := old(jobs)[id].(status := Running)]
    {
      if id in jobs {
        jobs := jobs[id := jobs[id].(status := Running)];
      }
    }

    /** The success transaction. Each statement may fail; its error is dropped, but the server
        then ignores the statements that follow and turns COMMIT into ROLLBACK, which it
        acknowledges like a commit. */
    method SuccessTransaction(t: Task, finishedAt: Time, ok: seq<bool>, fate: CommitFate) returns (outcome: Outcome)
      requires t.phase.Started? && t.job in jobs && |ok| == 3
      modifies this`jobs, this`executions, this`outbox
      ensures outcome.Committed? <==> ok == [true, true, true] && fate != LostBefore
      ensures outcome.reported <==> fate == Acknowledged
      ensures Contents() == if outcome.Committed? then CompleteDb(old(Contents()), t, finishedAt) else old(Contents())
      ensures outcome.Committed? ==>
        && jobs == old(jobs)[t.job := old(jobs)[t.job].(status := Completed, worker := None)]
        && executions == old(executions) + [ExecutionRow(t, finishedAt, true, None, finishedAt)]
        && outbox == old(outbox) + [Event(JobCompleted, t.job)]
    {
      var stagedJobs, stagedExecutions, stagedOutbox := jobs, executions, outbox;
      var aborted := false;

      aborted := aborted || !ok[0];
      if !aborted {
        stagedJobs := stagedJobs[t.job := stagedJobs[t.job].(status := Completed, worker := None)];
      }
      aborted := aborted || !ok[1];
      if !aborted {
        stagedExecutions := stagedExecutions +
          [Execution(t.job, t.worker, t.snap.attempts + 1, t.phase.startedAt, finishedAt, true, None, finishedAt)];
      }
      aborted := aborted || !ok[2];
      if !aborted {
        stagedOutbox := stagedOutbox + [Event(JobCompleted, t.job)];
      }
      if aborted || fate == LostBefore {
        return RolledBack(fate == Acknowledged);
      }
      jobs, executions, outbox := stagedJobs, stagedExecutions, stagedOutbox;
      return Committed(fate == Acknowledged);
    }

    /** The failure transaction: an execution row and then either the dead-letter statements or
        the retry statements, with the delay computed outside the transaction. */
    method FailureTransaction(t: Task, finishedAt: Time, decidedAt: Time, delay: int, ok: seq<bool>, fate: CommitFate)
      returns (outcome: Outcome)
      requires t.phase.Started? && t.job in jobs && |ok| == 4
      modifies this`jobs, this`executions, this`dlq, this`outbox
      ensures outcome.Committed? <==> ok[0] && ok[1] && (DeadLettered(t) ==> ok[2]) && ok[3] && fate != LostBefore
      ensures outcome.reported <==> fate == Acknowledged
      ensures Contents() ==
        if outcome.Committed? then FailDb(old(Contents()), t, finishedAt, decidedAt, delay) else old(Contents())
      ensures outcome.Committed? && t.snap.attempts + 1 >= t.snap.maxAttempts ==>
        && jobs == old(jobs)[t.job := old(jobs)[t.job].(
             status := Failed, attempts := t.snap.attempts + 1, worker := None)]
        && executions == old(executions) + [ExecutionRow(t, finishedAt, false, None, finishedAt)]
        && dlq == old(dlq) + [DlqEntry(t.job, t.snap.attempts + 1, false)]
        && outbox == old(outbox) + [Event(JobMovedToDlq, t.job)]
      ensures outcome.Committed? && t.snap.attempts + 1 < t.snap.maxAttempts ==>
        && jobs == old(jobs)[t.job := old(jobs)[t.job].(
             status := Scheduled, attempts := t.snap.attempts + 1, worker := None,
             nextAttemptAt := Some(decidedAt + delay * 1_000_000))]
        && executions == old(executions) + [ExecutionRow(t, finishedAt, false, Some(delay), decidedAt)]
        && dlq == old(dlq)
        && outbox == old(outbox) + [Event(JobRetryScheduled, t.job)]
    {
      var stagedJobs, stagedExecutions, stagedDlq, stagedOutbox := jobs, executions, dlq, outbox;
      var aborted := false;
      var attempt := t.snap.attempts + 1;
      var shouldDlq := attempt >= t.snap.maxAttempts;

      aborted := aborted || !ok[0];
      if !aborted {
        stagedExecutions := stagedExecutions +
          [Execution(t.job, t.worker, attempt, t.phase.startedAt, finishedAt, false,
                     if shouldDlq then None else Some(delay), if shouldDlq then finishedAt else decidedAt)];
      }
      aborted := aborted || !ok[1];
      if shouldDlq {
        if !aborted {
          stagedJobs := stagedJobs[t.job := stagedJobs[t.job].(status := Failed, attempts := attempt, worker := None)];
        }
        aborted := aborted || !ok[2];
        if !aborted {
          stagedDlq := stagedDlq + [DlqEntry(t.job, attempt, false)];
        }
      } else if !aborted {
        stagedJobs := stagedJobs[t.job := stagedJobs[t.job].(
          status := Scheduled, nextAttemptAt := Some(decidedAt + Seconds(delay)), attempts := attempt, worker := None)];
      }
      aborted := aborted || !ok[3];
      if !aborted {
        stagedOutbox := stagedOutbox + [Event(if shouldDlq then JobMovedToDlq else JobRetryScheduled, t.job)];
      }
      if aborted || fate == LostBefore {
        return RolledBack(fate == Acknowledged);
      }
      jobs, executions, dlq, outbox := stagedJobs, stagedExecutions, stagedDlq, stagedOutbox;
      return Committed(fate == Acknowledged);
    }
  }
}
