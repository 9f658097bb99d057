/** What one step of the protocol does to one job, seen through everything the tables
    hold about it. The invariants are proved about these effects, and StepEffect ties
    every step of the protocol to them. */
module Effects {
  import opened Domain
  import opened Tables
  import opened Protocol

  /** All that the database knows of one job: its row, its execution rows and dead-letter
      entries in insertion order, and how many events of each kind name it. */
  datatype JobView = JobView(
    row: Job, rows: seq<Execution>, dead: seq<DlqEntry>, completed: nat, retried: nat, moved: nat)

  function View(db: Db, j: JobId): JobView
    requires j in db.jobs
  {
    JobView(db.jobs[j], ExecutionsOf(db.executions, j), DlqOf(db.dlq, j),
            CountEvents(db.outbox, Event(JobCompleted, j)),
            CountEvents(db.outbox, Event(JobRetryScheduled, j)),
            CountEvents(db.outbox, Event(JobMovedToDlq, j)))
  }

  datatype Effect =
    | Keep
    | ClaimBy(worker: WorkerId)
    | Mark
    | Complete(e: Execution)
    | Bury(e: Execution)
    | Reschedule(e: Execution, nextAt: Time)
    | Requeue
    | PromoteJob
    | CancelJob
    | Revive(rank: nat)

  /** The execution row that a finishing task writes. */
  function Attempt(t: Task, finishedAt: Time, success: bool, delay: Option<int>, decidedAt: Time): Execution
    requires t.phase.Started?
  {
    Execution(t.job, t.worker, t.snap.attempts + 1, t.phase.startedAt, finishedAt, success, delay, decidedAt)
  }

  function EffectOn(s: State, a: Action, j: JobId): Effect {
    if !Enabled(s, a) then Keep else
    match a
    case Cancel(id) => if j == id && Cancellable(s.db.jobs[id]) then CancelJob else Keep
    case Claim(w, _, id, _) => if j == id then ClaimBy(w) else Keep
    case MarkRunning(t, _) => if j == s.tasks[t].job then Mark else Keep
    case Succeed(t, f, o) =>
      if j == s.tasks[t].job && o.Committed? then Complete(Attempt(s.tasks[t], f, true, None, f)) else Keep
    case Fail(t, f, at, _, d, o) =>
      if j != s.tasks[t].job || !o.Committed? then Keep
      else if DeadLettered(s.tasks[t]) then Bury(Attempt(s.tasks[t], f, false, None, f))
      else Reschedule(Attempt(s.tasks[t], f, false, Some(d), at), at + Seconds(d))
    case Promote => if j in s.db.jobs && Due(s.db.jobs[j], s.db.now) then PromoteJob else Keep
    case Recover => if j in s.db.jobs && Orphaned(s.db, s.db.jobs[j]) then Requeue else Keep
    case RetryCommit(e, applied) =>
      if applied && s.db.dlq[e].job == j then Revive(DlqRank(s.db.dlq, e)) else Keep
    case _ => Keep
  }

  /** The view after an effect; `now` is the clock of the step. */
  function After(v: JobView, eff: Effect, now: Time): JobView {
    match eff
    case Keep => v
    case ClaimBy(w) => v.(row := ClaimRow(v.row, w, now))
    case Mark => v.(row := RunRow(v.row))
    case Complete(e) => v.(row := CompleteRow(v.row), rows := v.rows + [e], completed := v.completed + 1)
    case Bury(e) =>
      v.(row := DeadRow(v.row, e.attempt), rows := v.rows + [e],
         dead := v.dead + [DlqEntry(e.job, e.attempt, false)], moved := v.moved + 1)
    case Reschedule(e, at) =>
      v.(row := RetryRow(v.row, e.attempt, at), rows := v.rows + [e], retried := v.retried + 1)
    case Requeue =>
      v.(row := v.row.(status := Queued, worker := None, claimedAt := None,
                       tally := v.row.tally.(recoveries := v.row.tally.recoveries + 1)))
    case PromoteJob => v.(row := v.row.(status := Queued))
    case CancelJob => v.(row := v.row.(status := Failed))
    case Revive(k) =>
      v.(row := ManualRow(v.row),
         dead := if k < |v.dead| then v.dead[k := v.dead[k].(retried := true)] else v.dead)
  }

  lemma {:induction false} AppendRows(db: Db, e: Execution, d: DlqEntry, f: Event)
    ensures forall j ::
      ExecutionsOf(db.executions + [e], j) == ExecutionsOf(db.executions, j) + (if e.job == j then [e] else [])
    ensures forall j :: DlqOf(db.dlq + [d], j) == DlqOf(db.dlq, j) + (if d.job == j then [d] else [])
    ensures forall g :: CountEvents(db.outbox + [f], g) == CountEvents(db.outbox, g) + (if f == g then 1 else 0)
  {
    AppendExecution(db.executions, e);
    AppendDlq(db.dlq, d);
    AppendEvent(db.outbox, f);
  }

  lemma {:induction false} DeadEffect(db: Db, t: Task, f: Time, j: JobId)
    requires t.job in db.jobs && t.phase.Started? && j in db.jobs
    ensures View(DeadDb(db, t, f), j)
         == After(View(db, j), if j == t.job then Bury(Attempt(t, f, false, None, f)) else Keep, db.now)
  {
    AppendRows(db, Attempt(t, f, false, None, f), DlqEntry(t.job, t.snap.attempts + 1, false),
               Event(JobMovedToDlq, t.job));
  }

  lemma {:induction false} RetryEffect(db: Db, t: Task, f: Time, at: Time, d: int, j: JobId)
    requires t.job in db.jobs && t.phase.Started? && j in db.jobs
    ensures View(RetryDb(db, t, f, at, d), j)
         == After(View(db, j),
                  if j == t.job then Reschedule(Attempt(t, f, false, Some(d), at), at + Seconds(d)) else Keep, db.now)
  {
    AppendRows(db, Attempt(t, f, false, Some(d), at), DlqEntry(t.job, 0, false), Event(JobRetryScheduled, t.job));
  }

  lemma {:induction false} CompleteEffect(db: Db, t: Task, f: Time, j: JobId)
    requires t.job in db.jobs && t.phase.Started? && j in db.jobs
    ensures View(CompleteDb(db, t, f), j)
         == After(View(db, j), if j == t.job then Complete(Attempt(t, f, true, None, f)) else Keep, db.now)
  {
    AppendRows(db, Attempt(t, f, true, None, f), DlqEntry(t.job, 0, false), Event(JobCompleted, t.job));
  }

  lemma {:induction false} ReviveEffect(db: Db, e: nat, j: JobId)
    requires e < |db.dlq| && db.dlq[e].job in db.jobs && j in db.jobs
    ensures View(ManualRetryDb(db, e), j)
         == After(View(db, j), if j == db.dlq[e].job then Revive(DlqRank(db.dlq, e)) else Keep, db.now)
  {
    DlqRankAt(db.dlq, e);
    UpdateDlq(db.dlq, e, db.dlq[e].(retried := true));
  }

  predicate WritesTables(a: Action) {
    a.Fail? || a.Succeed? || a.RetryCommit?
  }

  lemma {:induction false} QuietEffect(s: State, a: Action, j: JobId)
    requires j in s.db.jobs && Enabled(s, a) && !WritesTables(a)
    ensures j in Apply(s, a).db.jobs
    ensures Apply(s, a).db.jobs[j] == After(View(s.db, j), EffectOn(s, a, j), s.db.now).row
  {
  }

  lemma {:induction false} QuietTables(s: State, a: Action)
    requires Enabled(s, a) && !WritesTables(a)
    ensures var s' := Apply(s, a);
      s'.db.executions == s.db.executions && s'.db.dlq == s.db.dlq && s'.db.outbox == s.db.outbox
  {
  }

  lemma {:induction false} FailingEffect(
    s: State, t: TaskId, f: Time, at: Time, found: bool, d: int, o: Outcome, j: JobId)
    requires j in s.db.jobs && Enabled(s, Fail(t, f, at, found, d, o))
    ensures var a := Fail(t, f, at, found, d, o); var s' := Apply(s, a);
      j in s'.db.jobs && View(s'.db, j) == After(View(s.db, j), EffectOn(s, a, j), s.db.now)
  {
    var task := s.tasks[t];
    if o.Committed? {
      if DeadLettered(task) {
        DeadEffect(s.db, task, f, j);
      } else {
        RetryEffect(s.db, task, f, at, d, j);
      }
    }
  }

  lemma {:induction false} SucceedingEffect(s: State, t: TaskId, f: Time, o: Outcome, j: JobId)
    requires j in s.db.jobs && Enabled(s, Succeed(t, f, o))
    ensures var a := Succeed(t, f, o); var s' := Apply(s, a);
      j in s'.db.jobs && View(s'.db, j) == After(View(s.db, j), EffectOn(s, a, j), s.db.now)
  {
    if o.Committed? {
      CompleteEffect(s.db, s.tasks[t], f, j);
    }
  }

  lemma {:induction false} RetryingEffect(s: State, e: nat, applied: bool, j: JobId)
    requires j in s.db.jobs && Enabled(s, RetryCommit(e, applied))
    ensures var a := RetryCommit(e, applied); var s' := Apply(s, a);
      j in s'.db.jobs && View(s'.db, j) == After(View(s.db, j), EffectOn(s, a, j), s.db.now)
  {
    if applied {
      ReviveEffect(s.db, e, j);
    }
  }

  lemma {:induction false} QuietStep(s: State, a: Action, j: JobId)
    requires j in s.db.jobs && Enabled(s, a) && !WritesTables(a)
    ensures j in Apply(s, a).db.jobs
    ensures View(Apply(s, a).db, j) == After(View(s.db, j), EffectOn(s, a, j), s.db.now)
  {
    hide Apply;
    QuietTables(s, a);
    QuietEffect(s, a, j);
  }

  /** The refinement: a step changes what the tables say of an existing job exactly by its
      effect on that job. */
  lemma {:induction false} StepEffect(s: State, a: Action, j: JobId)
    requires j in s.db.jobs
    ensures j in Next(s, a).db.jobs
    ensures View(Next(s, a).db, j) == After(View(s.db, j), EffectOn(s, a, j), s.db.now)
  {
    hide Apply, View;
    if Enabled(s, a) {
      hide After, EffectOn, Enabled;
      match a
      case Fail(t, f, at, found, d, o) => FailingEffect(s, t, f, at, found, d, o, j);
      case Succeed(t, f, o) => SucceedingEffect(s, t, f, o, j);
      case RetryCommit(e, applied) => RetryingEffect(s, e, applied, j);
      case _ => QuietStep(s, a, j);
    }
  }

  /** No row of any table speaks of a job that does not exist. */
  predicate NoStrayRows(db: Db, j: JobId) {
    j in db.jobs ||
    (&& ExecutionsOf(db.executions, j) == [] && DlqOf(db.dlq, j) == []
     && CountEvents(db.outbox, Event(JobCompleted, j)) == 0
     && CountEvents(db.outbox, Event(JobRetryScheduled, j)) == 0
     && CountEvents(db.outbox, Event(JobMovedToDlq, j)) == 0)
  }

  /** The row of a job that a step brings into existence. */
  function NewRow(s: State, a: Action): Job
    requires Enabled(s, a) && (a.Create? || a.InsertNext?)
  {
    if a.Create? then NewJob(a.queue, s.db.queues[a.queue], a.request, s.db.now)
    else NextOccurrence(s.tasks[a.task].job, s.db.jobs[s.tasks[a.task].job], a.nextAt, s.db.now)
  }

  lemma {:induction false} FailingCreates(
    s: State, t: TaskId, f: Time, at: Time, found: bool, d: int, o: Outcome, j: JobId)
    requires j !in s.db.jobs && NoStrayRows(s.db, j) && Enabled(s, Fail(t, f, at, found, d, o))
    ensures var s' := Apply(s, Fail(t, f, at, found, d, o)); j !in s'.db.jobs && NoStrayRows(s'.db, j)
  {
    var task := s.tasks[t];
    var dead := DeadLettered(task);
    AppendRows(s.db, Attempt(task, f, false, if dead then None else Some(d), if dead then f else at),
               DlqEntry(task.job, task.snap.attempts + 1, false),
               Event(if dead then JobMovedToDlq else JobRetryScheduled, task.job));
  }

  lemma {:induction false} SucceedingCreates(s: State, t: TaskId, f: Time, o: Outcome, j: JobId)
    requires j !in s.db.jobs && NoStrayRows(s.db, j) && Enabled(s, Succeed(t, f, o))
    ensures var s' := Apply(s, Succeed(t, f, o)); j !in s'.db.jobs && NoStrayRows(s'.db, j)
  {
    var task := s.tasks[t];
    AppendRows(s.db, Attempt(task, f, true, None, f), DlqEntry(task.job, 0, false), Event(JobCompleted, task.job));
  }

  lemma {:induction false} RetryingCreates(s: State, e: nat, applied: bool, j: JobId)
    requires j !in s.db.jobs && NoStrayRows(s.db, j) && Enabled(s, RetryCommit(e, applied))
    ensures var s' := Apply(s, RetryCommit(e, applied)); j !in s'.db.jobs && NoStrayRows(s'.db, j)
  {
    UpdateDlq(s.db.dlq, e, s.db.dlq[e].(retried := true));
  }

  lemma {:induction false} QuietCreates(s: State, a: Action, j: JobId)
    requires j !in s.db.jobs && Enabled(s, a) && !WritesTables(a) && j in Apply(s, a).db.jobs
    ensures (a.Create? || a.InsertNext?) && a.id == j && Apply(s, a).db.jobs[j] == NewRow(s, a)
  {
  }

  lemma {:induction false} QuietCreation(s: State, a: Action, j: JobId)
    requires j !in s.db.jobs && NoStrayRows(s.db, j) && Enabled(s, a) && !WritesTables(a)
    ensures NoStrayRows(Apply(s, a).db, j)
    ensures j in Apply(s, a).db.jobs ==>
      (a.Create? || a.InsertNext?) && a.id == j && View(Apply(s, a).db, j) == JobView(NewRow(s, a), [], [], 0, 0, 0)
  {
    hide Apply, NewRow, Enabled;
    QuietTables(s, a);
    if j in Apply(s, a).db.jobs {
      QuietCreates(s, a, j);
    }
  }

  /** A job appears only by creation or as a next occurrence, with no history. */
  lemma {:induction false} StepCreates(s: State, a: Action, j: JobId)
    requires j !in s.db.jobs && NoStrayRows(s.db, j)
    ensures NoStrayRows(Next(s, a).db, j)
    ensures j in Next(s, a).db.jobs ==>
      && Enabled(s, a) && (a.Create? || a.InsertNext?) && a.id == j
      && View(Next(s, a).db, j) == JobView(NewRow(s, a), [], [], 0, 0, 0)
  {
    hide Apply, NewRow, View;
    if Enabled(s, a) {
      hide Enabled, NoStrayRows;
      match a
      case Fail(t, f, at, found, d, o) => FailingCreates(s, t, f, at, found, d, o, j);
      case Succeed(t, f, o) => SucceedingCreates(s, t, f, o, j);
      case RetryCommit(e, applied) => RetryingCreates(s, e, applied, j);
      case _ => QuietCreation(s, a, j);
    }
  }
}
