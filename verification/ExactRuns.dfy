/** The exact laws of fail-stop runs. */
module ExactRuns {
  import opened Domain
  import opened Backoff
  import opened Tables
  import opened Protocol
  import opened Effects
  import opened AllRuns

  // ---------------------------------------------------------------- laws of one job

  /** Execution rows are numbered 1..n; all but possibly the last failed; a success row
      exists iff the job is completed; attempt_count counts the failures. */
  predicate ExactHistory(v: JobView) {
    && (forall i | 0 <= i < |v.rows| :: v.rows[i].attempt == i + 1)
    && (forall i | 0 <= i < |v.rows| - 1 :: !v.rows[i].success)
    && (v.row.status == Completed <==> |v.rows| > 0 && v.rows[|v.rows| - 1].success)
    && v.row.attempts == |v.rows| - (if v.row.status == Completed then 1 else 0)
  }

  /** The k-th dead-letter entry records attempt DeadAt + k - 1, all entries but the last are
      retried, and an unretried entry means that the job is failed. */
  predicate DeadLetterLaw(v: JobView) {
    && |v.dead| == (if v.row.attempts < v.row.DeadAt() then 0 else v.row.attempts - v.row.DeadAt() + 1)
    && (forall k | 0 <= k < |v.dead| :: v.dead[k].attempts == v.row.DeadAt() + k)
    && (forall k | 0 <= k < |v.dead| - 1 :: v.dead[k].retried)
    && (|v.dead| > 0 && !v.dead[|v.dead| - 1].retried ==> v.row.status == Failed)
  }

  predicate HeldExactly(row: Job) {
    row.worker.Some? <==> row.Held()
  }

  /** A failure carries a delay iff it was not dead-lettered, and without a policy the delay is
      the default one. */
  predicate DelayRecorded(row: Job, e: Execution) {
    && e.started <= e.finished <= e.decidedAt
    && (e.retryDelay.Some? <==> !e.success && e.attempt < row.DeadAt())
    && (e.retryDelay.Some? && row.policy.None? ==> DefaultDelay(e.attempt) == e.retryDelay)
  }

  /** The back-off that follows row e is over at time t. */
  predicate BackedOff(e: Execution, t: Time) {
    e.retryDelay.Some? ==> e.finished + Seconds(e.retryDelay.value) <= t
  }

  /** The row waits exactly until the back-off that follows e is over. */
  predicate RetriesAt(row: Job, e: Execution) {
    e.retryDelay.Some? && row.nextAttemptAt == Some(e.decidedAt + Seconds(e.retryDelay.value))
  }

  predicate ReadyBy(rows: seq<Execution>, t: Time) {
    rows != [] ==> BackedOff(rows[|rows| - 1], t)
  }

  predicate Separated(v: JobView, now: Time) {
    && (forall i | 0 <= i < |v.rows| :: DelayRecorded(v.row, v.rows[i]) && v.rows[i].finished <= now)
    && (forall i | 0 <= i < |v.rows| - 1 :: BackedOff(v.rows[i], v.rows[i + 1].started))
    && (v.row.status == Queued || v.row.Held() ==> ReadyBy(v.rows, now))
    && (v.row.status == Scheduled && v.rows != [] ==>
          RetriesAt(v.row, v.rows[|v.rows| - 1]))
  }

  predicate ExactLaws(v: JobView, now: Time) {
    ExactHistory(v) && DeadLetterLaw(v) && HeldExactly(v.row) && Separated(v, now)
  }

  // ---------------------------------------------------------------- tasks

  /** The one live task of a job agrees with its row. */
  predicate TaskOwns(s: State, t: Task) {
    t.Holding() ==>
      && t.job in s.db.jobs
      && s.db.jobs[t.job].worker == Some(t.worker)
      && s.db.jobs[t.job].status == (if t.phase.Spawned? then Claimed else Running)
      && s.db.jobs[t.job].attempts == t.snap.attempts
      && s.db.jobs[t.job].maxAttempts == t.snap.maxAttempts
      && s.db.jobs[t.job].policy == t.snap.policy
      && ReadyBy(ExecutionsOf(s.db.executions, t.job), t.spawnedAt)
  }

  predicate OneOwner(s: State) {
    && (forall t | t in s.tasks :: TaskOwns(s, s.tasks[t]))
    && (forall t, u | t in s.tasks && u in s.tasks && s.tasks[t].Holding() && s.tasks[u].Holding()
                      && s.tasks[t].job == s.tasks[u].job :: t == u)
  }

  /** At most one manual retry of an entry is in flight, and its entry is still unretried. */
  predicate RetriesApart(s: State) {
    forall e | e in s.retrying :: s.retrying[e] == 1 && e < |s.db.dlq| && !s.db.dlq[e].retried
  }

  // ---------------------------------------------------------------- effects

  predicate FinishesNow(v: JobView, e: Execution, now: Time) {
    && v.row.status == Running && e.attempt == v.row.attempts + 1
    && e.started <= e.finished <= now && e.finished <= e.decidedAt && ReadyBy(v.rows, e.started)
  }

  /** What the laws of one job need of an effect. */
  predicate Harmless(v: JobView, eff: Effect, now: Time) {
    match eff
    case Keep => true
    case ClaimBy(_) => v.row.status == Queued
    case Mark => v.row.status == Claimed
    case Complete(e) => FinishesNow(v, e, now) && e.success && e.retryDelay.None?
    case Bury(e) => FinishesNow(v, e, now) && !e.success && e.retryDelay.None? && e.attempt >= v.row.DeadAt()
    case Reschedule(e, at) =>
      && FinishesNow(v, e, now) && !e.success && e.attempt < v.row.DeadAt() && e.retryDelay.Some?
      && at == e.decidedAt + Seconds(e.retryDelay.value)
      && (v.row.policy.None? ==> DefaultDelay(e.attempt) == e.retryDelay)
    case Requeue => v.row.Held()
    case PromoteJob => Due(v.row, now)
    case CancelJob => Cancellable(v.row)
    case Revive(k) =>
      v.row.status != Completed && k < |v.dead| && (k < |v.dead| - 1 ==> v.dead[|v.dead| - 1].retried)
  }

  /** What a fail-stop run guarantees about an effect before it happens. */
  predicate Faithful(v: JobView, eff: Effect, now: Time) {
    Harmless(v, eff, now) && (eff.Revive? ==> v.row.status == Failed)
  }

  lemma {:induction false} HistoryKept(v: JobView, eff: Effect, now: Time)
    requires ExactLaws(v, now) && Harmless(v, eff, now)
    ensures ExactHistory(After(v, eff, now)) && HeldExactly(After(v, eff, now).row)
  {
  }

  lemma {:induction false} DeadLettersKept(v: JobView, eff: Effect, now: Time)
    requires ExactLaws(v, now) && Harmless(v, eff, now)
    ensures DeadLetterLaw(After(v, eff, now))
  {
  }

  lemma {:induction false} SeparationKept(v: JobView, eff: Effect, now: Time)
    requires ExactLaws(v, now) && Harmless(v, eff, now)
    ensures Separated(After(v, eff, now), now)
  {
    if eff.Complete? || eff.Bury? || eff.Reschedule? {
      AttemptSeparated(v, eff, now);
    } else {
      WaitSeparated(v, eff, now);
    }
  }

  lemma {:induction false} AttemptSeparated(v: JobView, eff: Effect, now: Time)
    requires ExactLaws(v, now) && Harmless(v, eff, now) && (eff.Complete? || eff.Bury? || eff.Reschedule?)
    ensures Separated(After(v, eff, now), now)
  {
    hide DeadLetterLaw;
    var w := After(v, eff, now);
    assert w.rows == v.rows + [eff.e] && DelayRecorded(w.row, eff.e);
    forall i | 0 <= i < |w.rows| - 1 ensures BackedOff(w.rows[i], w.rows[i + 1].started) {
      if i == |v.rows| - 1 {
        assert w.rows[i] == v.rows[i] && w.rows[i + 1] == eff.e;
      }
    }
  }

  lemma {:induction false} WaitSeparated(v: JobView, eff: Effect, now: Time)
    requires ExactLaws(v, now) && Harmless(v, eff, now) && !eff.Complete? && !eff.Bury? && !eff.Reschedule?
    ensures Separated(After(v, eff, now), now)
  {
    var w := After(v, eff, now);
    assert w.rows == v.rows;
    if v.rows != [] {
      assert DelayRecorded(v.row, v.rows[|v.rows| - 1]);
    }
    forall i | 0 <= i < |w.rows| ensures DelayRecorded(w.row, w.rows[i]) {
      assert DelayRecorded(v.row, v.rows[i]);
    }
  }

  lemma {:induction false} ExactLawsKept(v: JobView, eff: Effect, now: Time)
    requires ExactLaws(v, now) && Harmless(v, eff, now)
    ensures ExactLaws(After(v, eff, now), now)
  {
    HistoryKept(v, eff, now);
    DeadLettersKept(v, eff, now);
    SeparationKept(v, eff, now);
  }

  lemma {:induction false} ExactLawsLater(v: JobView, now: Time, later: Time)
    requires ExactLaws(v, now) && now <= later
    ensures ExactLaws(v, later)
  {
  }

  /** What the tables and the live tasks show: every job obeys the exact laws and belongs to the
      one task that holds it. */
  predicate Consistent(s: State) {
    (forall j | j in s.db.jobs :: ExactLaws(View(s.db, j), s.db.now)) && OneOwner(s)
  }

  predicate Exact(s: State) {
    Consistent(s) && RetriesApart(s)
  }

  // ---------------------------------------------------------------- careful steps

  predicate NobodyHolds(s: State, j: JobId) {
    forall t | t in s.tasks && s.tasks[t].job == j :: !s.tasks[t].Holding()
  }

  /** The dead letter e may be retried by hand: its job is not completed and has no live task, and
      no later dead letter of the job is still unretried. */
  predicate Revivable(s: State, e: nat)
    requires e < |s.db.dlq| && s.db.dlq[e].job in s.db.jobs
  {
    var j := s.db.dlq[e].job;
    var dead := DlqOf(s.db.dlq, j);
    && s.db.jobs[j].status != Completed && NobodyHolds(s, j)
    && (DlqRank(s.db.dlq, e) < |dead| - 1 ==> dead[|dead| - 1].retried)
  }

  /** Recovery finds no live task of a stale worker, and a manual retry commits only where it may. */
  predicate Careful(s: State, a: Action) {
    Enabled(s, a) ==>
      match a
      case Recover => forall t | t in s.tasks && s.tasks[t].Holding() :: !Stale(s.db, s.tasks[t].worker)
      case RetryCommit(e, applied) => applied ==> Revivable(s, e)
      case _ => true
  }

  /** A careful step does not touch the row of a held job, unless it is the holder's own. */
  lemma {:induction false} OnlyOwnerActs(s: State, a: Action, t: TaskId)
    requires Consistent(s) && Careful(s, a) && t in s.tasks && s.tasks[t].Holding()
    ensures var eff := EffectOn(s, a, s.tasks[t].job);
      eff.Keep? || ((eff.Mark? || eff.Complete? || eff.Bury? || eff.Reschedule?) && a.task == t)
  {
    hide ExactLaws;
    assert TaskOwns(s, s.tasks[t]);
  }

  /** An entry whose manual retry is in flight belongs to a failed job. */
  lemma {:induction false} RetriedIsFailed(s: State, e: nat)
    requires Exact(s) && e in s.retrying && e < |s.db.dlq| && s.db.dlq[e].job in s.db.jobs
    ensures s.db.jobs[s.db.dlq[e].job].status == Failed && Revivable(s, e)
  {
    var j := s.db.dlq[e].job;
    DlqRankAt(s.db.dlq, e);
    assert ExactLaws(View(s.db, j), s.db.now);
    forall t | t in s.tasks && s.tasks[t].job == j ensures !s.tasks[t].Holding() {
      assert TaskOwns(s, s.tasks[t]);
    }
  }

  /** The fail-stop discipline makes every step careful. */
  lemma {:induction false} DisciplinedIsCareful(s: State, a: Action)
    requires Exact(s) && Disciplined(s, a)
    ensures Careful(s, a)
  {
    hide Exact, Revivable;
    if Enabled(s, a) && a.RetryCommit? {
      RetriedIsFailed(s, a.entry);
    }
  }

  lemma {:induction false} FinishFaithful(s: State, t: TaskId, finishedAt: Time)
    requires References(s) && Consistent(s) && TaskIn(s, t) && s.tasks[t].phase.Started?
    requires s.tasks[t].phase.startedAt <= finishedAt <= s.db.now
    ensures var task := s.tasks[t]; var v := View(s.db, task.job);
      && (forall ok, d, at: Time | finishedAt <= at :: FinishesNow(v, Attempt(task, finishedAt, ok, d, at), s.db.now))
      && v.row.policy == task.snap.policy
      && (DeadLettered(task) <==> task.snap.attempts + 1 >= v.row.DeadAt())
  {
    assert TaskOwns(s, s.tasks[t]) && TaskRefs(s, s.tasks[t]);
    assert ExactLaws(View(s.db, s.tasks[t].job), s.db.now);
  }

  lemma {:induction false} FailHarmless(
    s: State, t: TaskId, f: Time, at: Time, found: bool, d: int, o: Outcome, j: JobId)
    requires References(s) && Consistent(s) && j in s.db.jobs && Enabled(s, Fail(t, f, at, found, d, o))
    ensures Harmless(View(s.db, j), EffectOn(s, Fail(t, f, at, found, d, o), j), s.db.now)
  {
    hide References, Consistent;
    FinishFaithful(s, t, f);
  }

  lemma {:induction false} SucceedHarmless(s: State, t: TaskId, f: Time, o: Outcome, j: JobId)
    requires References(s) && Consistent(s) && j in s.db.jobs && Enabled(s, Succeed(t, f, o))
    ensures Harmless(View(s.db, j), EffectOn(s, Succeed(t, f, o), j), s.db.now)
  {
    hide References, Consistent;
    FinishFaithful(s, t, f);
  }

  lemma {:induction false} RetryCommitHarmless(s: State, e: nat, applied: bool, j: JobId)
    requires j in s.db.jobs && Enabled(s, RetryCommit(e, applied)) && (applied ==> Revivable(s, e))
    ensures Harmless(View(s.db, j), EffectOn(s, RetryCommit(e, applied), j), s.db.now)
  {
    DlqRankAt(s.db.dlq, e);
  }

  lemma {:induction false} MarkHarmless(s: State, t: TaskId, at: Time, j: JobId)
    requires Consistent(s) && j in s.db.jobs && Enabled(s, MarkRunning(t, at))
    ensures Harmless(View(s.db, j), EffectOn(s, MarkRunning(t, at), j), s.db.now)
  {
    assert TaskOwns(s, s.tasks[t]);
  }

  lemma {:induction false} RowHarmless(s: State, a: Action, j: JobId)
    requires j in s.db.jobs && Enabled(s, a) && !WritesTables(a) && !a.MarkRunning?
    ensures Harmless(View(s.db, j), EffectOn(s, a, j), s.db.now)
  {
  }

  lemma {:induction false} EffectHarmless(s: State, a: Action, j: JobId)
    requires References(s) && Consistent(s) && j in s.db.jobs && (a.RetryCommit? ==> Careful(s, a))
    ensures Harmless(View(s.db, j), EffectOn(s, a, j), s.db.now)
  {
    hide Consistent, References, Apply, Revivable;
    if Enabled(s, a) {
      hide EffectOn, Harmless, Enabled;
      match a
      case RetryCommit(e, applied) => RetryCommitHarmless(s, e, applied, j);
      case MarkRunning(t, at) => MarkHarmless(s, t, at, j);
      case Succeed(t, f, o) => SucceedHarmless(s, t, f, o, j);
      case Fail(t, f, at, found, d, o) => FailHarmless(s, t, f, at, found, d, o, j);
      case _ => RowHarmless(s, a, j);
    }
  }

  lemma {:induction false} EffectFaithful(s: State, a: Action, j: JobId)
    requires References(s) && Exact(s) && j in s.db.jobs
    ensures Faithful(View(s.db, j), EffectOn(s, a, j), s.db.now)
  {
    hide References, Apply, Consistent, RetriesApart, Revivable, Harmless;
    if Enabled(s, a) && a.RetryCommit? {
      RetriedIsFailed(s, a.entry);
    }
    EffectHarmless(s, a, j);
  }

  // ---------------------------------------------------------------- steps

  lemma {:induction false} ExactLawsStep(s: State, a: Action, j: JobId)
    requires References(s) && Consistent(s) && (a.RetryCommit? ==> Careful(s, a))
    requires j in Next(s, a).db.jobs && NoStrayRows(s.db, j)
    ensures ExactLaws(View(Next(s, a).db, j), Next(s, a).db.now)
  {
    hide Apply, References, Enabled, EffectOn, Harmless, Careful;
    if j in s.db.jobs {
      EffectHarmless(s, a, j);
      StepEffect(s, a, j);
      ExactLawsKept(View(s.db, j), EffectOn(s, a, j), s.db.now);
    } else {
      StepCreates(s, a, j);
      assert ExactLaws(JobView(NewRow(s, a), [], [], 0, 0, 0), s.db.now);
    }
    ClockForward(s, a);
    ExactLawsLater(View(Next(s, a).db, j), s.db.now, Next(s, a).db.now);
  }

  /** The row and the execution rows of a job with a live task, after a step that keeps the
      task alive: the task either did nothing or just marked its row running. */
  lemma {:induction false} OwnerKept(s: State, a: Action, t: TaskId)
    requires References(s) && Consistent(s) && Careful(s, a)
    requires t in s.tasks && t in Next(s, a).tasks && Next(s, a).tasks[t].Holding()
    ensures TaskOwns(Next(s, a), Next(s, a).tasks[t])
  {
    hide Apply, References, Consistent, Careful;
    TasksEvolve(s, a, t);
    OnlyOwnerActs(s, a, t);
    assert TaskOwns(s, s.tasks[t]) by { OwnsNow(s, t); }
    StepEffect(s, a, s.tasks[t].job);
  }

  lemma {:induction false} OwnsNow(s: State, t: TaskId)
    requires Consistent(s) && t in s.tasks
    ensures TaskOwns(s, s.tasks[t])
  {
  }

  lemma {:induction false} NewOwner(s: State, a: Action, t: TaskId)
    requires References(s) && Consistent(s) && t !in s.tasks && t in Next(s, a).tasks
    ensures TaskOwns(Next(s, a), Next(s, a).tasks[t])
  {
    hide Apply, References;
    TasksEvolve(s, a, t);
    assert ExactLaws(View(s.db, a.id), s.db.now);
    StepEffect(s, a, a.id);
  }

  lemma {:induction false} OneOwnerStep(s: State, a: Action)
    requires References(s) && Consistent(s) && Careful(s, a)
    ensures OneOwner(Next(s, a))
  {
    hide Apply, References, Careful;
    var s' := Next(s, a);
    forall t | t in s'.tasks ensures TaskOwns(s', s'.tasks[t]) {
      if t !in s.tasks {
        NewOwner(s, a, t);
      } else if s'.tasks[t].Holding() {
        OwnerKept(s, a, t);
      }
    }
    forall t, u | t in s'.tasks && u in s'.tasks && s'.tasks[t].Holding() && s'.tasks[u].Holding()
                  && s'.tasks[t].job == s'.tasks[u].job
      ensures t == u
    {
      TasksEvolve(s, a, t);
      TasksEvolve(s, a, u);
      if t in s.tasks {
        assert TaskOwns(s, s.tasks[t]);
      }
      if u in s.tasks {
        assert TaskOwns(s, s.tasks[u]);
      }
    }
  }

  /** Careful steps keep the tables and the live tasks consistent, also where manual retries of one
      entry overlap. */
  lemma {:induction false} ConsistentStep(s: State, a: Action)
    requires References(s) && NoStrays(s) && Consistent(s) && Careful(s, a)
    ensures Consistent(Next(s, a))
  {
    hide Apply, Next, References, Careful, ExactLaws, OneOwner;
    OneOwnerStep(s, a);
    forall j | j in Next(s, a).db.jobs ensures ExactLaws(View(Next(s, a).db, j), Next(s, a).db.now) {
      assert NoStrayRows(s.db, j);
      ExactLawsStep(s, a, j);
    }
  }

  lemma {:induction false} RetriesApartStep(s: State, a: Action)
    requires References(s) && RetriesApart(s) && Disciplined(s, a)
    ensures RetriesApart(Next(s, a))
  {
    hide Claimable, RetryDelay, KeyFree, RunningJobs, PromoteRow, RecoverRow, ClaimRow, ManualRow;
  }

  lemma {:induction false} ExactStep(s: State, a: Action)
    requires References(s) && NoStrays(s) && Exact(s) && Disciplined(s, a)
    ensures Exact(Next(s, a))
  {
    hide Next, References, NoStrays, Disciplined, Careful, Consistent, RetriesApart;
    DisciplinedIsCareful(s, a);
    ConsistentStep(s, a);
    RetriesApartStep(s, a);
  }

  /** Every fail-stop run keeps the exact laws. */
  lemma {:induction false} ExactHolds(s0: State, acts: seq<Action>)
    requires Initial(s0) && FailStop(s0, acts)
    ensures Exact(Run(s0, acts))
    decreases |acts|
  {
    if acts != [] {
      var n := |acts| - 1;
      ExactHolds(s0, acts[..n]);
      AllLawsHold(s0, acts[..n]);
      ExactStep(Run(s0, acts[..n]), acts[n]);
    }
  }
}
