/** Heartbeats and stale recovery against the clock. A worker process beats every ten seconds
    from its start on, the recovery loop fires every thirty, and recovery takes a worker for
    dead when its last beat is more than sixty seconds old. Timed runs are fail-stop runs, so
    the fail-stop discipline is not an assumption about recovery but a consequence. */
module TimedRuns {
  import opened Domain
  import opened Protocol
  import opened Effects
  import opened AllRuns
  import opened ExactRuns

  const BEAT_PERIOD: int := 10
  const RECOVERY_PERIOD: int := 30
  const MISS_BUDGET: int := 5

  /** When a live worker beats next, and how many of its upserts failed in a row. */
  datatype Beats = Beats(next: Time, misses: nat)

  /** budget: how many upserts of a worker may fail in a row. */
  datatype TimedState = TimedState(s: State, alive: map<WorkerId, Beats>, nextRecovery: Time, budget: nat)

  datatype TimedAction =
    | Step(a: Action)
    | Tick(to: Time)
    | Start(worker: WorkerId)
    | Beat(worker: WorkerId, ok: bool)
    | Kill(worker: WorkerId)
    | RecoveryTick

  /** Steps of a poller need its process; the clock, beats, recovery and crashes have timed
      actions of their own. */
  predicate Untimed(ts: TimedState, a: Action) {
    match a
    case Advance(_) => false
    case Heartbeat(_) => false
    case Recover => false
    case Crash(_) => false
    case PollPause(w, _) => w in ts.alive
    case PollCount(w) => w in ts.alive
    case Claim(w, _, _, _) => w in ts.alive
    case _ => Disciplined(ts.s, a)
  }

  predicate CanTick(ts: TimedState, to: Time) {
    && ts.s.db.now <= to <= ts.nextRecovery
    && forall w | w in ts.alive :: to <= ts.alive[w].next
  }

  predicate TimedEnabled(ts: TimedState, a: TimedAction) {
    match a
    case Step(b) => Untimed(ts, b)
    case Tick(to) => CanTick(ts, to)
    case Start(w) => w !in ts.alive && w !in ts.s.db.lastSeen
    case Beat(w, ok) => w in ts.alive && ts.s.db.now == ts.alive[w].next && (ok || ts.alive[w].misses < ts.budget)
    case Kill(w) => true
    case RecoveryTick => ts.s.db.now == ts.nextRecovery
  }

  /** The protocol steps that a timed action stands for. */
  function Untime(a: TimedAction): seq<Action> {
    match a
    case Step(b) => [b]
    case Tick(to) => [Advance(to)]
    case Start(w) => [Heartbeat(w)]
    case Beat(w, ok) => if ok then [Heartbeat(w)] else []
    case Kill(w) => [Crash(w)]
    case RecoveryTick => [Recover]
  }

  function TimedNext(ts: TimedState, a: TimedAction): TimedState {
    if !TimedEnabled(ts, a) then ts else
    match a
    case Step(b) => ts.(s := Next(ts.s, b))
    case Tick(to) => ts.(s := Next(ts.s, Advance(to)))
    case Start(w) =>
      ts.(s := Next(ts.s, Heartbeat(w)), alive := ts.alive[w := Beats(ts.s.db.now + Seconds(BEAT_PERIOD), 0)])
    case Beat(w, ok) =>
      ts.(s := if ok then Next(ts.s, Heartbeat(w)) else ts.s,
          alive := ts.alive[w := Beats(ts.s.db.now + Seconds(BEAT_PERIOD), if ok then 0 else ts.alive[w].misses + 1)])
    case Kill(w) => ts.(s := Next(ts.s, Crash(w)), alive := ts.alive - {w})
    case RecoveryTick =>
      ts.(s := Next(ts.s, Recover), nextRecovery := ts.s.db.now + Seconds(RECOVERY_PERIOD))
  }

  function TimedRun(ts: TimedState, acts: seq<TimedAction>): TimedState {
    if acts == [] then ts else TimedNext(TimedRun(ts, acts[..|acts| - 1]), acts[|acts| - 1])
  }

  /** The protocol run underneath. */
  function Projected(ts: TimedState, acts: seq<TimedAction>): seq<Action> {
    if acts == [] then []
    else
      var before, a := TimedRun(ts, acts[..|acts| - 1]), acts[|acts| - 1];
      Projected(ts, acts[..|acts| - 1]) + (if TimedEnabled(before, a) then Untime(a) else [])
  }

  predicate TimedInitial(ts: TimedState) {
    && Initial(ts.s) && ts.s.db.lastSeen == map[] && ts.alive == map[]
    && ts.s.db.now <= ts.nextRecovery <= ts.s.db.now + Seconds(RECOVERY_PERIOD)
  }

  // ---------------------------------------------------------------- invariant

  predicate Fresh(ts: TimedState, w: WorkerId)
    requires w in ts.alive
  {
    && w in ts.s.db.lastSeen && ts.alive[w].misses <= ts.budget
    && ts.s.db.lastSeen[w] <= ts.s.db.now <= ts.alive[w].next
    && ts.alive[w].next - ts.s.db.lastSeen[w] <= Seconds(BEAT_PERIOD) * (ts.alive[w].misses + 1)
  }

  /** A job held by a dead worker was not stale at the previous recovery tick. */
  predicate Detectable(ts: TimedState, row: Job) {
    row.Held() && row.worker.Some? && row.worker.value !in ts.alive ==>
      && row.worker.value in ts.s.db.lastSeen
      && ts.nextRecovery - Seconds(RECOVERY_PERIOD) <= ts.s.db.lastSeen[row.worker.value] + Seconds(STALE_THRESHOLD)
  }

  predicate TimedInv(ts: TimedState) {
    && ts.budget <= MISS_BUDGET
    && (forall w | w in ts.alive :: Fresh(ts, w))
    && (forall t | t in ts.s.tasks :: ts.s.tasks[t].worker in ts.alive)
    && ts.s.db.now <= ts.nextRecovery <= ts.s.db.now + Seconds(RECOVERY_PERIOD)
    && (forall j | j in ts.s.db.jobs :: Detectable(ts, ts.s.db.jobs[j]))
  }

  /** Live workers are never stale. */
  lemma {:induction false} FreshIsNotStale(ts: TimedState, w: WorkerId)
    requires w in ts.alive && Fresh(ts, w) && ts.budget <= MISS_BUDGET
    ensures !Stale(ts.s.db, w)
  {
  }

  lemma {:induction false} TaskWorkers(s: State, a: Action, t: TaskId)
    requires t in Next(s, a).tasks
    ensures t in s.tasks ==> Next(s, a).tasks[t].worker == s.tasks[t].worker
    ensures t !in s.tasks ==> a.Claim? && Next(s, a).tasks[t].worker == a.worker
    ensures a.Crash? ==> Next(s, a).tasks[t].worker != a.worker
  {
  }

  lemma {:induction false} SameBeats(s: State, a: Action)
    ensures !a.Heartbeat? ==> Next(s, a).db.lastSeen == s.db.lastSeen
    ensures a.Heartbeat? ==> Next(s, a).db.lastSeen == s.db.lastSeen[a.worker := s.db.now]
    ensures !a.Advance? ==> Next(s, a).db.now == s.db.now
  {
    hide Apply;
    if Enabled(s, a) {
      hide Enabled;
      if WritesTables(a) {
        WritingBeats(s, a);
      } else {
        QuietBeats(s, a);
      }
    }
  }

  lemma {:induction false} QuietBeats(s: State, a: Action)
    requires Enabled(s, a) && !WritesTables(a)
    ensures var db := Apply(s, a).db;
      && db.lastSeen == (if a.Heartbeat? then s.db.lastSeen[a.worker := s.db.now] else s.db.lastSeen)
      && (!a.Advance? ==> db.now == s.db.now)
  {
    hide Claimable, RetryDelay, RunningJobs, KeyFree, PromoteRow, RecoverRow, NewJob, NextOccurrence;
    hide ClaimRow, ManualRow, CancelRow, RunRow;
  }

  lemma {:induction false} WritingBeats(s: State, a: Action)
    requires Enabled(s, a) && WritesTables(a)
    ensures Apply(s, a).db.lastSeen == s.db.lastSeen && Apply(s, a).db.now == s.db.now
  {
    hide RetryDelay, DeadRow, RetryRow, CompleteRow, ManualRow;
  }

  /** Who may hold a row after a step. */
  lemma {:induction false} RowWorkers(s: State, a: Action, j: JobId)
    requires j in Next(s, a).db.jobs && NoStrayRows(s.db, j)
    ensures var row := Next(s, a).db.jobs[j];
      row.worker.Some? ==>
        || (a.Claim? && row.worker.value == a.worker)
        || (j in s.db.jobs && s.db.jobs[j].worker == row.worker && (a.Recover? ==> row == s.db.jobs[j]))
    ensures a.Recover? && Next(s, a).db.jobs[j].Held() && Next(s, a).db.jobs[j].worker.Some? ==>
      !Stale(s.db, Next(s, a).db.jobs[j].worker.value)
  {
    hide Apply;
    if j in s.db.jobs {
      StepEffect(s, a, j);
    } else {
      StepCreates(s, a, j);
    }
  }

  lemma {:induction false} DetectableStep(ts: TimedState, a: Action, j: JobId)
    requires TimedInv(ts) && AllLaws(ts.s) && NoStrays(ts.s) && j in Next(ts.s, a).db.jobs
    requires Untimed(ts, a) || a.Advance?
    ensures Detectable(ts.(s := Next(ts.s, a)), Next(ts.s, a).db.jobs[j])
  {
    hide Apply, References;
    assert NoStrayRows(ts.s.db, j);
    RowWorkers(ts.s, a, j);
    SameBeats(ts.s, a);
    if j in ts.s.db.jobs {
      assert Detectable(ts, ts.s.db.jobs[j]);
      assert JobLaws(View(ts.s.db, j), ts.s.db.now);
    }
  }

  lemma {:induction false} StepKeepsInv(ts: TimedState, a: Action)
    requires TimedInv(ts) && AllLaws(ts.s) && NoStrays(ts.s)
    requires Untimed(ts, a) || (a.Advance? && CanTick(ts, a.to))
    ensures TimedInv(ts.(s := Next(ts.s, a)))
  {
    hide Apply, AllLaws, NoStrays, Detectable;
    var s' := Next(ts.s, a);
    SameBeats(ts.s, a);
    ClockForward(ts.s, a);
    forall t | t in s'.tasks ensures s'.tasks[t].worker in ts.alive {
      TaskWorkers(ts.s, a, t);
    }
    forall j | j in s'.db.jobs ensures Detectable(ts.(s := s'), s'.db.jobs[j]) {
      DetectableStep(ts, a, j);
    }
    if a.Advance? {
      AdvanceClock(ts.s, a.to);
    }
  }

  lemma {:induction false} AdvanceClock(s: State, to: Time)
    requires s.db.now <= to
    ensures Next(s, Advance(to)).db.now == to
  {
  }

  lemma {:induction false} BeatKeepsInv(ts: TimedState, a: TimedAction)
    requires TimedInv(ts) && TimedEnabled(ts, a) && (a.Start? || a.Beat?)
    ensures TimedInv(TimedNext(ts, a))
  {
    forall j | j in ts.s.db.jobs ensures Detectable(ts, ts.s.db.jobs[j]) {
    }
  }

  lemma {:induction false} KillKeepsInv(ts: TimedState, w: WorkerId)
    requires TimedInv(ts)
    ensures TimedInv(TimedNext(ts, Kill(w)))
  {
    var ts' := TimedNext(ts, Kill(w));
    assert ts'.s.db == ts.s.db;
    forall j | j in ts'.s.db.jobs ensures Detectable(ts', ts'.s.db.jobs[j]) {
      assert Detectable(ts, ts.s.db.jobs[j]);
      if w in ts.alive {
        FreshIsNotStale(ts, w);
      }
    }
  }

  lemma {:induction false} RecoveryKeepsInv(ts: TimedState)
    requires TimedInv(ts) && AllLaws(ts.s) && NoStrays(ts.s) && TimedEnabled(ts, RecoveryTick)
    ensures TimedInv(TimedNext(ts, RecoveryTick))
  {
    hide Apply, AllLaws;
    var ts' := TimedNext(ts, RecoveryTick);
    SameBeats(ts.s, Recover);
    forall t | t in ts'.s.tasks ensures ts'.s.tasks[t].worker in ts'.alive {
      TaskWorkers(ts.s, Recover, t);
    }
    forall j | j in ts'.s.db.jobs ensures Detectable(ts', ts'.s.db.jobs[j]) {
      assert NoStrayRows(ts.s.db, j);
      RowWorkers(ts.s, Recover, j);
    }
  }

  lemma {:induction false} TimedStep(ts: TimedState, a: TimedAction)
    requires TimedInv(ts) && AllLaws(ts.s) && NoStrays(ts.s)
    ensures TimedInv(TimedNext(ts, a))
  {
    hide Next, AllLaws, NoStrays, TimedInv, Untimed, CanTick;
    if TimedEnabled(ts, a) {
      match a
      case Step(b) => StepKeepsInv(ts, b);
      case Tick(to) => StepKeepsInv(ts, Advance(to));
      case Kill(w) => KillKeepsInv(ts, w);
      case RecoveryTick => RecoveryKeepsInv(ts);
      case _ => BeatKeepsInv(ts, a);
    }
  }

  /** The recovery of a timed run finds no live task of a stale worker. */
  lemma {:induction false} RecoveryIsDisciplined(ts: TimedState)
    requires TimedInv(ts)
    ensures Disciplined(ts.s, Recover)
  {
    forall t | t in ts.s.tasks ensures !Stale(ts.s.db, ts.s.tasks[t].worker) {
      FreshIsNotStale(ts, ts.s.tasks[t].worker);
    }
  }

  lemma {:induction false} TimedNextProjects(ts: TimedState, a: TimedAction)
    requires TimedEnabled(ts, a)
    ensures |Untime(a)| <= 1
    ensures TimedNext(ts, a).s == if Untime(a) == [] then ts.s else Next(ts.s, Untime(a)[0])
    ensures TimedInv(ts) && Untime(a) != [] ==> Disciplined(ts.s, Untime(a)[0])
  {
    hide Next, TimedInv;
    if a.RecoveryTick? && TimedInv(ts) {
      RecoveryIsDisciplined(ts);
    }
  }

  /** A timed run is a run of the protocol, whatever the budget. */
  lemma {:induction false} TimedRunProjects(t0: TimedState, acts: seq<TimedAction>)
    ensures TimedRun(t0, acts).s == Run(t0.s, Projected(t0, acts))
    decreases |acts|
  {
    hide TimedNext, TimedEnabled, Next, Untime, Disciplined, TimedInv;
    if acts != [] {
      var n := |acts| - 1;
      TimedRunProjects(t0, acts[..n]);
      ProjectedStep(t0, acts, n);
    }
  }

  /** The last timed action of a run: no step of the protocol, or one, which is disciplined while the
      invariant holds. */
  lemma {:induction false} ProjectedStep(t0: TimedState, acts: seq<TimedAction>, n: nat)
    requires |acts| == n + 1
    ensures var before, proj := TimedRun(t0, acts[..n]), Projected(t0, acts[..n]);
      before.s == Run(t0.s, proj) ==>
        && TimedRun(t0, acts).s == Run(t0.s, Projected(t0, acts))
        && (TimedInv(before) && FailStop(t0.s, proj) ==> FailStop(t0.s, Projected(t0, acts)))
  {
    hide TimedNext, TimedEnabled, Next, Untime, Disciplined, TimedInv;
    var before, proj := TimedRun(t0, acts[..n]), Projected(t0, acts[..n]);
    if TimedEnabled(before, acts[n]) {
      TimedNextProjects(before, acts[n]);
      if Untime(acts[n]) != [] {
        RunSnoc(t0.s, proj, Untime(acts[n])[0]);
        assert Untime(acts[n]) == [Untime(acts[n])[0]];
      } else {
        assert proj + [] == proj;
      }
    } else {
      IdleStep(before, acts[n]);
      assert proj + [] == proj;
    }
  }

  /** Timed runs are fail-stop runs of the protocol. */
  lemma {:induction false} TimedRunsAreFailStop(t0: TimedState, acts: seq<TimedAction>)
    requires TimedInitial(t0) && t0.budget <= MISS_BUDGET
    ensures TimedInv(TimedRun(t0, acts))
    ensures TimedRun(t0, acts).s == Run(t0.s, Projected(t0, acts))
    ensures FailStop(t0.s, Projected(t0, acts))
    decreases |acts|
  {
    hide TimedNext, TimedEnabled, Next, Untime, Disciplined;
    TimedRunProjects(t0, acts);
    if acts != [] {
      var n := |acts| - 1;
      TimedRunsAreFailStop(t0, acts[..n]);
      AllLawsHold(t0.s, Projected(t0, acts[..n]));
      TimedStep(TimedRun(t0, acts[..n]), acts[n]);
      ProjectedStep(t0, acts, n);
    }
  }

  lemma {:induction false} IdleStep(ts: TimedState, a: TimedAction)
    requires !TimedEnabled(ts, a)
    ensures TimedNext(ts, a) == ts
  {
  }

  /** So every law of fail-stop runs holds in timed runs, with nothing assumed of recovery. */
  lemma {:induction false} TimedRunsAreExact(t0: TimedState, acts: seq<TimedAction>)
    requires TimedInitial(t0) && t0.budget <= MISS_BUDGET
    ensures Exact(TimedRun(t0, acts).s)
  {
    hide TimedRun, Projected, Run, FailStop;
    TimedRunsAreFailStop(t0, acts);
    ExactHolds(t0.s, Projected(t0, acts));
  }

  /** Within ninety seconds of its last beat, a dead worker's jobs are off its hands. */
  lemma {:induction false} DeadWorkersAreDetected(t0: TimedState, acts: seq<TimedAction>, j: JobId)
    requires TimedInitial(t0) && t0.budget <= MISS_BUDGET && j in TimedRun(t0, acts).s.db.jobs
    ensures var ts := TimedRun(t0, acts); var row := ts.s.db.jobs[j];
      row.Held() && row.worker.Some? && row.worker.value !in ts.alive ==>
        && row.worker.value in ts.s.db.lastSeen
        && ts.s.db.now <= ts.s.db.lastSeen[row.worker.value] + Seconds(90)
  {
    hide TimedRun;
    TimedRunsAreFailStop(t0, acts);
    assert Detectable(TimedRun(t0, acts), TimedRun(t0, acts).s.db.jobs[j]);
  }

  /** Recovery never takes a job from a live task. */
  lemma {:induction false} LiveTasksAreNeverRobbed(t0: TimedState, acts: seq<TimedAction>, t: TaskId)
    requires TimedInitial(t0) && t0.budget <= MISS_BUDGET && t in TimedRun(t0, acts).s.tasks
    ensures var s := TimedRun(t0, acts).s;
      && !Stale(s.db, s.tasks[t].worker)
      && (s.tasks[t].job in s.db.jobs && s.db.jobs[s.tasks[t].job].worker == Some(s.tasks[t].worker) ==>
            EffectOn(s, Recover, s.tasks[t].job).Keep?)
  {
    hide TimedRun;
    TimedRunsAreFailStop(t0, acts);
    FreshIsNotStale(TimedRun(t0, acts), TimedRun(t0, acts).s.tasks[t].worker);
  }
}
