/** How many heartbeats a worker may miss: timed runs are fail-stop runs iff at most five in a row. */
module HeartbeatBudget {
  import opened Domain
  import opened Protocol
  import opened ExactRuns
  import opened LimitsOfTheProtocol
  import opened TimedRuns
  import opened ConcreteRuns

  /** With this budget of missed beats in a row, every timed run is a fail-stop run. */
  ghost predicate BudgetIsSafe(m: nat) {
    forall t0, acts | TimedInitial(t0) && t0.budget == m :: FailStop(t0.s, Projected(t0, acts))
  }

  /** An empty system in which recovery first fires at the given time. */
  function Start0(m: nat, first: Time): TimedState {
    TimedState(EmptyState(LIMIT), map[], first, m)
  }

  lemma {:induction false} TimedSnoc(t0: TimedState, acts: seq<TimedAction>, a: TimedAction)
    ensures TimedRun(t0, acts + [a]) == TimedNext(TimedRun(t0, acts), a)
    ensures TimedEnabled(TimedRun(t0, acts), a) ==> Projected(t0, acts + [a]) == Projected(t0, acts) + Untime(a)
  {
    hide TimedNext, TimedEnabled, Untime;
    assert (acts + [a])[..|acts|] == acts;
  }

  /** Worker 1 beat at time 0 and holds job 0; since then `misses` upserts failed. */
  predicate Silent(ts: TimedState, now: Time, misses: nat, recovery: Time) {
    && ts.s.db.now == now && ts.nextRecovery == recovery && ts.s.db.lastSeen == map[1 := 0]
    && ts.alive == map[1 := Beats(Seconds(10 * misses + 10), misses)]
    && 0 in ts.s.tasks && ts.s.tasks[0].worker == 1 && ts.s.tasks[0].Holding()
  }

  lemma {:induction false} SilentClock(ts: TimedState, now: Time, misses: nat, recovery: Time, to: Time)
    requires Silent(ts, now, misses, recovery) && now <= to <= recovery && to <= Seconds(10 * misses + 10)
    ensures Silent(TimedNext(ts, Tick(to)), to, misses, recovery) && TimedNext(ts, Tick(to)).budget == ts.budget
  {
    AdvanceNext(ts.s, to);
  }

  /** One more beat is missed. */
  lemma {:induction false} Miss(t0: TimedState, before: seq<TimedAction>, now: Time, misses: nat, recovery: Time)
    returns (acts: seq<TimedAction>)
    requires Silent(TimedRun(t0, before), now, misses, recovery) && misses < TimedRun(t0, before).budget
    requires now <= Seconds(10 * misses + 10) <= recovery
    ensures Silent(TimedRun(t0, acts), Seconds(10 * misses + 10), misses + 1, recovery)
    ensures TimedRun(t0, acts).budget == TimedRun(t0, before).budget
  {
    hide Next;
    var to := Seconds(10 * misses + 10);
    SilentClock(TimedRun(t0, before), now, misses, recovery, to);
    TimedSnoc(t0, before, Tick(to));
    TimedSnoc(t0, before + [Tick(to)], Beat(1, false));
    acts := before + [Tick(to)] + [Beat(1, false)];
  }

  /** Recovery fires in time, before the next beat is due. */
  lemma {:induction false} FireRecovery(
    t0: TimedState, before: seq<TimedAction>, now: Time, misses: nat, recovery: Time)
    returns (acts: seq<TimedAction>)
    requires Silent(TimedRun(t0, before), now, misses, recovery) && now <= recovery <= Seconds(10 * misses + 10)
    ensures Silent(TimedRun(t0, acts), recovery, misses, recovery + Seconds(30))
    ensures TimedRun(t0, acts).budget == TimedRun(t0, before).budget
  {
    SilentClock(TimedRun(t0, before), now, misses, recovery, recovery);
    TimedSnoc(t0, before, Tick(recovery));
    TimedSnoc(t0, before + [Tick(recovery)], RecoveryTick);
    RecoverNext(TimedRun(t0, before + [Tick(recovery)]).s);
    hide Next;
    acts := before + [Tick(recovery)] + [RecoveryTick];
  }

  /** A step of a live worker's poller. */
  lemma {:induction false} PollerStep(t0: TimedState, acts: seq<TimedAction>, b: Action)
    requires b.PollPause? || b.PollCount? || b.Claim?
    requires b.worker in TimedRun(t0, acts).alive
    ensures var ts := TimedRun(t0, acts); TimedRun(t0, acts + [Step(b)]) == ts.(s := Next(ts.s, b))
  {
    hide Next;
    TimedSnoc(t0, acts, Step(b));
  }

  lemma {:induction false} TimedOpening(m: nat, first: Time) returns (acts: seq<TimedAction>)
    ensures Silent(TimedRun(Start0(m, first), acts), 0, 0, first) && TimedRun(Start0(m, first), acts).budget == m
    ensures TimedRun(Start0(m, first), acts).s == Grabbed(Opened(REQUEST), 1, 0)
  {
    var t0, s := Start0(m, first), Opened(REQUEST);
    FirstBeat(m, first);
    Grab(s, 1, 0);
    RunThree(s, PollPause(1, 0), PollCount(1), Claim(1, 0, 0, {}));
    assert TimedRun(t0, []) == t0;
    TimedSnoc(t0, [], Step(Create(0, 0, REQUEST)));
    hide TimedNext, TimedRun, Next, Run, Opened, Small;
    acts := [] + [Step(Create(0, 0, REQUEST))];
    TimedSnoc(t0, acts, TimedAction.Start(1));
    acts := acts + [TimedAction.Start(1)];
    PollerStep(t0, acts, PollPause(1, 0));
    acts := acts + [Step(PollPause(1, 0))];
    PollerStep(t0, acts, PollCount(1));
    acts := acts + [Step(PollCount(1))];
    PollerStep(t0, acts, Claim(1, 0, 0, {}));
    acts := acts + [Step(Claim(1, 0, 0, {}))];
    GrabIsSilent(m, first);
  }

  lemma {:induction false} GrabIsSilent(m: nat, first: Time)
    ensures var alive := map[1 := Beats(Seconds(10), 0)];
      Silent(TimedState(Grabbed(Opened(REQUEST), 1, 0), alive, first, m), 0, 0, first)
  {
  }

  lemma {:induction false} FirstBeat(m: nat, first: Time)
    ensures var ts := TimedNext(TimedNext(Start0(m, first), Step(Create(0, 0, REQUEST))), TimedAction.Start(1));
      ts == TimedState(Opened(REQUEST), map[1 := Beats(Seconds(10), 0)], first, m) && Small(Opened(REQUEST))
  {
    CreateNext(EmptyState(LIMIT), 0, 0, REQUEST);
  }

  /** With a budget of six, recovery fires at second 65 while the task of a worker whose last beat is
      65 seconds old is alive. */
  lemma {:induction false} SixMissesRob(m: nat) returns (acts: seq<TimedAction>)
    requires m > MISS_BUDGET
    ensures var ts := TimedRun(Start0(m, Seconds(5)), acts);
      && TimedEnabled(ts, RecoveryTick)
      && 0 in ts.s.tasks && ts.s.tasks[0].Holding() && ts.s.tasks[0].worker in ts.alive
      && Stale(ts.s.db, ts.s.tasks[0].worker)
  {
    hide TimedNext, TimedEnabled, Silent, TimedRun;
    var t0 := Start0(m, Seconds(5));
    acts := TimedOpening(m, Seconds(5));
    acts := FireRecovery(t0, acts, 0, 0, Seconds(5));
    acts := Miss(t0, acts, Seconds(5), 0, Seconds(35));
    acts := Miss(t0, acts, Seconds(10), 1, Seconds(35));
    acts := Miss(t0, acts, Seconds(20), 2, Seconds(35));
    acts := FireRecovery(t0, acts, Seconds(30), 3, Seconds(35));
    acts := Miss(t0, acts, Seconds(35), 3, Seconds(65));
    acts := Miss(t0, acts, Seconds(40), 4, Seconds(65));
    acts := Miss(t0, acts, Seconds(50), 5, Seconds(65));
    SilentClock(TimedRun(t0, acts), Seconds(60), 6, Seconds(65), Seconds(65));
    TimedSnoc(t0, acts, Tick(Seconds(65)));
    acts := acts + [Tick(Seconds(65))];
    SilentIsStale(TimedRun(t0, acts));
  }

  lemma {:induction false} SilentIsStale(ts: TimedState)
    requires Silent(ts, Seconds(65), 6, Seconds(65))
    ensures TimedEnabled(ts, RecoveryTick) && Stale(ts.s.db, 1)
    ensures 0 in ts.s.tasks && ts.s.tasks[0].Holding() && ts.s.tasks[0].worker == 1 && 1 in ts.alive
  {
  }

  /** Five missed beats in a row are exactly what the sixty-second threshold tolerates: every timed run
      with budget m is fail-stop iff m <= 5. */
  lemma {:induction false} MissBudgetIsExact(m: nat)
    ensures BudgetIsSafe(m) <==> m <= 5
  {
    if m <= MISS_BUDGET {
      forall t0, acts | TimedInitial(t0) && t0.budget == m ensures FailStop(t0.s, Projected(t0, acts)) {
        TimedRunsAreFailStop(t0, acts);
      }
    } else {
      var acts := SixMissesRob(m);
      NotFailStop(Start0(m, Seconds(5)), acts);
      assert TimedInitial(Start0(m, Seconds(5)));
    }
  }

  lemma {:induction false} NotFailStop(t0: TimedState, acts: seq<TimedAction>)
    requires var ts := TimedRun(t0, acts);
      && TimedEnabled(ts, RecoveryTick)
      && 0 in ts.s.tasks && ts.s.tasks[0].Holding() && Stale(ts.s.db, ts.s.tasks[0].worker)
    ensures !FailStop(t0.s, Projected(t0, acts + [RecoveryTick]))
  {
    hide Next, Stale;
    TimedRunProjects(t0, acts);
    TimedSnoc(t0, acts, RecoveryTick);
    RunSnoc(t0.s, Projected(t0, acts), Recover);
  }

  // ---------------------------------------------------------------- ninety seconds

  /** Worker 1 beat at time 0, claimed job 0 and died, and its row is still claimed. */
  predicate Dead(ts: TimedState, now: Time, recovery: Time) {
    && ts.s.db.now == now && ts.nextRecovery == recovery && ts.s.db.lastSeen == map[1 := 0] && ts.alive == map[]
    && 0 in ts.s.db.jobs && ts.s.db.jobs[0].status == Claimed && ts.s.db.jobs[0].worker == Some(1)
  }

  lemma {:induction false} DeadTick(ts: TimedState, now: Time, recovery: Time)
    requires Dead(ts, now, recovery) && now <= recovery
    ensures Dead(TimedNext(ts, Tick(recovery)), recovery, recovery)
  {
    AdvanceNext(ts.s, recovery);
  }

  /** Recovery leaves the row alone while the last beat is at most sixty seconds old. */
  lemma {:induction false} DeadRecovery(ts: TimedState, recovery: Time)
    requires Dead(ts, recovery, recovery) && recovery <= 60_000_000
    ensures Dead(TimedNext(ts, RecoveryTick), recovery, recovery + 30_000_000)
  {
    RecoverNext(ts.s);
  }

  lemma {:induction false} KillLeavesRow(m: nat)
    ensures var ts := TimedState(Grabbed(Opened(REQUEST), 1, 0), map[1 := Beats(Seconds(10), 0)], Seconds(30), m);
      Dead(TimedNext(ts, Kill(1)), 0, Seconds(30)) && TimedNext(ts, Kill(1)).s.tasks == map[]
  {
    CrashNext(Grabbed(Opened(REQUEST), 1, 0), 1);
  }

  lemma {:induction false} AfterKill(ts: TimedState)
    requires Dead(ts, 0, Seconds(30))
    ensures var checked := TimedNext(TimedNext(ts, Tick(30_000_000)), RecoveryTick);
      var late := TimedNext(TimedNext(checked, Tick(60_000_000)), RecoveryTick);
      Dead(TimedNext(late, Tick(90_000_000)), 90_000_000, 90_000_000)
  {
    hide TimedNext, Dead;
    DeadTick(ts, 0, 30_000_000);
    var a := TimedNext(ts, Tick(30_000_000));
    DeadRecovery(a, 30_000_000);
    var b := TimedNext(a, RecoveryTick);
    DeadTick(b, 30_000_000, 60_000_000);
    var c := TimedNext(b, Tick(60_000_000));
    DeadRecovery(c, 60_000_000);
    DeadTick(TimedNext(c, RecoveryTick), 60_000_000, 90_000_000);
  }

  /** The ninety seconds of DeadWorkersAreDetected are reached: in some timed run a dead worker, whose
      task died with it, still holds its job ninety seconds after its last beat. */
  lemma {:induction false} NinetySecondsAreReached(m: nat) returns (acts: seq<TimedAction>)
    requires m <= 5
    ensures var ts := TimedRun(Start0(m, Seconds(30)), acts);
      && TimedInitial(Start0(m, Seconds(30))) && 1 !in ts.alive && 1 in ts.s.db.lastSeen
      && 0 in ts.s.db.jobs && ts.s.db.jobs[0].Held() && ts.s.db.jobs[0].worker == Some(1)
      && ts.s.db.now == ts.s.db.lastSeen[1] + 90_000_000
  {
    var t0 := Start0(m, Seconds(30));
    var a0 := TimedOpening(m, Seconds(30));
    KillLeavesRow(m);
    var ts := TimedRun(t0, a0);
    AfterKill(TimedNext(ts, Kill(1)));
    hide TimedNext, Dead;
    TimedSnoc(t0, a0, Kill(1));
    var a1 := a0 + [Kill(1)];
    TimedSnoc(t0, a1, Tick(30_000_000));
    var a2 := a1 + [Tick(30_000_000)];
    TimedSnoc(t0, a2, RecoveryTick);
    var a3 := a2 + [RecoveryTick];
    TimedSnoc(t0, a3, Tick(60_000_000));
    var a4 := a3 + [Tick(60_000_000)];
    TimedSnoc(t0, a4, RecoveryTick);
    var a5 := a4 + [RecoveryTick];
    TimedSnoc(t0, a5, Tick(90_000_000));
    acts := a5 + [Tick(90_000_000)];
    DeadIsHeld(TimedRun(t0, acts));
  }

  lemma {:induction false} DeadIsHeld(ts: TimedState)
    requires Dead(ts, 90_000_000, 90_000_000)
    ensures 1 !in ts.alive && 1 in ts.s.db.lastSeen && ts.s.db.now == ts.s.db.lastSeen[1] + 90_000_000
    ensures 0 in ts.s.db.jobs && ts.s.db.jobs[0].Held() && ts.s.db.jobs[0].worker == Some(1)
  {
  }
}
