/** The circuit breaker: every interleaving of concurrent calls as a small-step machine, and
    uncancelled sequential use as an object that refines a history. */
module CircuitBreaker {
  import opened Domain

  datatype CircuitState = Closed | Open | HalfOpen

  // ---------------------------------------------------------------- concurrent calls

  type CallId = nat

  /** Where a call is: waiting for its future; about to take the state lock to close or to open
      the circuit; or holding the state lock, with Open stored and the time not yet stored. */
  datatype Phase = Awaiting | Closing | Tripping | Opening

  /** now - the clock; lock - the call that holds the state lock between its steps. */
  datatype Breaker = Breaker(
    state: CircuitState, failures: nat, lastFailure: Option<Time>, lock: Option<CallId>,
    calls: map<CallId, Phase>, now: Time, threshold: nat, timeout: int)

  datatype Move =
    | Elapse(to: Time)
    | Check(call: CallId)
    | Resolve(call: CallId, ok: bool)
    | Close(call: CallId)
    | Trip(call: CallId)
    | Stamp(call: CallId)
    | Cancel(call: CallId)

  predicate InPhase(b: Breaker, c: CallId, p: Phase) {
    c in b.calls && b.calls[c] == p
  }

  predicate CanMove(b: Breaker, m: Move) {
    match m
    case Elapse(to) => to >= b.now
    case Check(c) => c !in b.calls && b.lock.None?
    case Resolve(c, _) => InPhase(b, c, Awaiting)
    case Close(c) => InPhase(b, c, Closing) && b.lock.None?
    case Trip(c) => InPhase(b, c, Tripping) && b.lock.None?
    case Stamp(c) => InPhase(b, c, Opening)
    case Cancel(c) => c in b.calls
  }

  /** The check under the state lock lets the call through. */
  predicate LetsThrough(b: Breaker) {
    b.state == Open ==> b.lastFailure.Some? && b.now - b.lastFailure.value >= b.timeout
  }

  function MoveOf(b: Breaker, m: Move): Breaker {
    if !CanMove(b, m) then b else
    match m
    case Elapse(to) => b.(now := to)
    case Check(c) =>
      if LetsThrough(b) then
        b.(state := if b.state == Open then HalfOpen else b.state, calls := b.calls[c := Awaiting])
      else b
    case Resolve(c, ok) =>
      if ok then b.(failures := 0, calls := b.calls[c := Closing])
      else b.(failures := b.failures + 1,
              calls := if b.failures + 1 >= b.threshold then b.calls[c := Tripping] else b.calls - {c})
    case Close(c) => b.(state := Closed, calls := b.calls - {c})
    case Trip(c) => b.(state := Open, lock := Some(c), calls := b.calls[c := Opening])
    case Stamp(c) => b.(lastFailure := Some(b.now), lock := None, calls := b.calls - {c})
    case Cancel(c) =>
      b.(lock := if b.calls[c].Opening? then None else b.lock, calls := b.calls - {c})
  }

  function Moves(b: Breaker, ms: seq<Move>): Breaker {
    if ms == [] then b else MoveOf(Moves(b, ms[..|ms| - 1]), ms[|ms| - 1])
  }

  predicate Fresh(b: Breaker) {
    b.state == Closed && b.failures == 0 && b.lastFailure.None? && b.lock.None? && b.calls == map[]
  }

  /** The lock is held exactly by the one call that is opening the circuit, and whenever the lock
      is free an open circuit has a recorded failure time. */
  predicate LockLaw(b: Breaker) {
    && (b.lock.Some? ==> InPhase(b, b.lock.value, Opening) && b.state == Open)
    && (forall c | c in b.calls && b.calls[c].Opening? :: b.lock == Some(c))
    && (b.lock.None? && b.state == Open ==> b.lastFailure.Some?)
  }

  /** The call is dropped between storing Open and storing the first failure time. */
  predicate DroppedMidway(b: Breaker, m: Move) {
    m.Cancel? && InPhase(b, m.call, Opening) && b.lastFailure.None?
  }

  /** Calls do not wait for each other except for the lock: while it is free every call in flight can
      move, and a new one can be checked; the call that holds it can always release it. */
  lemma {:induction false} CallsAreFree(b: Breaker, c: CallId)
    requires LockLaw(b)
    ensures c !in b.calls && b.lock.None? ==> CanMove(b, Check(c))
    ensures c in b.calls && b.lock.None? ==> CanMove(b, Resolve(c, true)) || CanMove(b, Close(c)) || CanMove(b, Trip(c))
    ensures c in b.calls && b.calls[c] == Awaiting ==> CanMove(b, Resolve(c, true)) && CanMove(b, Resolve(c, false))
    ensures b.lock == Some(c) ==> CanMove(b, Stamp(c)) && CanMove(b, Cancel(c))
  {
  }

  /** A move keeps the lock law iff it does not drop a call midway. */
  lemma {:induction false} LockLawKeptIff(b: Breaker, m: Move)
    requires LockLaw(b)
    ensures LockLaw(MoveOf(b, m)) <==> !DroppedMidway(b, m)
  {
    if m.Cancel? && InPhase(b, m.call, Opening) {
      assert b.lock == Some(m.call);
    }
  }

  /** Under every interleaving of calls that are not dropped midway, the branch that rejects an
      open circuit without a failure time is dead. */
  lemma {:induction false} OpenHasFailureTime(b: Breaker, ms: seq<Move>)
    requires Fresh(b)
    requires forall k | 0 <= k < |ms| :: !DroppedMidway(Moves(b, ms[..k]), ms[k])
    ensures LockLaw(Moves(b, ms))
    ensures forall c :: CanMove(Moves(b, ms), Check(c)) && Moves(b, ms).state == Open ==> Moves(b, ms).lastFailure.Some?
    decreases |ms|
  {
    if ms != [] {
      var n := |ms| - 1;
      forall k | 0 <= k < n ensures !DroppedMidway(Moves(b, ms[..n][..k]), ms[..n][k]) {
        assert ms[..n][..k] == ms[..k];
      }
      OpenHasFailureTime(b, ms[..n]);
      LockLawKeptIff(Moves(b, ms[..n]), ms[n]);
    }
  }

  /** A new call would get through now. */
  predicate Admits(b: Breaker) {
    b.lock.None? && LetsThrough(b)
  }

  /** Open, without a failure time, and with no call in flight that could change that. */
  predicate Dead(b: Breaker) {
    b.state == Open && b.lastFailure.None? && b.lock.None? && b.calls == map[]
  }

  lemma {:induction false} DeadForEver(b: Breaker, ms: seq<Move>)
    requires Dead(b)
    ensures Dead(Moves(b, ms)) && !Admits(Moves(b, ms))
    decreases |ms|
  {
    if ms != [] {
      DeadForEver(b, ms[..|ms| - 1]);
    }
  }

  lemma {:induction false} MovesSnoc(b: Breaker, ms: seq<Move>, m: Move)
    ensures Moves(b, ms + [m]) == MoveOf(Moves(b, ms), m)
  {
    assert (ms + [m])[..|ms|] == ms;
  }

  /** A call in flight can reopen the way: by succeeding, or by stamping a failure time that gets old. */
  lemma {:induction false} InFlightRevives(b: Breaker, d: CallId) returns (ms: seq<Move>)
    requires d in b.calls && !b.calls[d].Opening? && b.lock.None?
    ensures Admits(Moves(b, ms))
  {
    match b.calls[d]
    case Awaiting =>
      ms := [] + [Resolve(d, true)] + [Close(d)];
      MovesSnoc(b, [], Resolve(d, true));
      MovesSnoc(b, [Resolve(d, true)], Close(d));
    case Closing =>
      ms := [] + [Close(d)];
      MovesSnoc(b, [], Close(d));
    case Tripping =>
      var late := if b.timeout > 0 then b.now + b.timeout else b.now;
      ms := [] + [Trip(d)] + [Stamp(d)] + [Elapse(late)];
      MovesSnoc(b, [], Trip(d));
      MovesSnoc(b, [Trip(d)], Stamp(d));
      MovesSnoc(b, [Trip(d)] + [Stamp(d)], Elapse(late));
  }

  /** Whatever happens, no call gets through. */
  ghost predicate BlocksForEver(b: Breaker) {
    forall ms :: !Admits(Moves(b, ms))
  }

  /** A call that is dropped between storing Open and storing the first failure time leaves the
      circuit open for ever iff it was the only call in flight. */
  lemma {:induction false} DroppedCallBlocksIff(b: Breaker, c: CallId)
    requires LockLaw(b) && DroppedMidway(b, Cancel(c))
    ensures BlocksForEver(MoveOf(b, Cancel(c))) <==> b.calls.Keys == {c}
  {
    var dropped := MoveOf(b, Cancel(c));
    assert b.lock == Some(c);
    if b.calls.Keys == {c} {
      forall ms ensures !Admits(Moves(dropped, ms)) {
        DeadForEver(dropped, ms);
      }
    } else {
      var d :| d in b.calls && d != c;
      var ms := InFlightRevives(dropped, d);
      assert Admits(Moves(dropped, ms));
    }
  }

  lemma {:induction false} OneFailure(b: Breaker, i: nat)
    requires Fresh(b) && i + 1 < b.threshold
    ensures MoveOf(MoveOf(b.(failures := i), Check(0)), Resolve(0, false)) == b.(failures := i + 1)
  {
    assert b.calls[0 := Awaiting] - {0} == b.calls;
  }

  /** n failing calls, one after the other, below the threshold. */
  lemma {:induction false} Failures(b: Breaker, n: nat) returns (ms: seq<Move>)
    requires Fresh(b) && n < Needed(b.threshold)
    ensures Moves(b, ms) == b.(failures := n)
  {
    hide MoveOf;
    ms := [];
    for i := 0 to n
      invariant Moves(b, ms) == b.(failures := i)
    {
      MovesSnoc(b, ms, Check(0));
      MovesSnoc(b, ms + [Check(0)], Resolve(0, false));
      OneFailure(b, i);
      ms := ms + [Check(0)] + [Resolve(0, false)];
    }
  }

  /** Every breaker can get there: from its fresh state some run ends with a drop after which the
      circuit stays open for ever. */
  lemma {:induction false} EveryBreakerCanDie(b: Breaker) returns (ms: seq<Move>)
    requires Fresh(b)
    ensures CanMove(Moves(b, ms), Cancel(0)) && DroppedMidway(Moves(b, ms), Cancel(0))
    ensures BlocksForEver(MoveOf(Moves(b, ms), Cancel(0)))
  {
    ms := Failures(b, Needed(b.threshold) - 1);
    MovesSnoc(b, ms, Check(0));
    MovesSnoc(b, ms + [Check(0)], Resolve(0, false));
    MovesSnoc(b, ms + [Check(0)] + [Resolve(0, false)], Trip(0));
    ms := ms + [Check(0)] + [Resolve(0, false)] + [Trip(0)];
    DroppedCallBlocksIff(Moves(b, ms), 0);
  }

  // ---------------------------------------------------------------- sequential calls

  /** A call that was let through: whether it succeeded and when it finished. */
  datatype Finished = Finished(ok: bool, at: Time)

  function TrailingFailures(h: seq<Finished>): nat {
    if h == [] || h[|h| - 1].ok then 0 else TrailingFailures(h[..|h| - 1]) + 1
  }

  lemma {:induction false} TrailingAppend(h: seq<Finished>, f: Finished)
    ensures TrailingFailures(h + [f]) == if f.ok then 0 else TrailingFailures(h) + 1
  {
    assert (h + [f])[..|h|] == h;
  }

  /** With a threshold of zero the first failure opens the circuit too. */
  function Needed(threshold: nat): nat {
    if threshold == 0 then 1 else threshold
  }

  /** The specification: enough trailing failures, the last of them younger than the timeout. */
  predicate Rejects(h: seq<Finished>, threshold: nat, timeout: int, now: Time) {
    TrailingFailures(h) >= Needed(threshold) && now - h[|h| - 1].at < timeout
  }

  /** The circuit has as many trailing failures as it counts, which is enough exactly when they are the
      last calls that went through. */
  lemma {:induction false} TrailingExactly(h: seq<Finished>, n: nat)
    ensures TrailingFailures(h) >= n <==> n <= |h| && forall i | |h| - n <= i < |h| :: !h[i].ok
    decreases |h|
  {
    if n > 0 && h != [] && !h[|h| - 1].ok {
      var m := |h| - 1;
      TrailingExactly(h[..m], n - 1);
      assert forall i | 0 <= i < m :: h[..m][i] == h[i];
    }
  }

  /** The concurrent machine between two calls, with the calls h behind it. */
  predicate Between(b: Breaker, h: seq<Finished>) {
    && b.calls == map[] && b.lock.None? && b.failures == TrailingFailures(h)
    && b.state == (if b.failures >= Needed(b.threshold) then Open else Closed)
    && (b.state == Open ==> b.lastFailure == Some(h[|h| - 1].at))
  }

  /** One call at a time; moves that its outcome does not allow change nothing. */
  function CallMoves(c: CallId, now: Time, ok: bool, finishedAt: Time): seq<Move> {
    [] + [Elapse(now)] + [Check(c)] + [Elapse(finishedAt)] + [Resolve(c, ok)] + [Close(c)] + [Trip(c)] + [Stamp(c)]
  }

  /** Used by one call after the other, the concurrent machine rejects a call iff the history says so. */
  lemma {:induction false} SequentialMachine(
    b: Breaker, h: seq<Finished>, c: CallId, now: Time, ok: bool, finishedAt: Time)
    requires Between(b, h) && b.now <= now <= finishedAt
    ensures var b' := Moves(b, CallMoves(c, now, ok, finishedAt));
      && b'.now == finishedAt && b'.threshold == b.threshold && b'.timeout == b.timeout
      && (Rejects(h, b.threshold, b.timeout, now) ==> b' == b.(now := finishedAt))
      && (!Rejects(h, b.threshold, b.timeout, now) ==> Between(b', h + [Finished(ok, finishedAt)]))
  {
    var ms := [];
    assert Moves(b, ms) == b;
    MovesSnoc(b, ms, Elapse(now));
    ms := ms + [Elapse(now)];
    MovesSnoc(b, ms, Check(c));
    ms := ms + [Check(c)];
    MovesSnoc(b, ms, Elapse(finishedAt));
    ms := ms + [Elapse(finishedAt)];
    MovesSnoc(b, ms, Resolve(c, ok));
    ms := ms + [Resolve(c, ok)];
    MovesSnoc(b, ms, Close(c));
    ms := ms + [Close(c)];
    MovesSnoc(b, ms, Trip(c));
    ms := ms + [Trip(c)];
    MovesSnoc(b, ms, Stamp(c));
    TrailingAppend(h, Finished(ok, finishedAt));
    hide Moves, TrailingFailures;
    CallEnds(b, h, c, now, ok, finishedAt);
  }

  lemma {:induction false} CallEnds(b: Breaker, h: seq<Finished>, c: CallId, now: Time, ok: bool, finishedAt: Time)
    requires Between(b, h) && b.now <= now <= finishedAt
    ensures var b1 := MoveOf(MoveOf(MoveOf(b, Elapse(now)), Check(c)), Elapse(finishedAt));
      var b' := MoveOf(MoveOf(MoveOf(MoveOf(b1, Resolve(c, ok)), Close(c)), Trip(c)), Stamp(c));
      && b'.now == finishedAt && b'.threshold == b.threshold && b'.timeout == b.timeout
      && (Rejects(h, b.threshold, b.timeout, now) ==> b' == b.(now := finishedAt))
      && (!Rejects(h, b.threshold, b.timeout, now) ==> Between(b', h + [Finished(ok, finishedAt)]))
  {
    hide TrailingFailures, MoveOf;
    CallBegins(b, h, c, now, finishedAt);
    if Rejects(h, b.threshold, b.timeout, now) {
      AbsentCall(b.(now := finishedAt), c, ok);
    } else {
      TrailingAppend(h, Finished(ok, finishedAt));
      PassedCall(Through(b, c, finishedAt), c, ok);
    }
  }

  /** The machine while the call c awaits its future. */
  function Through(b: Breaker, c: CallId, finishedAt: Time): Breaker {
    b.(now := finishedAt, calls := map[c := Awaiting], state := if b.state == Open then HalfOpen else b.state)
  }

  lemma {:induction false} CallBegins(b: Breaker, h: seq<Finished>, c: CallId, now: Time, finishedAt: Time)
    requires Between(b, h) && b.now <= now <= finishedAt
    ensures MoveOf(MoveOf(MoveOf(b, Elapse(now)), Check(c)), Elapse(finishedAt))
         == if Rejects(h, b.threshold, b.timeout, now) then b.(now := finishedAt) else Through(b, c, finishedAt)
  {
    hide TrailingFailures;
    assert b.calls[c := Awaiting] == map[c := Awaiting];
  }

  lemma {:induction false} AbsentCall(b: Breaker, c: CallId, ok: bool)
    requires c !in b.calls
    ensures MoveOf(MoveOf(MoveOf(MoveOf(b, Resolve(c, ok)), Close(c)), Trip(c)), Stamp(c)) == b
  {
  }

  lemma {:induction false} PassedCall(b: Breaker, c: CallId, ok: bool)
    requires b.calls == map[c := Awaiting] && b.lock.None?
    ensures MoveOf(MoveOf(MoveOf(MoveOf(b, Resolve(c, ok)), Close(c)), Trip(c)), Stamp(c)) ==
      if ok then b.(failures := 0, state := Closed, calls := map[])
      else if b.failures + 1 >= b.threshold then
        b.(failures := b.failures + 1, state := Open, lastFailure := Some(b.now), calls := map[])
      else b.(failures := b.failures + 1, calls := map[])
  {
    var resolved := MoveOf(b, Resolve(c, ok));
    if ok {
      assert resolved == b.(failures := 0, calls := map[c := Closing]);
      assert MoveOf(resolved, Close(c)).calls == map[];
    } else if b.failures + 1 >= b.threshold {
      assert resolved == b.(failures := b.failures + 1, calls := map[c := Tripping]);
      assert MoveOf(resolved, Close(c)) == resolved;
      var tripped := MoveOf(resolved, Trip(c));
      assert tripped == resolved.(state := Open, lock := Some(c), calls := map[c := Opening]);
      assert MoveOf(tripped, Stamp(c)).calls == map[];
    } else {
      assert resolved.calls == map[];
    }
  }

  datatype CallResult = Rejected | Passed(ok: bool)

  class Guard {
    const threshold: nat
    const timeout: int
    var state: CircuitState
    var failureCount: nat
    var lastFailureAt: Option<Time>
    ghost var history: seq<Finished>

    ghost predicate Valid()
      reads this
    {
      && failureCount == TrailingFailures(history)
      && (state == if failureCount >= Needed(threshold) then Open else Closed)
      && (state == Open ==> lastFailureAt == Some(history[|history| - 1].at))
    }

    constructor (threshold: nat, timeout: int)
      ensures Valid() && history == [] && this.threshold == threshold && this.timeout == timeout
    {
      this.threshold, this.timeout := threshold, timeout;
      state, failureCount, lastFailureAt, history := Closed, 0, None, [];
    }

    /** One call, run to its end before the next: `ok` is what the guarded future returns and
        `finishedAt` when. It is rejected iff the history says so. */
    method Call(now: Time, ok: bool, finishedAt: Time) returns (result: CallResult)
      requires Valid() && now <= finishedAt
      modifies this
      ensures Valid()
      ensures result.Rejected? <==> old(Rejects(history, threshold, timeout, now))
      ensures result == Rejected ==> history == old(history)
      ensures result != Rejected ==> result == Passed(ok) && history == old(history) + [Finished(ok, finishedAt)]
    {
      hide TrailingFailures;
      if state == Open {
        if lastFailureAt.None? || now - lastFailureAt.value < timeout {
          return Rejected;
        }
        state := HalfOpen;
      }
      TrailingAppend(history, Finished(ok, finishedAt));
      history := history + [Finished(ok, finishedAt)];
      if ok {
        failureCount := 0;
        state := Closed;
        return Passed(true);
      }
      failureCount := failureCount + 1;
      if failureCount >= threshold {
        state := Open;
        lastFailureAt := Some(finishedAt);
      }
      return Passed(false);
    }
  }

  /** A probe that fails reopens the circuit at once, for a full timeout; one that succeeds
      closes it until the threshold is reached again. */
  lemma {:induction false} ProbeDecides(h: seq<Finished>, threshold: nat, timeout: int, probe: Finished, now: Time)
    requires TrailingFailures(h) >= Needed(threshold)
    ensures Rejects(h + [probe], threshold, timeout, now) <==> !probe.ok && now - probe.at < timeout
  {
    assert (h + [probe])[..|h|] == h;
  }

  lemma {:induction false} TrailingAreFailures(h: seq<Finished>, i: nat)
    requires i < TrailingFailures(h)
    ensures i < |h| && !h[|h| - 1 - i].ok
    decreases |h|
  {
    if i > 0 {
      TrailingAreFailures(h[..|h| - 1], i - 1);
    }
  }

  /** A rejection means that the last `threshold` calls that went through all failed. */
  lemma {:induction false} RejectionMeansFailures(h: seq<Finished>, threshold: nat, timeout: int, now: Time)
    requires Rejects(h, threshold, timeout, now)
    ensures |h| >= Needed(threshold) && forall i | |h| - Needed(threshold) <= i < |h| :: !h[i].ok
  {
    TrailingAreFailures(h, Needed(threshold) - 1);
    forall i | |h| - Needed(threshold) <= i < |h| ensures !h[i].ok {
      TrailingAreFailures(h, |h| - 1 - i);
    }
  }
}
