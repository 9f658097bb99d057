/** The Lua token bucket: which requests it admits, for arbitrary clocks, and why letting its
    two keys expire changes nothing. */
module RateLimit {
  import opened Domain

  datatype Limits = Limits(capacity: nat, refill: nat, cost: nat, ttl: nat)

  const LIMITS := Limits(60, 1, 1, 120)

  function Max(a: int, b: int): int {
    if a < b then b else a
  }

  // ---------------------------------------------------------------- the script over two keys

  /** A value written by SETEX; it is gone from `expires` on, on the server's clock. */
  datatype Entry = Entry(value: int, expires: int)

  datatype Keys = Keys(tokens: Option<Entry>, timestamp: Option<Entry>)

  function Get(e: Option<Entry>, clock: int): Option<int> {
    if e.Some? && clock < e.value.expires then Some(e.value.value) else None
  }

  /** The bucket's level when the request at `now` looks at it. */
  function Level(l: Limits, tokens: Option<int>, last: Option<int>, now: int): int {
    var t := if tokens.Some? then tokens.value else l.capacity;
    var since := if last.Some? then last.value else now;
    Min(l.capacity, t + Max(0, now - since) * l.refill)
  }

  // ---------------------------------------------------------------- a bucket that never forgets

  /** Tokens left after the requests at the given times; no time yet means a full bucket. */
  function TokensAfter(l: Limits, times: seq<int>): int
    decreases |times|, 1
  {
    if times == [] then l.capacity
    else
      var level := LevelAt(l, times);
      if level >= l.cost then level - l.cost else level
  }

  /** The level that the last of the requests finds. */
  function LevelAt(l: Limits, times: seq<int>): int
    requires times != []
    decreases |times|, 0
  {
    var n := |times| - 1;
    var jump := if n == 0 then 0 else Max(0, times[n] - times[n - 1]);
    Min(l.capacity, TokensAfter(l, times[..n]) + jump * l.refill)
  }

  /** Whether request n of the history is admitted. */
  function Admitted(l: Limits, times: seq<int>, n: nat): bool
    requires n < |times|
  {
    LevelAt(l, times[..n + 1]) >= l.cost
  }

  /** How many of the requests i .. n - 1 are admitted. */
  function AdmittedIn(l: Limits, times: seq<int>, i: nat, n: nat): nat
    requires i <= n <= |times|
    decreases n - i
  {
    if i == n then 0 else AdmittedIn(l, times, i, n - 1) + (if Admitted(l, times, n - 1) then 1 else 0)
  }

  /** The seconds by which the clock moved forward between requests i and n. */
  function Forward(times: seq<int>, i: nat, n: nat): nat
    requires i <= n < |times|
    decreases n - i
  {
    if i == n then 0 else Forward(times, i, n - 1) + Max(0, times[n] - times[n - 1])
  }

  /** What requests i .. n - 1 may consume before request n, if the bucket was full at i. */
  function Allowance(l: Limits, times: seq<int>, i: nat, n: nat): int
    requires i <= n < |times|
  {
    l.capacity + l.refill * Forward(times, i, n)
  }

  lemma {:induction false} LevelStep(l: Limits, times: seq<int>, n: nat)
    requires n + 1 < |times|
    ensures var before := LevelAt(l, times[..n + 1]);
      LevelAt(l, times[..n + 2])
        == Min(l.capacity,
               before - (if Admitted(l, times, n) then l.cost else 0) + Max(0, times[n + 1] - times[n]) * l.refill)
  {
    assert times[..n + 2][..n + 1] == times[..n + 1];
  }

  lemma {:induction false} AllowanceStep(l: Limits, times: seq<int>, i: nat, n: nat)
    requires i <= n && n + 1 < |times|
    ensures Allowance(l, times, i, n + 1) == Allowance(l, times, i, n) + Max(0, times[n + 1] - times[n]) * l.refill
    ensures l.cost * AdmittedIn(l, times, i, n + 1)
         == l.cost * AdmittedIn(l, times, i, n) + (if Admitted(l, times, n) then l.cost else 0)
  {
    var f, d := Forward(times, i, n), Max(0, times[n + 1] - times[n]);
    assert l.refill * (f + d) == l.refill * f + d * l.refill;
    var c := AdmittedIn(l, times, i, n);
    assert l.cost * (c + 1) == l.cost * c + l.cost;
  }

  /** The level is never above what any earlier full bucket would have left. */
  lemma {:induction false} LevelBelow(l: Limits, times: seq<int>, i: nat, n: nat)
    requires i <= n < |times|
    ensures LevelAt(l, times[..n + 1]) <= Allowance(l, times, i, n) - l.cost * AdmittedIn(l, times, i, n)
    decreases n
  {
    if i < n {
      LevelBelow(l, times, i, n - 1);
      LevelStep(l, times, n - 1);
      AllowanceStep(l, times, i, n - 1);
    }
  }

  /** ... and some earlier moment at which the bucket was full explains it exactly. */
  lemma {:induction false} LevelExplained(l: Limits, times: seq<int>, n: nat) returns (i: nat)
    requires n < |times|
    ensures i <= n && LevelAt(l, times[..n + 1]) == Allowance(l, times, i, n) - l.cost * AdmittedIn(l, times, i, n)
    decreases n
  {
    i := n;
    if n > 0 {
      LevelStep(l, times, n - 1);
      if LevelAt(l, times[..n + 1]) < l.capacity {
        i := LevelExplained(l, times, n - 1);
        AllowanceStep(l, times, i, n - 1);
      }
    } else {
      assert times[..1][..0] == [];
    }
  }

  lemma {:induction false} LevelNonNegative(l: Limits, times: seq<int>, n: nat)
    requires n < |times|
    ensures LevelAt(l, times[..n + 1]) >= 0
    decreases n
  {
    if n > 0 {
      LevelNonNegative(l, times, n - 1);
      LevelStep(l, times, n - 1);
      assert Max(0, times[n] - times[n - 1]) * l.refill >= 0;
    }
  }

  // ---------------------------------------------------------------- theorems

  /** No window that ends with request n would exceed its allowance if n were admitted. */
  predicate WithinEnvelope(l: Limits, times: seq<int>, n: nat)
    requires n < |times|
  {
    forall i | 0 <= i <= n :: l.cost * AdmittedIn(l, times, i, n) + l.cost <= Allowance(l, times, i, n)
  }

  /** The script is exactly the envelope: request n is admitted iff in no window that ends with
      it would the admitted cost exceed the capacity plus the refill, for any clock. */
  lemma {:induction false} AdmitsIffEnvelope(l: Limits, times: seq<int>, n: nat)
    requires n < |times|
    ensures Admitted(l, times, n) <==> WithinEnvelope(l, times, n)
  {
    if Admitted(l, times, n) {
      forall i | 0 <= i <= n ensures l.cost * AdmittedIn(l, times, i, n) + l.cost <= Allowance(l, times, i, n) {
        LevelBelow(l, times, i, n);
      }
    } else {
      var i := LevelExplained(l, times, n);
      assert l.cost * AdmittedIn(l, times, i, n) + l.cost > Allowance(l, times, i, n);
    }
  }

  /** Whatever the clocks of the API servers do, the admitted cost of a window is bounded by the
      capacity plus the refill of the forward clock jumps inside it. */
  lemma {:induction false} WindowBound(l: Limits, times: seq<int>, i: nat, n: nat)
    requires i < n <= |times|
    ensures l.cost * AdmittedIn(l, times, i, n) <= Allowance(l, times, i, n - 1)
  {
    LevelBelow(l, times, i, n - 1);
    LevelNonNegative(l, times, n - 1);
    var c := AdmittedIn(l, times, i, n - 1);
    assert l.cost * (c + 1) == l.cost * c + l.cost;
  }

  predicate NonDecreasing(times: seq<int>) {
    forall i, j | 0 <= i <= j < |times| :: times[i] <= times[j]
  }

  lemma {:induction false} ForwardIsElapsed(times: seq<int>, i: nat, n: nat)
    requires NonDecreasing(times) && i <= n < |times|
    ensures Forward(times, i, n) == times[n] - times[i]
    decreases n - i
  {
    if i < n {
      ForwardIsElapsed(times, i, n - 1);
    }
  }

  /** With one clock, at most 60 + (t - s) requests are admitted between the times s and t. */
  lemma {:induction false} AtMostSixtyPlusElapsed(times: seq<int>, i: nat, n: nat, s: int, t: int)
    requires NonDecreasing(times) && i < n <= |times| && s <= times[i] && times[n - 1] <= t
    ensures AdmittedIn(LIMITS, times, i, n) <= 60 + (t - s)
  {
    WindowBound(LIMITS, times, i, n);
    ForwardIsElapsed(times, i, n - 1);
  }

  /** A refusal is justified: some window that ends with the refused request is already
      saturated to the last token. */
  lemma {:induction false} RefusalIsJustified(l: Limits, times: seq<int>, n: nat) returns (i: nat)
    requires n < |times| && l.cost == 1 && !Admitted(l, times, n)
    ensures i <= n && AdmittedIn(l, times, i, n) == Allowance(l, times, i, n)
  {
    i := LevelExplained(l, times, n);
    LevelNonNegative(l, times, n);
  }

  /** The middleware's constants: with one clock a request is admitted iff no window that ends with it
      holds sixty admitted requests plus one for every second of its length. */
  lemma {:induction false} MiddlewareAdmitsIff(times: seq<int>, n: nat)
    requires NonDecreasing(times) && n < |times|
    ensures Admitted(LIMITS, times, n) <==>
      forall i | 0 <= i <= n :: AdmittedIn(LIMITS, times, i, n) < 60 + (times[n] - times[i])
  {
    AdmitsIffEnvelope(LIMITS, times, n);
    forall i | 0 <= i <= n ensures Allowance(LIMITS, times, i, n) == 60 + (times[n] - times[i]) {
      ForwardIsElapsed(times, i, n);
    }
  }

  /** A minute of drift is all that the middleware's expiry tolerates. */
  lemma {:induction false} MiddlewareDrift(skew: nat)
    ensures Outlives(LIMITS, skew) <==> skew <= 60
  {
  }

  // ---------------------------------------------------------------- expiry

  /** A request as the script sees it: the caller's clock and the Redis server's. */
  datatype Request = Request(now: int, clock: int)

  /** The two clocks advance together up to `skew` seconds between successive requests. */
  predicate Drift(l: Limits, reqs: seq<Request>, skew: nat) {
    forall i | 0 <= i < |reqs| - 1 ::
      reqs[i + 1].now - reqs[i].now >= (reqs[i + 1].clock - reqs[i].clock) - skew
  }

  /** A bucket that expires would have been full again, less the drift. */
  predicate Outlives(l: Limits, skew: nat) {
    skew <= l.ttl && (l.ttl - skew) * l.refill >= l.capacity
  }

  function Nows(reqs: seq<Request>): (r: seq<int>)
    ensures |r| == |reqs| && forall i | 0 <= i < |r| :: r[i] == reqs[i].now
  {
    if reqs == [] then [] else Nows(reqs[..|reqs| - 1]) + [reqs[|reqs| - 1].now]
  }

  /** The keys after the requests. */
  function KeysAfter(l: Limits, reqs: seq<Request>): Keys
    decreases |reqs|, 1
  {
    if reqs == [] then Keys(None, None)
    else
      var n := |reqs| - 1;
      var r := reqs[n];
      var level := KeyLevel(l, reqs);
      Keys(Some(Entry(if level >= l.cost then level - l.cost else level, r.clock + l.ttl)),
           Some(Entry(r.now, r.clock + l.ttl)))
  }

  /** The level that the script computes for the last request. */
  function KeyLevel(l: Limits, reqs: seq<Request>): int
    requires reqs != []
    decreases |reqs|, 0
  {
    var n := |reqs| - 1;
    var keys := KeysAfter(l, reqs[..n]);
    Level(l, Get(keys.tokens, reqs[n].clock), Get(keys.timestamp, reqs[n].clock), reqs[n].now)
  }

  /** The expiring keys decide like the bucket that never forgets, because a bucket that expires
      would have been full again anyway. */
  lemma {:induction false} ExpiryChangesNothing(l: Limits, reqs: seq<Request>, skew: nat)
    requires Drift(l, reqs, skew) && Outlives(l, skew)
    ensures reqs != [] ==>
      && KeyLevel(l, reqs) == LevelAt(l, Nows(reqs))
      && KeysAfter(l, reqs).tokens.value.value == TokensAfter(l, Nows(reqs)) >= 0
    decreases |reqs|
  {
    if reqs != [] {
      var n := |reqs| - 1;
      var prefix := reqs[..n];
      assert Nows(reqs)[..n] == Nows(prefix);
      if n > 0 {
        assert Drift(l, prefix, skew);
        ExpiryChangesNothing(l, prefix, skew);
        ExpiryStep(l, reqs, skew);
      }
    }
  }

  lemma {:induction false} ExpiryStep(l: Limits, reqs: seq<Request>, skew: nat)
    requires |reqs| >= 2 && Drift(l, reqs, skew) && Outlives(l, skew)
    requires KeysAfter(l, reqs[..|reqs| - 1]).tokens.Some?
    requires KeysAfter(l, reqs[..|reqs| - 1]).tokens.value.value == TokensAfter(l, Nows(reqs[..|reqs| - 1])) >= 0
    ensures KeyLevel(l, reqs) == LevelAt(l, Nows(reqs)) >= 0
  {
    var n := |reqs| - 1;
    var prefix := reqs[..n];
    var prev, cur := reqs[n - 1], reqs[n];
    assert Nows(reqs)[..n] == Nows(prefix);
    assert prefix[n - 1] == prev;
    var keys := KeysAfter(l, prefix);
    var tokens := keys.tokens.value.value;
    assert Max(0, cur.now - prev.now) * l.refill >= 0;
    if cur.clock >= prev.clock + l.ttl {
      assert cur.now - prev.now >= l.ttl - skew by {
        assert reqs[n - 1 + 1].now - reqs[n - 1].now >= (reqs[n - 1 + 1].clock - reqs[n - 1].clock) - skew;
      }
      Scale(l.ttl - skew, cur.now - prev.now, l.refill);
    }
  }

  lemma {:induction false} Scale(a: int, b: int, c: nat)
    requires a <= b
    ensures a * c <= b * c
  {
  }

  /** The script over the two expiring keys is the envelope. */
  lemma {:induction false} ScriptIsEnvelope(l: Limits, reqs: seq<Request>, skew: nat)
    requires reqs != [] && Drift(l, reqs, skew) && Outlives(l, skew)
    ensures (KeyLevel(l, reqs) >= l.cost) <==> WithinEnvelope(l, Nows(reqs), |reqs| - 1)
  {
    ExpiryChangesNothing(l, reqs, skew);
    AdmitsIffEnvelope(l, Nows(reqs), |reqs| - 1);
    assert Nows(reqs)[..|reqs|] == Nows(reqs);
  }

  /** For the constants of the middleware the clocks may drift by a minute between requests. */
  lemma {:induction false} MiddlewareNeverForgets(reqs: seq<Request>)
    requires Drift(LIMITS, reqs, 60) && reqs != []
    ensures KeyLevel(LIMITS, reqs) == LevelAt(LIMITS, Nows(reqs))
  {
    ExpiryChangesNothing(LIMITS, reqs, 60);
  }

  // ---------------------------------------------------------------- the middleware

  class RateLimiter {
    const limits: Limits
    var tokens: Option<Entry>
    var timestamp: Option<Entry>
    /** The requests that ran the script, in order. */
    ghost var requests: seq<Request>

    ghost predicate Valid()
      reads this
    {
      KeysAfter(limits, requests) == Keys(tokens, timestamp)
    }

    constructor (limits: Limits)
      ensures Valid() && this.limits == limits && requests == []
    {
      this.limits := limits;
      tokens, timestamp := None, None;
      requests := [];
    }

    /** One run of the script: `now` is the API server's clock, `clock` the Redis server's. Within the
        drift that the ttl allows it admits exactly what the envelope allows. */
    method Invoke(now: int, clock: int) returns (allowed: bool)
      requires Valid()
      modifies this
      ensures Valid() && requests == old(requests) + [Request(now, clock)]
      ensures var level := Level(limits, Get(old(tokens), clock), Get(old(timestamp), clock), now);
        && level == KeyLevel(limits, requests) && allowed == (level >= limits.cost)
        && tokens == Some(Entry(if allowed then level - limits.cost else level, clock + limits.ttl))
        && timestamp == Some(Entry(now, clock + limits.ttl))
      ensures forall skew: nat :: Drift(limits, requests, skew) && Outlives(limits, skew) ==>
                allowed == WithinEnvelope(limits, Nows(requests), |requests| - 1)
    {
      hide WithinEnvelope, Drift, Outlives, LevelAt, TokensAfter;
      ghost var before := requests;
      requests := requests + [Request(now, clock)];
      assert requests[..|requests| - 1] == before;
      var level := limits.capacity;
      if tokens.Some? && clock < tokens.value.expires {
        level := tokens.value.value;
      }
      var lastRefill := now;
      if timestamp.Some? && clock < timestamp.value.expires {
        lastRefill := timestamp.value.value;
      }
      var elapsed := Max(0, now - lastRefill);
      level := Min(limits.capacity, level + elapsed * limits.refill);
      assert level == KeyLevel(limits, requests);
      allowed := false;
      if level >= limits.cost {
        level := level - limits.cost;
        allowed := true;
      }
      tokens := Some(Entry(level, clock + limits.ttl));
      timestamp := Some(Entry(now, clock + limits.ttl));
      forall skew: nat | Drift(limits, requests, skew) && Outlives(limits, skew)
        ensures allowed == WithinEnvelope(limits, Nows(requests), |requests| - 1)
      {
        ScriptIsEnvelope(limits, requests, skew);
      }
    }

    /** The middleware lets the request through when Redis cannot be asked. */
    method Admit(reachable: bool, now: int, clock: int) returns (pass: bool)
      requires Valid()
      modifies this
      ensures Valid()
      ensures !reachable ==> pass && requests == old(requests) && tokens == old(tokens) && timestamp == old(timestamp)
      ensures reachable ==>
        requests == old(requests) + [Request(now, clock)] && pass == (KeyLevel(limits, requests) >= limits.cost)
    {
      if !reachable {
        return true;
      }
      pass := Invoke(now, clock);
    }
  }
}
