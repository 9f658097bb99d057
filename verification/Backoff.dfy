/** Retry delays: the configurable policy and the executor's built-in default. */
module Backoff {
  import opened Domain

  const I64_MAX: int := 0x7fff_ffff_ffff_ffff

  function Pow(b: nat, e: nat): nat {
    if e == 0 then 1 else b * Pow(b, e - 1)
  }

  function Times(x: real, y: real): real {
    x * y
  }

  function RealPow(b: real, e: nat): real {
    if e == 0 then 1.0 else Times(b, RealPow(b, e - 1))
  }

  /** A cast of a float to an integer rounds toward zero ... */
  function Truncate(x: real): int {
    if x >= 0.0 then x.Floor else -(-x).Floor
  }

  /** ... and saturates. */
  function Saturate(x: int): int {
    if x > I64_MAX then I64_MAX else if x < -I64_MAX - 1 then -I64_MAX - 1 else x
  }

  function Multiplier(p: RetryPolicy): real {
    if p.multiplier.Some? then p.multiplier.value else 2.0
  }

  /** The exponential delay before the cap. */
  function Uncapped(p: RetryPolicy, attempt: int): int {
    Saturate(Truncate(Times(p.baseDelay as real, RealPow(Multiplier(p), if attempt < 1 then 0 else attempt - 1))))
  }

  function NextDelaySeconds(p: RetryPolicy, attempt: int): int {
    match p.strategy
    case Fixed => p.baseDelay
    case Linear => p.baseDelay * attempt
    case Exponential =>
      if p.maxDelay.Some? then Min(Uncapped(p, attempt), p.maxDelay.value) else Uncapped(p, attempt)
  }

  /** d is the delay of the policy after the given attempt: constant, growing by the base, or growing by
      the multiplier up to the cap. */
  predicate PolicyDelay(p: RetryPolicy, attempt: int, d: int) {
    && (p.strategy == Fixed ==> d == p.baseDelay)
    && (p.strategy == Linear ==> d == p.baseDelay * attempt)
    && (p.strategy == Exponential && p.maxDelay.Some? ==> d == Min(Uncapped(p, attempt), p.maxDelay.value))
    && (p.strategy == Exponential && p.maxDelay.None? ==> d == Uncapped(p, attempt))
  }

  /** The default of the executor. None: an i64 operation overflowed, which aborts the task. */
  function DefaultDelay(attempt: int): Option<int> {
    var exponent := if attempt - 1 < 0 then 0 else attempt - 1;
    var power := Pow(2, exponent);
    if power > I64_MAX || 10 * power > I64_MAX then None else Some(Min(10 * power, 300))
  }

  /** The row the migration seeds. */
  const SEEDED_POLICY := RetryPolicy(Exponential, 10, Some(300), Some(2.0))

  lemma {:induction false} PowMonotone(a: nat, b: nat)
    requires a <= b
    ensures Pow(2, a) <= Pow(2, b)
    decreases b
  {
    if a < b {
      PowMonotone(a, b - 1);
    }
  }

  lemma {:induction false} PowersOfTwo()
    ensures Pow(2, 4) == 16 && Pow(2, 5) == 32 && Pow(2, 59) == 0x0800_0000_0000_0000
    ensures Pow(2, 60) == 0x1000_0000_0000_0000
  {
    assert Pow(2, 10) == 1024;
    PowAdd(10, 10); PowAdd(20, 20); PowAdd(40, 10); PowAdd(50, 9); PowAdd(50, 10);
    assert Pow(2, 9) == 512;
  }

  lemma {:induction false} PowAdd(a: nat, b: nat)
    ensures Pow(2, a + b) == Pow(2, a) * Pow(2, b)
    decreases b
  {
    if b > 0 {
      PowAdd(a, b - 1);
      calc {
        Pow(2, a + b);
        2 * Pow(2, a + (b - 1));
        2 * (Pow(2, a) * Pow(2, b - 1));
        Pow(2, a) * (2 * Pow(2, b - 1));
      }
    }
  }

  lemma {:induction false} RealPowOfTwo(e: nat)
    ensures RealPow(2.0, e) == Pow(2, e) as real
  {
    if e > 0 {
      RealPowOfTwo(e - 1);
    }
  }

  /** The default is the seeded policy, and it is computed without overflow
      exactly for the first sixty attempts. */
  lemma {:induction false} DefaultIsSeededPolicy(attempt: int)
    requires attempt >= 1
    ensures DefaultDelay(attempt).Some? <==> attempt <= 60
    ensures attempt <= 60 ==> DefaultDelay(attempt) == Some(NextDelaySeconds(SEEDED_POLICY, attempt))
    ensures attempt > 60 ==> NextDelaySeconds(SEEDED_POLICY, attempt) == 300
  {
    PowersOfTwo();
    RealPowOfTwo(attempt - 1);
    assert 10.0 * (Pow(2, attempt - 1) as real) == (10 * Pow(2, attempt - 1)) as real;
    if attempt <= 60 {
      PowMonotone(attempt - 1, 59);
    } else {
      PowMonotone(60, attempt - 1);
    }
  }

  /** Closed form: 10, 20, 40, 80, 160, then the cap for ever. */
  lemma {:induction false} DefaultDelayShape(attempt: int)
    requires 1 <= attempt <= 60
    ensures var d := DefaultDelay(attempt);
      && d.Some?
      && (attempt <= 5 ==> d.value == 10 * Pow(2, attempt - 1) <= 160)
      && (attempt >= 6 ==> d.value == 300)
  {
    DefaultIsSeededPolicy(attempt);
    PowersOfTwo();
    if attempt <= 5 {
      PowMonotone(attempt - 1, 4);
    } else {
      PowMonotone(5, attempt - 1);
    }
  }

  lemma {:induction false} DefaultDelayMonotone(a: int, b: int)
    requires 1 <= a <= b <= 60
    ensures DefaultDelay(a).Some? && DefaultDelay(b).Some?
    ensures 10 <= DefaultDelay(a).value <= DefaultDelay(b).value <= 300
  {
    DefaultDelayShape(a);
    DefaultDelayShape(b);
    PowMonotone(0, a - 1);
    PowMonotone(a - 1, b - 1);
  }

  /** Powers of a base of at least one grow, and of a base between zero and one shrink. */
  lemma {:induction false} PowersMove(b: real, m: nat, n: nat)
    requires b >= 0.0 && m <= n
    ensures 0.0 <= RealPow(b, m) && 0.0 <= RealPow(b, n)
    ensures b >= 1.0 ==> RealPow(b, m) <= RealPow(b, n)
    ensures b <= 1.0 ==> RealPow(b, m) >= RealPow(b, n)
    decreases m + n
  {
    hide Times;
    if n > 0 {
      PowersMove(b, if m < n then m else n - 1, n - 1);
      OneFactor(b, RealPow(b, n - 1));
    }
  }

  lemma {:induction false} OneFactor(b: real, p: real)
    requires b >= 0.0 && p >= 0.0
    ensures Times(b, p) >= 0.0
    ensures b >= 1.0 ==> Times(b, p) >= p
    ensures b <= 1.0 ==> Times(b, p) <= p
  {
    if b >= 1.0 {
      assert b * p == p + (b - 1.0) * p;
    } else {
      assert b * p == p - (1.0 - b) * p;
    }
  }

  lemma {:induction false} Scale(a: real, x: real, y: real)
    requires a >= 0.0 && x <= y
    ensures Times(a, x) <= Times(a, y)
  {
  }

  lemma {:induction false} RoundingKeepsOrder(x: real, y: real)
    requires x <= y
    ensures Saturate(Truncate(x)) <= Saturate(Truncate(y))
  {
  }

  /** An exponential policy never waits longer than its cap. With a multiplier of at least one it never
      waits less after a later attempt, and with one between zero and one never longer. */
  lemma {:induction false} ExponentialGrowsToCap(p: RetryPolicy, a: int, b: int)
    requires p.strategy == Exponential && p.baseDelay >= 0 && 1 <= a <= b
    ensures Multiplier(p) >= 1.0 ==> NextDelaySeconds(p, a) <= NextDelaySeconds(p, b)
    ensures 0.0 <= Multiplier(p) <= 1.0 ==> NextDelaySeconds(p, a) >= NextDelaySeconds(p, b)
    ensures p.maxDelay.Some? ==> NextDelaySeconds(p, b) <= p.maxDelay.value
  {
    hide Uncapped;
    UncappedMoves(p, a, b);
  }

  lemma {:induction false} UncappedMoves(p: RetryPolicy, a: int, b: int)
    requires p.baseDelay >= 0 && 1 <= a <= b
    ensures Multiplier(p) >= 1.0 ==> Uncapped(p, a) <= Uncapped(p, b)
    ensures 0.0 <= Multiplier(p) <= 1.0 ==> Uncapped(p, a) >= Uncapped(p, b)
  {
    hide Times, Saturate, Truncate, Multiplier;
    var m := Multiplier(p);
    var x, y := RealPow(m, a - 1), RealPow(m, b - 1);
    if m >= 0.0 {
      PowersMove(m, a - 1, b - 1);
      if x <= y {
        RawGrows(p.baseDelay, x, y);
      }
      if y <= x {
        RawGrows(p.baseDelay, y, x);
      }
    }
  }

  lemma {:induction false} RawGrows(base: int, x: real, y: real)
    requires base >= 0 && x <= y
    ensures Saturate(Truncate(Times(base as real, x))) <= Saturate(Truncate(Times(base as real, y)))
  {
    Scale(base as real, x, y);
    RoundingKeepsOrder(Times(base as real, x), Times(base as real, y));
  }

  /** The cap binds only exponential policies: a linear one passes any cap it is given. */
  lemma {:induction false} LinearIgnoresCap(base: int, cap: nat, multiplier: Option<real>)
    requires base >= 1
    ensures NextDelaySeconds(RetryPolicy(Linear, base, Some(cap), multiplier), cap + 1) > cap
  {
    assert base * (cap + 1) == (base - 1) * (cap + 1) + (cap + 1);
    assert (base - 1) * (cap + 1) >= 0;
  }

  lemma {:induction false} RealPowOfNat(k: nat, e: nat)
    ensures RealPow(k as real, e) == Pow(k, e) as real
  {
    if e > 0 {
      RealPowOfNat(k, e - 1);
      assert (k as real) * (Pow(k, e - 1) as real) == (k * Pow(k, e - 1)) as real;
    }
  }

  /** With an integral multiplier k the delay after attempt n is base * k^(n-1), up to the largest i64. */
  lemma {:induction false} ExponentialClosedForm(p: RetryPolicy, k: nat, n: nat)
    requires p.strategy == Exponential && p.multiplier == Some(k as real) && p.baseDelay >= 0 && n >= 1
    requires p.maxDelay.None?
    ensures NextDelaySeconds(p, n) == Min(p.baseDelay * Pow(k, n - 1), 0x7fff_ffff_ffff_ffff)
  {
    RealPowOfNat(k, n - 1);
    var x := Pow(k, n - 1);
    assert (p.baseDelay as real) * (x as real) == (p.baseDelay * x) as real;
    NonNegative(p.baseDelay, x);
  }

  lemma {:induction false} NonNegative(a: int, b: int)
    requires a >= 0 && b >= 0
    ensures a * b >= 0
  {
  }

  // ---------------------------------------------------------------- a build without overflow checks

  const TWO_64: int := 0x1_0000_0000_0000_0000

  /** i64 arithmetic that wraps. */
  function Wrap(x: int): int {
    (x + TWO_64 / 2) % TWO_64 - TWO_64 / 2
  }

  /** The default in a build whose arithmetic wraps. None: the delay is out of range for a duration,
      whose milliseconds must fit an i64, and the task aborts there. */
  function WrappedDelay(attempt: int): Option<int> {
    var d := Min(Wrap(10 * Pow(2, if attempt < 1 then 0 else attempt - 1)), 300);
    if -I64_MAX <= d * 1000 <= I64_MAX then Some(d) else None
  }

  lemma {:induction false} BeyondSixty(attempt: int)
    requires attempt >= 61
    ensures WrappedDelay(attempt)
         == if attempt == 61 || attempt == 63 then None else if attempt == 62 then Some(300) else Some(0)
  {
    PowersOfTwo();
    assert Pow(2, 1) == 2 && Pow(2, 2) == 4 && Pow(2, 3) == 8;
    PowAdd(60, 1); PowAdd(60, 2); PowAdd(60, 3);
    if attempt >= 64 {
      var k := Pow(2, attempt - 64);
      PowAdd(63, attempt - 64);
      assert 10 * Pow(2, attempt - 1) == TWO_64 * (5 * k);
      WrapMultiple(5 * k);
    }
  }

  lemma {:induction false} WrapMultiple(k: int)
    ensures Wrap(TWO_64 * k) == 0
  {
    assert (TWO_64 * k + TWO_64 / 2) % TWO_64 == TWO_64 / 2;
  }

  /** With or without overflow checks the delay is the same, and attempt 61 aborts the task, except that
      an unchecked build has delays again for attempt 62 and from attempt 64 on. */
  lemma {:induction false} BuildsAgreeIff(attempt: int)
    requires attempt >= 1
    ensures WrappedDelay(attempt) == DefaultDelay(attempt) <==> attempt <= 61 || attempt == 63
    ensures attempt == 61 ==> WrappedDelay(attempt) == DefaultDelay(attempt) == None
  {
    hide WrappedDelay, DefaultDelay;
    DefaultIsSeededPolicy(attempt);
    if attempt <= 60 {
      UpToSixty(attempt);
    } else {
      BeyondSixty(attempt);
    }
  }

  lemma {:induction false} UpToSixty(attempt: int)
    requires 1 <= attempt <= 60
    ensures WrappedDelay(attempt) == DefaultDelay(attempt)
  {
    PowersOfTwo();
    hide Pow;
    PowMonotone(attempt - 1, 59);
  }

  /** Seconds of back-off accumulated before attempt n + 1. */
  function DefaultBackoff(n: nat): int {
    if n == 0 then 0
    else DefaultBackoff(n - 1) + (if DefaultDelay(n).Some? then DefaultDelay(n).value else 0)
  }

  lemma {:induction false} DefaultBackoffTotal(n: nat)
    requires 5 <= n <= 60
    ensures DefaultBackoff(n) == 310 + 300 * (n - 5)
  {
    DefaultDelayShape(n);
    if n == 5 {
      DefaultDelayShape(1); DefaultDelayShape(2); DefaultDelayShape(3); DefaultDelayShape(4);
      assert Pow(2, 3) == 8;
      assert DefaultBackoff(0) == 0;
      assert DefaultBackoff(1) == 10;
      assert DefaultBackoff(2) == 30;
      assert DefaultBackoff(3) == 70;
      assert DefaultBackoff(4) == 150;
    } else {
      DefaultBackoffTotal(n - 1);
    }
  }
}
