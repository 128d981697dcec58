/** Retry backoff and the fairness yield, over the reals. */
module Timing {
  datatype RetryConfig = RetryConfig(initial: real, max: real, multiplier: real) {
    /** The bounds `SchedulerConfig.validate` enforces. */
    predicate Valid() {
      0.0 <= initial <= max && 1.0 <= multiplier
    }
  }

  datatype ContinuationConfig = ContinuationConfig(delay: real, maxConsecutive: int, yieldDelay: real) {
    predicate Valid() {
      0.0 <= delay && 0 < maxConsecutive
    }
  }

  function Min(x: real, y: real): real { if x <= y then x else y }

  function Max(x: real, y: real): real { if x >= y then x else y }

  function Power(b: real, n: nat): real {
    if n == 0 then 1.0 else b * Power(b, n - 1)
  }

  /** `RetryConfig.delay`. */
  function RetryDelay(c: RetryConfig, failures: int): real {
    var exponent := if failures - 1 > 0 then failures - 1 else 0;
    Min(c.initial * Power(c.multiplier, exponent), c.max)
  }

  // ----- products of reals

  lemma ScaleMono(d: real, x: real, y: real)
    requires 0.0 <= d && x <= y
    ensures d * x <= d * y
  {
    assert d * (y - x) >= 0.0;
  }

  lemma ScaleUp(d: real, m: real)
    requires 0.0 <= d && 1.0 <= m
    ensures d <= d * m
  {
    ScaleMono(d, 1.0, m);
  }

  lemma OneMore(n: real, d: real)
    ensures (n + 1.0) * d == n * d + d
  {}

  lemma Quotient(x: real, y: real)
    requires 0.0 < y
    ensures y * (x / y) == x
  {}

  lemma Reorder(x: real, m: real, p: real)
    ensures x * (m * p) == (x * p) * m
  {}

  /** Multiplying a capped delay loses nothing against capping the product. */
  lemma CappedProduct(u: real, m: real, max: real)
    requires 0.0 <= u && 0.0 <= max && 1.0 <= m
    ensures Min(u * m, max) == Min(Min(u, max) * m, max)
    ensures Min(u, max) <= Min(u * m, max)
  {
    ScaleUp(u, m);
    ScaleUp(max, m);
  }

  // ----- the retry delay

  lemma {:induction false} PowerAtLeastOne(b: real, n: nat)
    requires 1.0 <= b
    ensures 1.0 <= Power(b, n)
  {
    if n > 0 {
      PowerAtLeastOne(b, n - 1);
      ScaleMono(Power(b, n - 1), 1.0, b);
    }
  }

  function Uncapped(c: RetryConfig, n: nat): real {
    c.initial * Power(c.multiplier, n)
  }

  lemma UncappedGrows(c: RetryConfig, n: nat)
    requires c.Valid()
    ensures c.initial <= Uncapped(c, n)
  {
    PowerAtLeastOne(c.multiplier, n);
    ScaleUp(c.initial, Power(c.multiplier, n));
  }

  lemma UncappedNext(c: RetryConfig, n: nat)
    ensures Uncapped(c, n + 1) == Uncapped(c, n) * c.multiplier
  {
    Reorder(c.initial, c.multiplier, Power(c.multiplier, n));
  }

  /** What the delay would be without the cap, after `n` failures and after one more. */
  lemma OnlyCapped(c: RetryConfig, n: int) returns (u: real, v: real)
    requires c.Valid() && 1 <= n
    ensures RetryDelay(c, n) == Min(u, c.max) && RetryDelay(c, n + 1) == Min(v, c.max)
    ensures v == u * c.multiplier && c.initial <= u
  {
    u, v := Uncapped(c, n - 1), Uncapped(c, n);
    UncappedGrows(c, n - 1);
    UncappedNext(c, n - 1);
  }

  /** The delay is the capped recurrence: it starts at the initial delay, multiplies
      from one failure to the next, and stops at the cap. */
  lemma RetryDelayRecurrence(c: RetryConfig, n: int)
    requires c.Valid() && 1 <= n
    ensures RetryDelay(c, 1) == c.initial
    ensures RetryDelay(c, n + 1) == Min(RetryDelay(c, n) * c.multiplier, c.max)
    ensures c.initial <= RetryDelay(c, n) <= RetryDelay(c, n + 1) <= c.max
  {
    var u, v := OnlyCapped(c, n);
    CappedProduct(u, c.multiplier, c.max);
  }

  lemma {:induction false} RetryDelayMonotone(c: RetryConfig, m: int, n: int)
    requires c.Valid() && m <= n
    ensures RetryDelay(c, m) <= RetryDelay(c, n)
    decreases n - m
  {
    if m < n {
      RetryDelayMonotone(c, m, n - 1);
      if n >= 2 {
        RetryDelayRecurrence(c, n - 1);
      }
    }
  }

  lemma GrowthStep(d: real, m: real, p: real)
    requires 0.0 <= d && 0.0 <= m && 1.0 + m * d <= p
    ensures 1.0 + (m + 1.0) * d <= (1.0 + d) * p
  {
    ScaleMono(d, 0.0, m);
    ScaleMono(d, 1.0, p);
    OneMore(m, d);
    OneMore(d, p);
  }

  /** Bernoulli's inequality. */
  lemma {:induction false} PowerGrows(b: real, n: nat)
    requires 1.0 <= b
    ensures 1.0 + n as real * (b - 1.0) <= Power(b, n)
  {
    if n > 0 {
      PowerGrows(b, n - 1);
      GrowthStep(b - 1.0, (n - 1) as real, Power(b, n - 1));
    }
  }

  lemma {:induction false} PowerOfOne(n: nat)
    ensures Power(1.0, n) == 1.0
  {
    if n > 0 {
      PowerOfOne(n - 1);
    }
  }

  lemma PowerReaches(b: real, x: real) returns (k: nat)
    requires 1.0 < b
    ensures x <= Power(b, k)
  {
    var gap := x / (b - 1.0);
    k := if gap < 0.0 then 0 else gap.Floor + 1;
    Quotient(x, b - 1.0);
    ScaleMono(b - 1.0, gap, k as real);
    PowerGrows(b, k);
  }

  lemma CapReachedWithin(c: RetryConfig) returns (n: int)
    requires c.Valid() && 0.0 < c.initial && 1.0 < c.multiplier
    ensures 1 <= n && RetryDelay(c, n) == c.max
  {
    var x := c.max / c.initial;
    var k := PowerReaches(c.multiplier, x);
    Quotient(c.max, c.initial);
    ScaleMono(c.initial, x, Power(c.multiplier, k));
    n := k + 1;
  }

  /** The cap is reached after finitely many failures, and then kept, exactly when
      there is nothing to climb or the delay really grows. */
  lemma CapIsReached(c: RetryConfig)
    requires c.Valid()
    ensures (exists n :: 1 <= n && RetryDelay(c, n) == c.max)
            <==> c.initial == c.max || (0.0 < c.initial && 1.0 < c.multiplier)
    ensures forall m, n :: 1 <= m <= n && RetryDelay(c, m) == c.max ==> RetryDelay(c, n) == c.max
  {
    RetryDelayRecurrence(c, 1);
    if 0.0 < c.initial && 1.0 < c.multiplier {
      var n := CapReachedWithin(c);
    }
    forall n | 1 <= n && !(0.0 < c.initial && 1.0 < c.multiplier)
      ensures RetryDelay(c, n) == c.initial
    {
      PowerOfOne(n - 1);
      if c.initial == 0.0 {
        assert c.initial * Power(c.multiplier, n - 1) == 0.0;
      }
    }
    forall m, n | 1 <= m <= n && RetryDelay(c, m) == c.max
      ensures RetryDelay(c, n) == c.max
    {
      RetryDelayMonotone(c, m, n);
      RetryDelayRecurrence(c, n);
    }
  }

  // ----- fairness yield

  predicate Yields(c: ContinuationConfig, index: nat)
    requires c.Valid()
  {
    index % c.maxConsecutive == 0
  }

  /** The delay before clean turn `index` is followed by another one. */
  function ContinuationDelay(c: ContinuationConfig, index: nat): real
    requires c.Valid()
  {
    if Yields(c, index) then Max(c.delay, c.yieldDelay) else c.delay
  }

  /** Yields among the clean turns with index in (lo, hi]. */
  function YieldCount(c: ContinuationConfig, lo: nat, hi: nat): nat
    requires c.Valid() && lo <= hi
    decreases hi
  {
    if lo == hi then 0 else YieldCount(c, lo, hi - 1) + if Yields(c, hi) then 1 else 0
  }

  function TotalDelay(c: ContinuationConfig, turns: nat): real
    requires c.Valid()
  {
    if turns == 0 then 0.0 else TotalDelay(c, turns - 1) + ContinuationDelay(c, turns)
  }

  lemma QuotientStep(k: nat, m: int)
    requires 0 < m && 0 < k
    ensures k / m == (k - 1) / m + if k % m == 0 then 1 else 0
  {
    var q, r := (k - 1) / m, (k - 1) % m;
    assert k == q * m + (r + 1);
    if r + 1 < m {
      QuotientUnique(k, m, q, r + 1);
    } else {
      assert k == (q + 1) * m + 0;
      QuotientUnique(k, m, q + 1, 0);
    }
  }

  lemma Multiples(d: int, m: int)
    requires 0 < m
    ensures d >= 1 ==> d * m >= m
    ensures d <= -1 ==> d * m <= -m
  {}

  lemma QuotientUnique(k: int, m: int, q: int, r: int)
    requires 0 < m && 0 <= r < m && k == q * m + r
    ensures k / m == q && k % m == r
  {
    var d := k / m - q;
    assert d * m == r - k % m;
    Multiples(d, m);
  }

  /** Turns `lo`+1 .. `hi` contain one yield for every multiple of the cap they pass. */
  lemma {:induction false} YieldsCountQuotients(c: ContinuationConfig, lo: nat, hi: nat)
    requires c.Valid() && lo <= hi
    ensures YieldCount(c, lo, hi) == hi / c.maxConsecutive - lo / c.maxConsecutive
    decreases hi
  {
    if lo < hi {
      YieldsCountQuotients(c, lo, hi - 1);
      QuotientStep(hi, c.maxConsecutive);
    }
  }

  /** Every window of `maxConsecutive` consecutive clean turns yields exactly once. */
  lemma EveryWindowYieldsOnce(c: ContinuationConfig, lo: nat, hi: nat)
    requires c.Valid() && hi == lo + c.maxConsecutive
    ensures YieldCount(c, lo, hi) == 1
  {
    var m := c.maxConsecutive;
    YieldsCountQuotients(c, lo, hi);
    QuotientUnique(hi, m, lo / m + 1, lo % m);
  }

  /** `n` turns with `q` yields among them. */
  function Streak(n: real, q: real, d: real, extra: real): real {
    n * d + q * extra
  }

  lemma StreakStep(n: real, q: real, d: real, extra: real)
    ensures Streak(n + 1.0, q, d, extra) == Streak(n, q, d, extra) + d
    ensures Streak(n + 1.0, q + 1.0, d, extra) == Streak(n, q, d, extra) + d + extra
  {
    OneMore(n, d);
    OneMore(q, extra);
  }

  lemma YieldCounts(c: ContinuationConfig, turns: nat) returns (n: real, q: real)
    requires c.Valid() && 0 < turns
    ensures n == (turns - 1) as real && turns as real == n + 1.0
    ensures q == ((turns - 1) / c.maxConsecutive) as real
    ensures (turns / c.maxConsecutive) as real == if Yields(c, turns) then q + 1.0 else q
  {
    n, q := (turns - 1) as real, ((turns - 1) / c.maxConsecutive) as real;
    QuotientStep(turns, c.maxConsecutive);
  }

  /** Total delay of an uninterrupted streak of clean turns. */
  lemma {:induction false} StreakDelay(c: ContinuationConfig, turns: nat)
    requires c.Valid()
    ensures TotalDelay(c, turns)
            == Streak(turns as real, (turns / c.maxConsecutive) as real, c.delay, Max(c.delay, c.yieldDelay) - c.delay)
  {
    if turns == 0 {
      QuotientUnique(0, c.maxConsecutive, 0, 0);
    } else {
      StreakDelay(c, turns - 1);
      var n, q := YieldCounts(c, turns);
      StreakStep(n, q, c.delay, Max(c.delay, c.yieldDelay) - c.delay);
    }
  }
}
