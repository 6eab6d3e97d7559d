/** Exponential backoff over wrapping 64-bit nanosecond durations: the worker
    pool's `calculateRetryDelay` and the SQS queue's `CalculateRetryDelay`. */
module Backoff {
  import opened Basics

  const POOL_BASE := 30 * SECOND
  const POOL_MAX := 600 * SECOND
  const TWO63 := 0x8000_0000_0000_0000
  const TWO64 := 0x1_0000_0000_0000_0000

  function Min(a: int, b: int): int {
    if a <= b then a else b
  }

  function Pow2(n: nat): nat {
    if n == 0 then 1 else 2 * Pow2(n - 1)
  }

  /** Two's complement reduction to a signed 64-bit integer. */
  function Wrap64(x: int): (r: int)
    ensures -TWO63 <= r < TWO63
    ensures (x - r) % TWO64 == 0
  {
    var m := x % TWO64;
    if m >= TWO63 then m - TWO64 else m
  }

  /** `time.Duration(math.Pow(2, float64(exponent)))`. A negative exponent
      truncates to zero; from 2^63 on the conversion is outside int64 and Go
      leaves its value to the platform. */
  function PowerAsInt64(exponent: int, platform: int): int {
    if exponent < 0 then 0 else if exponent <= 62 then Pow2(exponent) else platform
  }

  /** Whatever the attempt number and the platform, the pool never waits more
      than ten minutes. */
  function PoolDelay(attempts: int, platform: int): (r: int)
    ensures r <= 600_000_000_000
  {
    var backoff := Wrap64(PowerAsInt64(attempts - 1, platform) * POOL_BASE);
    if backoff > POOL_MAX then POOL_MAX else backoff
  }

  datatype RetryConfig = RetryConfig(base: int, max: int)

  /** `DefaultConfig`: thirty seconds, capped at fifteen minutes. */
  const DEFAULT_CONFIG := RetryConfig(30 * SECOND, 900 * SECOND)

  function SqsDelay(c: RetryConfig, attempt: int, platform: int): int {
    if attempt <= 0 then c.base
    else
      var delay := Wrap64(c.base * PowerAsInt64(attempt - 1, platform));
      if delay > c.max then c.max else delay
  }

  const TWO31 := 0x8000_0000

  /** `int32(delay.Seconds())` cut to SQS's limit of 900, for a positive delay.
      From 2^31 seconds on the conversion's value is the platform's. */
  function DelaySeconds(delay: int, platform: int): (r: int)
    requires delay > 0
    ensures r <= 900
    ensures delay < TWO31 * SECOND ==> 0 <= r && r * SECOND <= delay && (r == 900 || delay < (r + 1) * SECOND)
  {
    var seconds := if delay / SECOND < TWO31 then delay / SECOND else platform;
    if seconds > 900 then 900 else seconds
  }

  lemma {:induction false} Pow2Monotone(m: nat, n: nat)
    requires m <= n
    ensures Pow2(m) <= Pow2(n)
    decreases n
  {
    if m < n {
      Pow2Monotone(m, n - 1);
    }
  }

  lemma WrapInRange(x: int)
    requires -TWO63 <= x < TWO63
    ensures Wrap64(x) == x
  {
  }

  lemma WrapCongruent(x: int, y: int, k: int)
    requires x == y + k * TWO64
    ensures Wrap64(x) == Wrap64(y)
  {
    assert x % TWO64 == y % TWO64;
  }

  /** Doubling commutes with wrapping. */
  lemma WrapDouble(x: int)
    ensures Wrap64(2 * x) == Wrap64(2 * Wrap64(x))
  {
    var r := Wrap64(x);
    var k := (x - r) / TWO64;
    assert x == r + k * TWO64;
    WrapCongruent(2 * x, 2 * r, 2 * k);
  }

  /** Up to attempt 29 the pool's delay is the capped exponential. */
  lemma {:induction false} PoolDelayExact(n: int, platform: int)
    requires 1 <= n <= 29
    ensures PoolDelay(n, platform) == Min(POOL_BASE * Pow2(n - 1), POOL_MAX)
    ensures PoolDelay(n, platform) > 0
  {
    Pow2Monotone(n - 1, 28);
    Pow2Monotone(0, n - 1);
    assert Pow2(28) == 0x1000_0000 by { Pow2At28(); }
    WrapInRange(Pow2(n - 1) * POOL_BASE);
  }

  lemma Pow2At28()
    ensures Pow2(28) == 0x1000_0000
  {
    assert Pow2(7) == 128;
    assert Pow2(14) == 128 * 128;
    assert Pow2(21) == 128 * 128 * 128;
  }

  lemma PoolDelayMonotone(m: int, n: int, platform: int)
    requires 1 <= m <= n <= 29
    ensures PoolDelay(m, platform) <= PoolDelay(n, platform)
  {
    PoolDelayExact(m, platform);
    PoolDelayExact(n, platform);
    Pow2Monotone(m - 1, n - 1);
  }

  /** The attempt numbers past 29 whose wrapped product happens to be positive. */
  predicate Lucky(n: int) {
    n == 32 || 39 <= n <= 42 || 44 <= n <= 46 || n == 50 || n == 52
  }

  function Product(n: int): int
    requires 1 <= n
  {
    Wrap64(Pow2(n - 1) * POOL_BASE)
  }

  lemma NextProduct(n: int)
    requires 1 <= n
    ensures Product(n + 1) == Wrap64(2 * Product(n))
  {
    WrapDouble(Pow2(n - 1) * POOL_BASE);
  }

  /** The products from attempt 29 on, by repeated wrapping doubling. */
  function Chain(k: nat): int {
    if k == 0 then 8053063680000000000 else Wrap64(2 * Chain(k - 1))
  }

  lemma {:induction false} ProductIsChain(k: nat)
    ensures Product(29 + k) == Chain(k)
  {
    if k == 0 {
      Pow2At28();
    } else {
      ProductIsChain(k - 1);
      NextProduct(29 + k - 1);
    }
  }

  lemma {:induction false} ChainVanishes(k: nat)
    requires k >= 26
    ensures Chain(k) == 0
  {
    if k == 26 {
      ChainTail();
    } else {
      ChainVanishes(k - 1);
    }
  }

  lemma ChainHead()
    ensures Chain(1) == -2340616713709551616
    ensures Chain(2) == -4681233427419103232
    ensures Chain(3) == 9084277218871345152
    ensures Chain(4) == -278189635966861312
    ensures Chain(5) == -556379271933722624
    ensures Chain(6) == -1112758543867445248
    ensures Chain(7) == -2225517087734890496
    ensures Chain(8) == -4451034175469780992
    ensures Chain(9) == -8902068350939561984
    ensures Chain(10) == 642607371830427648
    ensures Chain(11) == 1285214743660855296
    ensures Chain(12) == 2570429487321710592
    ensures Chain(13) == 5140858974643421184
  {
  }

  lemma ChainTail()
    ensures Chain(14) == -8165026124422709248
    ensures Chain(15) == 2116691824864133120
    ensures Chain(16) == 4233383649728266240
    ensures Chain(17) == 8466767299456532480
    ensures Chain(18) == -1513209474796486656
    ensures Chain(19) == -3026418949592973312
    ensures Chain(20) == -6052837899185946624
    ensures Chain(21) == 6341068275337658368
    ensures Chain(22) == -5764607523034234880
    ensures Chain(23) == 6917529027641081856
    ensures Chain(24) == -4611686018427387904
    ensures Chain(25) == -9223372036854775808
    ensures Chain(26) == 0
  {
    ChainHead();
  }

  lemma HeadSigns(k: nat)
    requires 1 <= k <= 13
    ensures Chain(k) > 0 <==> Lucky(29 + k)
    ensures Chain(k) > 0 ==> Chain(k) > 900 * SECOND
  {
    ChainHead();
  }

  lemma TailSigns(k: nat)
    requires 14 <= k <= 25
    ensures Chain(k) > 0 <==> Lucky(29 + k)
    ensures Chain(k) > 0 ==> Chain(k) > 900 * SECOND
  {
    ChainTail();
  }

  /** Past attempt 29 and up to 63, a product is positive exactly for the
      `Lucky` attempt numbers, and then exceeds fifteen minutes. */
  lemma LateProducts(n: int)
    requires 30 <= n <= 63
    ensures Product(n) > 0 <==> Lucky(n)
    ensures Product(n) > 0 ==> Product(n) > 900 * SECOND
  {
    var k := n - 29;
    ProductIsChain(k);
    if k >= 26 {
      ChainVanishes(k);
    } else if k >= 14 {
      TailSigns(k);
    } else {
      HeadSigns(k);
    }
  }

  /** The capped exponential the pool's delay is meant to be. */
  function PoolIdeal(n: int): int
    requires n >= 1
  {
    Min(POOL_BASE * Pow2(n - 1), POOL_MAX)
  }

  /** When the pool's delay is that: for attempts 1 to 29, then up to 63 only where
      the wrapped product lands on a positive number, and from 64 on only where
      the platform's conversion makes it land at ten minutes or more. Elsewhere up
      to 63 the delay is not positive, so `MarkFailed` schedules nothing; from 64
      on that too is up to the platform. Numbers below 1 give no delay. */
  lemma PoolDelayExactness(n: int, platform: int)
    ensures n >= 1 ==>
              (PoolDelay(n, platform) == PoolIdeal(n) <==>
               n <= 29 || Lucky(n) || (n >= 64 && Wrap64(platform * POOL_BASE) >= POOL_MAX))
    ensures n >= 1 ==>
              (PoolDelay(n, platform) > 0 <==>
               n <= 29 || Lucky(n) || (n >= 64 && Wrap64(platform * POOL_BASE) > 0))
    ensures n <= 0 ==> PoolDelay(n, platform) == 0
  {
    if n <= 0 {
      assert PowerAsInt64(n - 1, platform) == 0;
    } else if n <= 29 {
      PoolDelayExact(n, platform);
    } else {
      Pow2Monotone(28, n - 1);
      Pow2At28();
      if n <= 63 {
        LateProducts(n);
      }
    }
  }

  /** Attempts from 64 on where the conversion yields the smallest integer, as on
      amd64, or the largest, as on arm64: neither delay is positive. */
  lemma PoolDelayPast63(n: int)
    requires n >= 64
    ensures PoolDelay(n, -TWO63) == 0
    ensures PoolDelay(n, TWO63 - 1) == -POOL_BASE
  {
    assert -TWO63 * POOL_BASE == -(POOL_BASE / 2) * TWO64;
    assert (TWO63 - 1) * POOL_BASE == (POOL_BASE / 2) * TWO64 - POOL_BASE;
  }

  /** The fitting products have small exponents, so the platform's conversion
      is never consulted. */
  lemma FittingExponent(base: int, n: int)
    requires 0 < base && 1 <= n && base * Pow2(n - 1) < TWO63
    ensures n <= 63
  {
    if n >= 64 {
      Pow2Monotone(63, n - 1);
      Pow2At63();
    }
  }

  lemma Pow2At63()
    ensures Pow2(63) == TWO63
  {
    Pow2At28();
    assert Pow2(35) == 0x8_0000_0000;
    assert Pow2(42) == 0x400_0000_0000;
    assert Pow2(49) == 0x2_0000_0000_0000;
    assert Pow2(56) == 0x100_0000_0000_0000;
  }

  /** While the product fits in 63 bits the SQS delay is the capped exponential. */
  lemma SqsDelayExact(c: RetryConfig, n: int, platform: int)
    requires 0 < c.base <= c.max
    requires 1 <= n && c.base * Pow2(n - 1) < TWO63
    ensures SqsDelay(c, n, platform) == (if c.base * Pow2(n - 1) <= c.max then c.base * Pow2(n - 1) else c.max)
  {
    FittingExponent(c.base, n);
    WrapInRange(c.base * Pow2(n - 1));
  }

  /** The recurrence the exponential backoff promises: start at the base,
      double, stop at the cap. */
  lemma SqsDelayRecurrence(c: RetryConfig, n: int, platform: int)
    requires 0 < c.base <= c.max < TWO63
    requires 1 <= n && c.base * Pow2(n) < TWO63
    ensures SqsDelay(c, 1, platform) == c.base
    ensures SqsDelay(c, n + 1, platform) == Min(2 * SqsDelay(c, n, platform), c.max)
  {
    assert c.base * Pow2(n) == 2 * (c.base * Pow2(n - 1));
    SqsDelayExact(c, n, platform);
    SqsDelayExact(c, n + 1, platform);
    assert c.base * Pow2(0) == c.base;
    SqsDelayExact(c, 1, platform);
  }

  lemma DefaultSqsDelayEarly(n: int, platform: int)
    requires 1 <= n <= 29
    ensures SqsDelay(DEFAULT_CONFIG, n, platform) == Min(30 * SECOND * Pow2(n - 1), 900 * SECOND) > 0
  {
    Pow2At28();
    Pow2Monotone(n - 1, 28);
    Pow2Monotone(0, n - 1);
    SqsDelayExact(DEFAULT_CONFIG, n, platform);
  }

  /** The same product under the default configuration, so the same numbers. */
  lemma DefaultSqsDelayExactness(n: int, platform: int)
    requires n >= 1
    ensures SqsDelay(DEFAULT_CONFIG, n, platform) == Min(30 * SECOND * Pow2(n - 1), 900 * SECOND) <==>
            n <= 29 || Lucky(n) || (n >= 64 && Wrap64(30 * SECOND * platform) >= 900 * SECOND)
    ensures SqsDelay(DEFAULT_CONFIG, n, platform) > 0 <==>
            n <= 29 || Lucky(n) || (n >= 64 && Wrap64(30 * SECOND * platform) > 0)
  {
    if n <= 29 {
      DefaultSqsDelayEarly(n, platform);
    } else {
      Pow2At28();
      Pow2Monotone(28, n - 1);
      if n <= 63 {
        LateProducts(n);
        assert DEFAULT_CONFIG.base * Pow2(n - 1) == Pow2(n - 1) * POOL_BASE;
      }
    }
  }

  /** Under the default configuration the 900-second limit of SQS never
      shortens a delay, nor does the cut to whole seconds. */
  lemma DefaultDelayNeverClamped(n: int, platform: int)
    requires DEFAULT_CONFIG.base * Pow2(if n <= 0 then 0 else n - 1) < TWO63
    ensures 0 < SqsDelay(DEFAULT_CONFIG, n, platform)
    ensures DelaySeconds(SqsDelay(DEFAULT_CONFIG, n, platform), platform) * SECOND ==
            SqsDelay(DEFAULT_CONFIG, n, platform)
  {
    if n >= 1 {
      SqsDelayExact(DEFAULT_CONFIG, n, platform);
      Pow2Monotone(0, n - 1);
    }
  }

  /** The two schedules in seconds: 30, 60, 120, 240, 480, and then ten minutes for
      the pool, fifteen for SQS. */
  lemma Schedules(platform: int)
    ensures PoolDelay(1, platform) == 30_000_000_000 && PoolDelay(2, platform) == 60_000_000_000
    ensures PoolDelay(3, platform) == 120_000_000_000 && PoolDelay(4, platform) == 240_000_000_000
    ensures PoolDelay(5, platform) == 480_000_000_000
    ensures forall n :: 6 <= n <= 29 ==> PoolDelay(n, platform) == 600_000_000_000
    ensures forall n :: n <= 1 ==> SqsDelay(DEFAULT_CONFIG, n, platform) == 30_000_000_000
    ensures SqsDelay(DEFAULT_CONFIG, 2, platform) == 60_000_000_000
    ensures SqsDelay(DEFAULT_CONFIG, 3, platform) == 120_000_000_000
    ensures SqsDelay(DEFAULT_CONFIG, 4, platform) == 240_000_000_000
    ensures SqsDelay(DEFAULT_CONFIG, 5, platform) == 480_000_000_000
    ensures forall n :: 6 <= n <= 29 ==> SqsDelay(DEFAULT_CONFIG, n, platform) == 900_000_000_000
  {
    assert Pow2(0) == 1 && Pow2(1) == 2 && Pow2(2) == 4 && Pow2(3) == 8 && Pow2(4) == 16;
    forall n | 6 <= n <= 29
      ensures PoolDelay(n, platform) == 600_000_000_000
      ensures SqsDelay(DEFAULT_CONFIG, n, platform) == 900_000_000_000
    {
      Pow2Monotone(5, n - 1);
      assert Pow2(5) == 32;
      Pow2Monotone(n - 1, 28);
      Pow2At28();
      PoolDelayExact(n, platform);
      SqsDelayExact(DEFAULT_CONFIG, n, platform);
    }
  }
}
