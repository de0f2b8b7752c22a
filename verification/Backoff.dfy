/**
 Exponential backoff with the machine arithmetic of the source: the power is taken in u64, the factor is
 truncated to u32, and multiplying a duration may overflow. Durations are in nanoseconds.
 */
module Backoff {
  import opened Wrappers
  import opened Arithmetic

  const U64_RANGE: nat := 0x1_0000_0000_0000_0000

  /** A duration has at most u64::MAX seconds and one nanosecond less than another. */
  const MAX_DURATION: nat := 0x1_0000_0000_0000_0000 * 1_000_000_000 - 1

  datatype BackoffConfig = BackoffConfig(multiplier: nat, maxExponent: nat)

  const DEFAULT: BackoffConfig := BackoffConfig(2, 5)

  function Min(a: nat, b: nat): nat { if a < b then a else b }

  function Pow(b: nat, e: nat): nat { if e == 0 then 1 else b * Pow(b, e - 1) }

  /** `multiplier.pow(exponent)` as a release build computes it, wrapping. */
  function Pow64(b: nat, e: nat): nat { if e == 0 then 1 else (b * Pow64(b, e - 1)) % U64_RANGE }

  /** The factor the source multiplies by: `pow(..).max(1) as u32`. */
  function Factor(failures: nat, c: BackoffConfig): nat {
    var p := Pow64(c.multiplier, Min(failures, c.maxExponent));
    (if p < 1 then 1 else p) % U32_RANGE
  }

  /** `calculate_backoff_interval`; None where multiplying the duration overflows and panics. */
  function BackoffInterval(base: nat, failures: nat, c: BackoffConfig): Option<nat> {
    var d := base * Factor(failures, c);
    if d <= MAX_DURATION then Some(d) else None
  }

  lemma {:induction false} Pow64IsPow(b: nat, e: nat)
    ensures Pow64(b, e) == Pow(b, e) % U64_RANGE
  {
    if e > 0 {
      Pow64IsPow(b, e - 1);
      MulMod(b, Pow(b, e - 1));
    }
  }

  lemma MulMod(b: nat, p: nat)
    ensures (b * (p % U64_RANGE)) % U64_RANGE == (b * p) % U64_RANGE
  {
    var q, r := p / U64_RANGE, p % U64_RANGE;
    calc {
      b * p;
      b * (q * U64_RANGE + r);
      b * q * U64_RANGE + b * r;
    }
    ModAdd(b * q, b * r);
  }

  lemma ModAdd(k: nat, x: nat)
    ensures (k * U64_RANGE + x) % U64_RANGE == x % U64_RANGE
  {
    var q, r := x / U64_RANGE, x % U64_RANGE;
    assert k * U64_RANGE + x == (k + q) * U64_RANGE + r;
    var y := k * U64_RANGE + x;
    assert y / U64_RANGE == k + q;
  }

  lemma TruncationKeepsIff(p: nat)
    ensures var q := p % U64_RANGE;
            (if q < 1 then 1 else q) % U32_RANGE == p <==> 1 <= p < U32_RANGE
  {
    if p < U32_RANGE {
      assert p % U64_RANGE == p;
    }
  }

  lemma FactorOfPower(failures: nat, c: BackoffConfig)
    ensures var p := Pow(c.multiplier, Min(failures, c.maxExponent)) % U64_RANGE;
            Factor(failures, c) == (if p < 1 then 1 else p) % U32_RANGE
  {
    Pow64IsPow(c.multiplier, Min(failures, c.maxExponent));
  }

  /** Exactly when the machine factor is the power that the documentation promises. */
  lemma FactorIsPowIff(failures: nat, c: BackoffConfig)
    ensures var p := Pow(c.multiplier, Min(failures, c.maxExponent));
            Factor(failures, c) == p <==> 1 <= p < U32_RANGE
  {
    FactorOfPower(failures, c);
    TruncationKeepsIff(Pow(c.multiplier, Min(failures, c.maxExponent)));
  }

  /** Exactly when the interval is `base * multiplier^min(failures, maxExponent)`: the power is at least
      one and fits u32, and the product is a duration. */
  lemma IntervalIsExactIff(base: nat, failures: nat, c: BackoffConfig)
    requires base > 0
    ensures var p := Pow(c.multiplier, Min(failures, c.maxExponent));
            BackoffInterval(base, failures, c) == Some(base * p) <==> 1 <= p < U32_RANGE && base * p <= MAX_DURATION
  {
    FactorIsPowIff(failures, c);
    var p, q := Pow(c.multiplier, Min(failures, c.maxExponent)), Factor(failures, c);
    if p != q { Cancel(base, p, q); }
  }

  lemma Cancel(base: nat, p: nat, q: nat)
    requires base > 0 && p != q
    ensures base * p != base * q
  {
    assert base * p - base * q == base * (p - q);
  }

  lemma {:induction false} PowAtLeastOne(b: nat, e: nat)
    requires b >= 1
    ensures Pow(b, e) >= 1
  {
    if e > 0 {
      PowAtLeastOne(b, e - 1);
      assert b * Pow(b, e - 1) >= Pow(b, e - 1) by { MulAtLeast(b, Pow(b, e - 1)); }
    }
  }

  lemma MulAtLeast(b: nat, p: nat)
    requires b >= 1
    ensures b * p >= p
  {
    assert b * p == p + (b - 1) * p;
  }

  lemma {:induction false} PowMonotone(b: nat, e: nat, f: nat)
    requires b >= 1 && e <= f
    ensures Pow(b, e) <= Pow(b, f)
  {
    if e < f {
      PowMonotone(b, e, f - 1);
      MulAtLeast(b, Pow(b, f - 1));
    }
  }

  /** A configuration whose largest power fits the machine factor. */
  predicate Sound(c: BackoffConfig) { c.multiplier >= 1 && Pow(c.multiplier, c.maxExponent) < U32_RANGE }

  /** The power after some failures lies between one and the largest. */
  lemma PowBounds(f: nat, g: nat, c: BackoffConfig)
    requires c.multiplier >= 1 && f <= g
    ensures 1 <= Pow(c.multiplier, Min(f, c.maxExponent)) <= Pow(c.multiplier, Min(g, c.maxExponent))
            <= Pow(c.multiplier, c.maxExponent)
  {
    PowAtLeastOne(c.multiplier, Min(f, c.maxExponent));
    PowMonotone(c.multiplier, Min(f, c.maxExponent), Min(g, c.maxExponent));
    PowMonotone(c.multiplier, Min(g, c.maxExponent), c.maxExponent);
  }

  lemma SoundInterval(base: nat, f: nat, c: BackoffConfig)
    requires Sound(c) && base * Pow(c.multiplier, c.maxExponent) <= MAX_DURATION
    ensures BackoffInterval(base, f, c) == Some(base * Pow(c.multiplier, Min(f, c.maxExponent)))
  {
    PowBounds(f, f, c);
    FactorIsPowIff(f, c);
    MulMonotone(Pow(c.multiplier, Min(f, c.maxExponent)), Pow(c.multiplier, c.maxExponent), base);
  }

  lemma ScaledOrder(base: nat, p: nat, q: nat, r: nat)
    requires 1 <= p <= q <= r
    ensures base <= base * p <= base * q <= base * r
  {
    MulMonotone(1, p, base);
    MulMonotone(p, q, base);
    MulMonotone(q, r, base);
  }

  /** Waits grow with the failures, from the base to the capped maximum, whatever the failures are. */
  lemma IntervalBounds(base: nat, f: nat, g: nat, c: BackoffConfig)
    requires Sound(c) && base * Pow(c.multiplier, c.maxExponent) <= MAX_DURATION && f <= g
    ensures var i, j := BackoffInterval(base, f, c), BackoffInterval(base, g, c);
            && i.Some? && j.Some?
            && base <= i.value <= j.value <= base * Pow(c.multiplier, c.maxExponent)
            && i.value == base * Pow(c.multiplier, Min(f, c.maxExponent))
            && (g >= c.maxExponent ==> j.value == base * Pow(c.multiplier, c.maxExponent))
  {
    SoundInterval(base, f, c);
    SoundInterval(base, g, c);
    PowBounds(f, g, c);
    ScaledOrder(base, Pow(c.multiplier, Min(f, c.maxExponent)), Pow(c.multiplier, Min(g, c.maxExponent)),
                Pow(c.multiplier, c.maxExponent));
  }

  /** The waits after 0, 1, .., n - 1 failures, added up. */
  function TotalWait(base: nat, n: nat, c: BackoffConfig): nat {
    if n == 0 then 0 else TotalWait(base, n - 1, c) + base * Pow(c.multiplier, Min(n - 1, c.maxExponent))
  }

  /** By default the waits from a success until giving up after `n` failures add up to `base` times
      2^n - 1 up to five failures, and 31 + 32 (n - 5) beyond. */
  lemma {:induction false} DefaultTotalWait(base: nat, n: nat)
    ensures TotalWait(base, n, DEFAULT) == if n <= 5 then base * (Pow(2, n) - 1) else base * (31 + 32 * (n - 5))
  {
    if n > 0 {
      DefaultTotalWait(base, n - 1);
      if n <= 5 {
        PowAtLeastOne(2, n - 1);
        Distribute(base, Pow(2, n - 1) - 1, Pow(2, n - 1));
      } else {
        PowFive();
        Distribute(base, 31 + 32 * (n - 6), 32);
      }
    }
  }

  lemma DefaultTotalBeyondFive(base: nat, n: nat)
    requires n >= 5
    ensures TotalWait(base, n, DEFAULT) == base * (31 + 32 * (n - 5))
  {
    DefaultTotalWait(base, n);
    PowFive();
  }

  lemma DefaultIsSound(base: nat)
    requires base * 32 <= MAX_DURATION
    ensures Sound(DEFAULT) && base * Pow(DEFAULT.multiplier, DEFAULT.maxExponent) <= MAX_DURATION
  {
    PowFive();
  }

  lemma Distribute(base: nat, x: nat, y: nat)
    ensures base * (x + y) == base * x + base * y
  {
  }

  lemma PowFive()
    ensures Pow(2, 5) == 32
  {
    assert Pow(2, 1) == 2 && Pow(2, 2) == 4 && Pow(2, 3) == 8 && Pow(2, 4) == 16;
  }

  lemma {:induction false} PowAdd(b: nat, e: nat, f: nat)
    ensures Pow(b, e + f) == Pow(b, e) * Pow(b, f)
  {
    if e > 0 {
      PowAdd(b, e - 1, f);
      assert b * (Pow(b, e - 1) * Pow(b, f)) == (b * Pow(b, e - 1)) * Pow(b, f);
    }
  }

  lemma ModMod(p: nat)
    ensures (p % U64_RANGE) % U32_RANGE == p % U32_RANGE
  {
    var q, r := p / U64_RANGE, p % U64_RANGE;
    assert p == (q * U32_RANGE) * U32_RANGE + r;
    var k, t := r / U32_RANGE, r % U32_RANGE;
    assert p == (q * U32_RANGE + k) * U32_RANGE + t;
    assert p / U32_RANGE == q * U32_RANGE + k;
  }

  /** Exactly when there is no wait at all: when the power overflows u32 to zero, though not u64. */
  lemma WaitVanishesIff(base: nat, failures: nat, c: BackoffConfig)
    requires base > 0
    ensures var p := Pow(c.multiplier, Min(failures, c.maxExponent));
            BackoffInterval(base, failures, c) == Some(0) <==> p % U32_RANGE == 0 && p % U64_RANGE != 0
  {
    FactorOfPower(failures, c);
    ModMod(Pow(c.multiplier, Min(failures, c.maxExponent)));
    IntervalZeroIff(base, failures, c);
  }

  lemma IntervalZeroIff(base: nat, failures: nat, c: BackoffConfig)
    requires base > 0
    ensures BackoffInterval(base, failures, c) == Some(0) <==> Factor(failures, c) == 0
  {
    var f := Factor(failures, c);
    if f > 0 { MulMonotone(1, f, base); } else { assert base * f == 0; }
  }

  /** Such a configuration: doubling with a cap of 32 waits for nothing from the 32nd failure on. */
  lemma DoublingThirtyTwoTimes(base: nat, failures: nat)
    requires base > 0 && failures >= 32
    ensures BackoffInterval(base, failures, BackoffConfig(2, 32)) == Some(0)
  {
    TwoTo32();
    WaitVanishesIff(base, failures, BackoffConfig(2, 32));
  }

  lemma TwoTo32()
    ensures Pow(2, 32) == U32_RANGE
  {
    PowFive();
    var five, ten, twenty := Pow(2, 5), Pow(2, 10), Pow(2, 20);
    assert ten == 1024 by { PowAdd(2, 5, 5); }
    assert twenty == 1048576 by { PowAdd(2, 10, 10); }
    assert Pow(2, 30) == 1073741824 by { PowAdd(2, 20, 10); }
    assert Pow(2, 31) == 2 * Pow(2, 30);
  }
}
