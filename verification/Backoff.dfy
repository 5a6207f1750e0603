/** The callback backoff, in nanoseconds on int64, and arithmetic it shares with RetryDelays.dfy. */
module Backoff {
  import opened Int64

  const SECOND := 1_000_000_000

  function Min(a: int, b: int): int { if a < b then a else b }

  function Max(a: int, b: int): int { if a > b then a else b }

  // ----- CallbackPump.backoff -----

  function CallbackBackoff(base: int, max: int, attempt: int): int {
    var d := Wrap(base * ShiftOne(attempt));
    if d <= 0 || d > max then max else d
  }

  // Never zero, never negative, never above the cap, whatever overflows.
  lemma CallbackBackoffInRange(base: int, max: int, attempt: int)
    requires base > 0 && max > 0
    ensures 0 < CallbackBackoff(base, max, attempt) <= max
  {
  }

  // Exact as long as the product fits.
  lemma CallbackBackoffExact(base: int, max: int, attempt: nat)
    requires 0 < base && max > 0 && base * Pow2(attempt) < TWO_63
    ensures CallbackBackoff(base, max, attempt) == Min(base * Pow2(attempt), max)
  {
    if attempt >= 63 {
      Pow2Grows(63, attempt);
      Pow2Values();
      ScalesUp(base, Pow2(attempt));
    } else {
      Pow2Grows(attempt, 62);
      Pow2Values();
    }
    ScalesUp(base, Pow2(attempt));
  }

  lemma ScalesUp(a: int, p: int)
    requires a > 0 && p > 0
    ensures a * p >= p && a * p >= a
  {
    assert (a - 1) * p >= 0;
    assert a * (p - 1) >= 0;
  }

  lemma MulGrows(a: int, p: int, q: int)
    requires a > 0 && p <= q
    ensures a * p <= a * q
  {
    assert a * (q - p) >= 0;
  }

  const DEFAULT_BASE := 10 * SECOND
  const DEFAULT_MAX := 3600 * SECOND

  lemma FarProduct(k: int)
    ensures 10_000_000_000 * (k * 0x1_0000_0000) == (9_765_625 * k) * 0x400_0000_0000
  {
  }

  lemma FarShift(attempt: nat)
    requires attempt >= 32
    ensures ShiftOne(attempt) % 0x1_0000_0000 == 0
  {
    if attempt < 64 {
      Pow2Values();
      Pow2Grows(32, attempt);
      WrapKeepsRest(Pow2(attempt), 0x1_0000_0000, 0x1_0000_0000);
    }
  }

  lemma CoarseIsFar(d: int)
    requires d % 0x400_0000_0000 == 0
    ensures d <= 0 || d > 3_600_000_000_000
  {
  }

  // From 2^32 on, every wrapped product is a multiple of 2^42: zero, negative or above an hour.
  lemma FarShiftsExceed(attempt: nat)
    requires attempt >= 32
    ensures var d := Wrap(DEFAULT_BASE * ShiftOne(attempt)); d <= 0 || d > DEFAULT_MAX
  {
    var p := ShiftOne(attempt);
    FarShift(attempt);
    var k := p / 0x1_0000_0000;
    assert p == k * 0x1_0000_0000;
    FarProduct(k);
    MultipleHasNoRest(9_765_625 * k, 0x400_0000_0000);
    WrapKeepsRest(DEFAULT_BASE * p, 0x400_0000_0000, 0x40_0000);
    CoarseIsFar(Wrap(DEFAULT_BASE * p));
  }

  lemma WrapKeepsRest(x: int, m: int, c: int)
    requires m > 0 && x % m == 0 && m * c == TWO_64
    ensures Wrap(x) % m == 0
  {
    var y := x + TWO_63;
    var w := Wrap(x);
    var q := x / m - (y / TWO_64) * c;
    assert w == x - (y / TWO_64) * TWO_64;
    assert w == q * m by {
      assert x == (x / m) * m;
      assert (y / TWO_64) * TWO_64 == ((y / TWO_64) * c) * m;
    }
    MultipleHasNoRest(q, m);
  }

  lemma UpTo29(attempt: nat)
    requires attempt <= 29
    ensures DEFAULT_BASE * Pow2(attempt) < TWO_63
  {
    Pow2Grows(attempt, 29);
    Pow2Values();
    assert Pow2(30) == 2 * Pow2(29);
    MulGrows(DEFAULT_BASE, Pow2(attempt), 0x2000_0000);
  }

  lemma From30(attempt: nat)
    requires attempt >= 30
    ensures DEFAULT_BASE * Pow2(attempt) > DEFAULT_MAX
  {
    Pow2Grows(30, attempt);
    Pow2Values();
    MulGrows(DEFAULT_BASE, 0x4000_0000, Pow2(attempt));
  }

  /** With the default 10 s and 3600 s: min(10 s * 2^attempt, 3600 s) for every attempt, the
      ones whose shift or product overflows included. */
  lemma DefaultBackoffIsExact(attempt: nat)
    ensures CallbackBackoff(DEFAULT_BASE, DEFAULT_MAX, attempt) == Min(DEFAULT_BASE * Pow2(attempt), DEFAULT_MAX)
    ensures DEFAULT_BASE == 10_000_000_000 && DEFAULT_MAX == 3_600_000_000_000
  {
    if attempt <= 29 {
      UpTo29(attempt);
      CallbackBackoffExact(DEFAULT_BASE, DEFAULT_MAX, attempt);
    } else {
      From30(attempt);
      if attempt >= 32 {
        FarShiftsExceed(attempt);
      } else {
        NearOverflow(attempt);
      }
    }
  }

  // The two products that overflow but are not far enough to be multiples of 2^42.
  lemma NearOverflow(attempt: nat)
    requires attempt == 30 || attempt == 31
    ensures var d := Wrap(DEFAULT_BASE * ShiftOne(attempt)); d <= 0 || d > DEFAULT_MAX
  {
    Pow2Values();
    var p := if attempt == 30 then 0x4000_0000 else 0x8000_0000;
    assert ShiftOne(attempt) == p;
    WrapPeriodic(DEFAULT_BASE * p, -1);
    assert Fits(DEFAULT_BASE * p - TWO_64);
  }
}
