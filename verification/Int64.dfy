/** 64-bit two's complement arithmetic, as Go's int64 and time.Duration have it. */
module Int64 {
  const TWO_63 := 0x8000_0000_0000_0000
  const TWO_64 := 0x1_0000_0000_0000_0000

  predicate Fits(x: int) { -TWO_63 <= x < TWO_63 }

  // What is left of a result x that need not fit.
  function Wrap(x: int): (w: int)
    ensures Fits(w)
    ensures Fits(x) ==> w == x
    ensures (x - w) % TWO_64 == 0
  {
    (x + TWO_63) % TWO_64 - TWO_63
  }

  function Pow2(n: nat): (p: int)
    ensures p >= 1
  {
    if n == 0 then 1 else 2 * Pow2(n - 1)
  }

  // int64(1) << uint(n): a negative n becomes a huge shift.
  function ShiftOne(n: int): int {
    if 0 <= n < 64 then Wrap(Pow2(n)) else 0
  }

  lemma {:induction false} Pow2Add(m: nat, n: nat)
    ensures Pow2(m + n) == Pow2(m) * Pow2(n)
  {
    if m > 0 {
      Pow2Add(m - 1, n);
      assert Pow2(m + n) == 2 * (Pow2(m - 1) * Pow2(n)) == (2 * Pow2(m - 1)) * Pow2(n);
    }
  }

  lemma Pow2Grows(m: nat, n: nat)
    requires m <= n
    ensures Pow2(m) <= Pow2(n)
    ensures Pow2(n) % Pow2(m) == 0
  {
    Pow2Add(m, n - m);
    var a, b := Pow2(m), Pow2(n - m);
    assert a <= a * b;
    MultipleHasNoRest(b, a);
  }

  lemma MultipleHasNoRest(k: int, m: int)
    requires m > 0
    ensures (k * m) % m == 0 && (m * k) % m == 0
  {
    assert m * k == k * m + 0;
    RestIsUnique(k * m, m, k, 0);
  }

  // Division with rest has one answer.
  lemma RestIsUnique(x: int, m: int, q: int, r: int)
    requires m > 0 && 0 <= r < m && x == q * m + r
    ensures x % m == r
  {
    var d := x / m - q;
    assert x == m * (x / m) + x % m;
    assert d * m == r - x % m by {
      assert (x / m - q) * m == (x / m) * m - q * m;
    }
    assert d >= 1 ==> d * m >= m;
    assert d <= -1 ==> d * m <= -m;
  }

  // Wrapping changes a number by a multiple of 2^64 and by nothing else.
  lemma WrapPeriodic(x: int, k: int)
    ensures Wrap(x + k * TWO_64) == Wrap(x)
  {
    var y := x + TWO_63;
    RestIsUnique(y + k * TWO_64, TWO_64, y / TWO_64 + k, y % TWO_64);
  }

  lemma Pow2Values()
    ensures Pow2(9) == 512 && Pow2(10) == 1024 && Pow2(30) == 0x4000_0000 && Pow2(31) == 0x8000_0000
    ensures Pow2(32) == 0x1_0000_0000
    ensures Pow2(62) == 0x4000_0000_0000_0000 && Pow2(63) == TWO_63 && Pow2(64) == TWO_64
  {
    assert Pow2(4) == 16;
    assert Pow2(8) == 256;
    assert Pow2(10) == 1024;
    Pow2Add(10, 10);
    Pow2Add(20, 10);
    Pow2Add(30, 30);
    assert Pow2(32) == 4 * Pow2(30);
    assert Pow2(64) == 16 * Pow2(60);
  }
}
