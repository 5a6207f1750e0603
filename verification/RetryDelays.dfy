/** retryBackoff: the doubling loop on int64 nanoseconds, for every cap it can be given. */
module RetryDelays {
  import opened Backoff
  import opened Int64

  const DEFAULT_RETRY_MAX := 1800 * SECOND
  const TWO_62 := 0x4000_0000_0000_0000

  // RetryIntervalSec as a duration of at least one second.
  function RetryBase(seconds: int): int { Max(Wrap(seconds * SECOND), SECOND) }

  function RetryCap(max: int): int { if max <= 0 then DEFAULT_RETRY_MAX else max }

  // The closed form; a base above the cap counts as the cap.
  function RetryDelay(base: int, cap: int, index: nat): int {
    Min(base * Pow2(index), Max(base, cap))
  }

  function Times(index: int): nat { if index < 0 then 0 else index }

  // At most n wrapped doublings, none once d has reached the cap.
  function Loop(d: int, cap: int, n: nat): int
    decreases n
  {
    if n == 0 || d >= cap then d else Loop(Wrap(d * 2), cap, n - 1)
  }

  function Settled(d: int, cap: int): int {
    if d <= 0 || d > cap then cap else d
  }

  function RetryResult(seconds: int, index: int, max: int): int {
    var base := RetryBase(seconds);
    var cap := Max(base, RetryCap(max));
    Settled(Loop(base, cap, Times(index)), cap)
  }

  // Up to 2^62 ns the loop never overflows, turns at most 33 times and gives the closed form.
  method RetryBackoff(seconds: int, index: int, max: int) returns (d: int, turns: nat)
    requires Fits(seconds) && Fits(index) && Fits(max)
    ensures d == RetryResult(seconds, index, max)
    // an interval of seconds, at least one, doubled index times up to max, half an hour if max is not set
    ensures 0 < seconds <= 1800 && max <= 0 && index >= 0 ==>
              d == Min(seconds * 1_000_000_000 * Pow2(index), 1_800_000_000_000)
    ensures 0 < seconds <= 1_000_000_000 && seconds * 1_000_000_000 <= max <= TWO_62 && index >= 0 ==>
              d == Min(seconds * 1_000_000_000 * Pow2(index), max)
    ensures seconds <= 0 && seconds > -1_000_000_000 && 1_000_000_000 <= max <= TWO_62 && index >= 0 ==>
              d == Min(1_000_000_000 * Pow2(index), max)
    ensures RetryCap(max) <= TWO_62 ==> turns <= 33 && d == RetryDelay(RetryBase(seconds), RetryCap(max), Times(index))
  {
    var cap := max;
    if cap <= 0 {
      cap := DEFAULT_RETRY_MAX;
    }
    var base := Wrap(seconds * SECOND);
    if base < SECOND {
      base := SECOND;
    }
    if base > cap {
      cap := base;
    }
    d, turns := base, 0;
    while turns < index && d < cap
      invariant turns <= Times(index) && Loop(base, cap, Times(index)) == Loop(d, cap, Times(index) - turns)
      invariant RetryCap(max) <= TWO_62 ==> turns <= 33 && d == base * Pow2(turns)
      invariant base == cap ==> turns == 0
    {
      if cap <= TWO_62 {
        ScalesUp(base, Pow2(turns));
        DoublesAtMost33(base, d, turns);
      }
      d := Wrap(d * 2);
      turns := turns + 1;
    }
    if RetryCap(max) <= TWO_62 {
      DoublingStops(base, cap, d, turns, Times(index));
    }
    if d <= 0 || d > cap {
      d := cap;
    }
  }

  lemma ThirtyThree(base: int)
    requires base >= SECOND
    ensures base * Pow2(33) > TWO_62
  {
    Pow2Values();
    var p := Pow2(33);
    assert p == 0x2_0000_0000;
  }

  lemma MulTwo(a: int, p: int)
    ensures a * (2 * p) == (a * p) * 2 == (a * 2) * p
  {
  }

  lemma DoublesAtMost33(base: int, d: int, turns: nat)
    requires base >= SECOND && d == base * Pow2(turns) && 0 < d < TWO_62 && turns <= 33
    ensures turns < 33 && d * 2 == base * Pow2(turns + 1) && Fits(d * 2)
  {
    ThirtyThree(base);
    MulTwo(base, Pow2(turns));
  }

  // Once the product has reached the cap, further doublings cannot bring it back under it.
  lemma DoublingStops(base: int, cap: int, d: int, turns: nat, index: nat)
    requires base > 0 && d == base * Pow2(turns) && turns <= index && (turns == index || d >= cap)
    ensures Min(d, cap) == Min(base * Pow2(index), cap) && d > 0
  {
    Pow2Grows(turns, index);
    ScalesUp(base, Pow2(turns));
    MulGrows(base, Pow2(turns), Pow2(index));
  }

  lemma RetryDelayMonotone(base: int, cap: int, i: nat, j: nat)
    requires base > 0 && i <= j
    ensures RetryDelay(base, cap, i) <= RetryDelay(base, cap, j)
    ensures base <= RetryDelay(base, cap, i) <= Max(base, cap)
  {
    Pow2Grows(i, j);
    MulGrows(base, Pow2(i), Pow2(j));
    ScalesUp(base, Pow2(i));
  }

  // ----- exactly which caps are honoured -----

  // A whole number of seconds, wrapped, is a multiple of 512 ns.
  lemma BaseIsCoarse(seconds: int)
    ensures RetryBase(seconds) % 512 == 0 && SECOND <= RetryBase(seconds) < TWO_63
  {
    var k := seconds * 1_953_125;
    assert seconds * SECOND == k * 512;
    MultipleHasNoRest(k, 512);
    WrapKeepsRest(seconds * SECOND, 512, 0x80_0000_0000_0000);
  }

  // 2^62 doubles to -2^63, and that to 0: never to anything positive.
  lemma {:induction false} LoopNonPositive(d: int, cap: int, n: nat)
    requires cap > 0 && (d == -TWO_63 || d == 0)
    ensures Loop(d, cap, n) <= 0
    decreases n
  {
    if n > 0 {
      WrapPeriodic(0, -1);
      assert Wrap(d * 2) == 0;
      LoopNonPositive(0, cap, n - 1);
    }
  }

  lemma DoubledOnce(d: int, n: nat)
    requires n > 0
    ensures d * Pow2(n) == (d * 2) * Pow2(n - 1)
  {
    MulTwo(d, Pow2(n - 1));
  }

  // A multiple of 512 below such a cap is at most 2^62, and doubles as it should or never comes back.
  lemma {:induction false} LoopExact(d: int, cap: int, n: nat)
    requires 0 < d < TWO_63 && d % 512 == 0 && cap > 0 && (d >= cap || cap <= TWO_62 + 512)
    ensures Settled(Loop(d, cap, n), cap) == Min(d * Pow2(n), cap)
    decreases n
  {
    ScalesUp(d, Pow2(n));
    if n > 0 && d < cap {
      assert d <= TWO_62;
      DoubledOnce(d, n);
      if d == TWO_62 {
        WrapPeriodic(d * 2, -1);
        LoopNonPositive(-TWO_63, cap, n - 1);
        ScalesUp(d * 2, Pow2(n - 1));
      } else {
        LoopExact(d * 2, cap, n - 1);
      }
    }
  }

  // The base that shows it, reached from a RetryIntervalSec whose product wraps.
  const WITNESS := 29_218_706_440_494_189

  lemma WitnessBase()
    ensures Fits(WITNESS) && RetryBase(WITNESS) == TWO_62 + 512
  {
    assert WITNESS * SECOND == TWO_62 + 512 + 1_583_949 * TWO_64;
    WrapPeriodic(TWO_62 + 512, 1_583_949);
  }

  lemma WitnessFails(max: int)
    requires RetryCap(max) > TWO_62 + 512
    ensures RetryResult(WITNESS, 2, max) == 2048
    ensures RetryDelay(RetryBase(WITNESS), RetryCap(max), 2) > 2048
  {
    WitnessBase();
    var base, cap := TWO_62 + 512, RetryCap(max);
    WrapPeriodic(base * 2, -1);
    assert Wrap(base * 2) == base * 2 - TWO_64;
    WrapPeriodic((base * 2 - TWO_64) * 2, 1);
    assert Loop(base, cap, 2) == Loop(base * 2 - TWO_64, cap, 1) == Loop(2048, cap, 0);
    assert Pow2(2) == 4;
  }

  predicate Honoured(seconds: int, index: int, max: int) {
    RetryResult(seconds, index, max) == RetryDelay(RetryBase(seconds), RetryCap(max), Times(index))
  }

  /** A cap gives the closed form for every interval and index exactly when it is at most
      2^62 + 512 ns. */
  lemma HonouredIff(max: int)
    requires Fits(max)
    ensures (forall seconds, index | Fits(seconds) && Fits(index) :: Honoured(seconds, index, max)) <==>
            RetryCap(max) <= TWO_62 + 512
  {
    if RetryCap(max) <= TWO_62 + 512 {
      forall seconds, index | Fits(seconds) && Fits(index) ensures Honoured(seconds, index, max) {
        BaseIsCoarse(seconds);
        LoopExact(RetryBase(seconds), Max(RetryBase(seconds), RetryCap(max)), Times(index));
      }
    } else {
      WitnessBase();
      WitnessFails(max);
      assert !Honoured(WITNESS, 2, max);
    }
  }

  // Doublings that neither overflow nor reach the cap are just carried out.
  lemma {:induction false} LoopRunsOn(d: int, cap: int, k: nat, n: nat)
    requires d > 0 && k <= n && d * Pow2(k) < cap <= TWO_63
    ensures Loop(d, cap, n) == Loop(d * Pow2(k), cap, n - k)
    decreases k
  {
    if k > 0 {
      ScalesUp(d, Pow2(k));
      ScalesUp(d * 2, Pow2(k - 1));
      DoubledOnce(d, k);
      assert d < cap && Fits(d * 2);
      LoopRunsOn(d * 2, cap, k - 1, n - 1);
    } else {
      assert d * Pow2(0) == d;
    }
  }

  // 3 s doubled 31 times, and then twice more across the end of the range.
  lemma LastTwoTurns(cap: int)
    requires cap == 9_223_372_036 * SECOND
    ensures Loop(3 * SECOND * 0x8000_0000, cap, 2) == 7_323_059_702_290_448_384
  {
    var d := 3 * SECOND * 0x8000_0000;
    WrapPeriodic(d * 2, -1);
    assert Wrap(d * 2) == d * 2 - TWO_64;
    WrapPeriodic((d * 2 - TWO_64) * 2, 1);
    assert Wrap((d * 2 - TWO_64) * 2) == d * 4 - TWO_64;
    assert Loop(d, cap, 2) == Loop(d * 2 - TWO_64, cap, 1) == Loop(d * 4 - TWO_64, cap, 0);
  }

  lemma Past31()
    ensures 3 * SECOND * Pow2(31) == 3 * SECOND * 0x8000_0000
  {
    Pow2Values();
    assert Pow2(31) == 0x8000_0000;
  }

  lemma First31Turns(cap: int)
    requires cap == 9_223_372_036 * SECOND
    ensures Loop(3 * SECOND, cap, 33) == Loop(3 * SECOND * 0x8000_0000, cap, 2)
  {
    Past31();
    LoopRunsOn(3 * SECOND, cap, 31, 33);
  }

  /** A setting that falls short without any product of seconds wrapping: RetryIntervalSec 3 and
      RetryMaxBackoffSec 9223372036 give, at index 33, a delay below the cap that is due. */
  lemma LargeCapFails()
    ensures var max := 9_223_372_036 * SECOND;
            Fits(max) && RetryResult(3, 33, max) == 7_323_059_702_290_448_384 &&
            RetryDelay(RetryBase(3), RetryCap(max), 33) == max > 7_323_059_702_290_448_384
  {
    var cap := 9_223_372_036 * SECOND;
    First31Turns(cap);
    LastTwoTurns(cap);
    Past33();
  }

  lemma Past33()
    ensures 3 * SECOND * Pow2(33) > TWO_63
  {
    Pow2Values();
    assert Pow2(33) == 0x2_0000_0000;
  }
}
