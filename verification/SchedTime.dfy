/** internal/schedtime/next.go: the next run of a schedule. Interval arithmetic is that of
    int64 nanoseconds; the cron engines are an oracle. */
module SchedTime {
  import opened Counting
  import opened Int64
  import opened Claims

  datatype Result<T> = Ok(value: T) | Err

  const MILLISECOND := 1_000_000
  const SECOND := 1_000_000_000
  const YEAR := 365 * 24 * 3600 * SECOND

  predicate Interval(kind: string) { kind == "fix_rate" || kind == "fix_delay" || kind == "delay" }

  function Unit(kind: string): int { if kind == "delay" then SECOND else MILLISECOND }

  // number is what strconv makes of the expression, cron the oracle's answer for it.
  function NextByKind(kind: string, number: Option<int>, cron: Result<int>, from: int): Result<Option<int>> {
    if kind == "cron" then (if cron.Ok? then Ok(Some(cron.value)) else Err)
    else if Interval(kind) then
      if number.None? || number.value <= 0 then Err
      else
        var d := Wrap(number.value * Unit(kind));
        if d <= 0 || d > YEAR then Err else Ok(Some(from + d))
    else if kind == "api" || kind == "run_at" || kind == "" then Ok(None)
    else Err
  }

  // What a kind answers: a cron job the engine's time, a job without a schedule nothing, all else an error.
  lemma KindsDecided(kind: string, number: Option<int>, cron: Result<int>, from: int)
    ensures forall t | kind == "cron" :: NextByKind(kind, number, cron, from) == Ok(Some(t)) <==> cron == Ok(t)
    ensures kind == "cron" && cron.Err? ==> NextByKind(kind, number, cron, from).Err?
    ensures NextByKind(kind, number, cron, from) == Ok(None) <==> kind in {"api", "run_at", ""}
    ensures kind !in {"cron", "fix_rate", "fix_delay", "delay", "api", "run_at", ""} ==>
              NextByKind(kind, number, cron, from).Err?
    ensures kind in {"fix_rate", "fix_delay"} && number.Some? && 31_536_000_000 < number.value < 9_223_372_036_854 ==>
              NextByKind(kind, number, cron, from).Err?
    ensures kind == "delay" && number.Some? && 31_536_000 < number.value < 9_223_372_036 ==>
              NextByKind(kind, number, cron, from).Err?
    ensures kind in {"fix_rate", "fix_delay", "delay"} && number.None? ==> NextByKind(kind, number, cron, from).Err?
  {
  }

  // An accepted interval lands within the year after from, whatever wrapped.
  lemma AcceptedIsWithinAYear(kind: string, n: int, cron: Result<int>, from: int)
    requires Interval(kind)
    ensures NextByKind(kind, Some(n), cron, from).Ok? ==>
              var next := NextByKind(kind, Some(n), cron, from).value;
              next.Some? && from < next.value <= from + YEAR
  {
  }

  // Acceptance, decided: a positive number whose product is, modulo 2^64, in (0, one year].
  lemma AcceptedIff(kind: string, n: int, cron: Result<int>, from: int)
    requires Interval(kind)
    ensures NextByKind(kind, Some(n), cron, from).Ok? <==> n > 0 && 0 < (n * Unit(kind)) % TWO_64 <= YEAR
    ensures NextByKind(kind, Some(n), cron, from).Ok? ==>
              NextByKind(kind, Some(n), cron, from).value == Some(from + (n * Unit(kind)) % TWO_64)
  {
    var x := n * Unit(kind);
    var r := x % TWO_64;
    assert x == (x / TWO_64) * TWO_64 + r;
    WrapPeriodic(r, x / TWO_64);
    assert Wrap(x) == Wrap(r);
    if r >= TWO_63 {
      WrapPeriodic(r, -1);
      assert Wrap(r) == r - TWO_64;
    }
  }

  /** Exactly the intervals of up to a year are accepted and honoured; longer ones whose
      product fits in int64 are rejected. */
  lemma ExactIff(kind: string, n: int, cron: Result<int>, from: int)
    requires Interval(kind)
    ensures NextByKind(kind, Some(n), cron, from) == Ok(Some(from + n * Unit(kind))) <==> 0 < n * Unit(kind) <= YEAR
    ensures YEAR < n * Unit(kind) < TWO_63 ==> NextByKind(kind, Some(n), cron, from).Err?
  {
    assert n <= 0 ==> n * Unit(kind) <= 0;
    assert n >= 1 ==> n * Unit(kind) >= 1;
  }

  // The period with which the check forgets: 2^58 ms, or 2^55 s.
  function Period(kind: string): int {
    if kind == "delay" then 0x80_0000_0000_0000 else 0x400_0000_0000_0000
  }

  // Numbers a whole period apart are treated alike; so 2^58 + 1 ms is accepted and means 1 ms.
  lemma PeriodicInNumber(kind: string, n: int, k: nat, cron: Result<int>, from: int)
    requires Interval(kind) && n > 0
    ensures NextByKind(kind, Some(n + k * Period(kind)), cron, from) == NextByKind(kind, Some(n), cron, from)
  {
    var u, p := Unit(kind), Period(kind);
    var c := if kind == "delay" then 1_953_125 else 15_625;
    assert p * u == c * TWO_64;
    assert (n + k * p) * u == n * u + (k * c) * TWO_64 by {
      assert (k * p) * u == k * (p * u) == k * (c * TWO_64) == (k * c) * TWO_64;
      assert (n + k * p) * u == n * u + (k * p) * u;
    }
    WrapPeriodic(n * u, k * c);
    assert k * p >= 0;
  }

  lemma WrappedIsOneMillisecond(cron: Result<int>, from: int)
    ensures Fits(0x400_0000_0000_0001)
    ensures NextByKind("fix_rate", Some(0x400_0000_0000_0001), cron, from) == Ok(Some(from + MILLISECOND))
  {
    PeriodicInNumber("fix_rate", 1, 1, cron, from);
  }

  // The numbers from which acceptance goes wrong: 18446744073710 ms, or 18446744074 s.
  function LeastWrapped(kind: string): int {
    if kind == "delay" then 18_446_744_074 else 18_446_744_073_710
  }

  // Below them an interval is honoured or rejected; they themselves are accepted as something else.
  lemma WrapsFromLeast(kind: string, n: int, cron: Result<int>, from: int)
    requires Interval(kind)
    ensures NextByKind(kind, Some(n), cron, from).Ok? && n < LeastWrapped(kind) ==>
              NextByKind(kind, Some(n), cron, from) == Ok(Some(from + n * Unit(kind)))
    ensures NextByKind(kind, Some(LeastWrapped(kind)), cron, from) ==
            Ok(Some(from + if kind == "delay" then 290_448_384 else 448_384))
  {
    AcceptedIff(kind, n, cron, from);
    AcceptedIff(kind, LeastWrapped(kind), cron, from);
    var x := n * Unit(kind);
    assert n < LeastWrapped(kind) ==> x < TWO_64;
    assert n > 0 ==> x > 0;
    var rest := if kind == "delay" then 290_448_384 else 448_384;
    RestIsUnique(LeastWrapped(kind) * Unit(kind), TWO_64, 1, rest);
  }

  // What a claim relies on: with a cron engine that looks ahead, the next run lies after from.
  lemma NextIsAfter(kind: string, number: Option<int>, cron: Result<int>, from: int)
    requires cron.Ok? ==> cron.value > from
    requires NextByKind(kind, number, cron, from).Ok?
    ensures After(NextByKind(kind, number, cron, from).value, from)
  {
    if Interval(kind) {
      AcceptedIsWithinAYear(kind, number.value, cron, from);
    }
  }
}
