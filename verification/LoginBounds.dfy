/** How many login attempts get through: in one window, and in any interval of one window length.
    Attempts and reaps enter in lock order with the clocks they read before; how far those may lag
    for the bounds to hold is decided exactly. */
module LoginBounds {
  import opened Counting
  import opened LoginLimiter

  ghost predicate Positive(h: Hits) { forall ip | ip in h :: h[ip].n >= 1 }

  lemma KeepsUpRest(evs: seq<Event>, lag: int)
    requires evs != [] && KeepsUp(evs, lag)
    ensures KeepsUp(evs[1..], lag)
  {
    var rest := evs[1..];
    forall k, l | 0 <= k < l < |rest| && rest[k].Reaps? && rest[l].Hit? ensures rest[k].at <= rest[l].at + lag {
      assert rest[k] == evs[k + 1] && rest[l] == evs[l + 1];
    }
  }

  // ----- one window -----

  // Attempts of ip counted in a window that starts at start, and those of them let through.
  ghost function Attempts(vs: seq<Verdict>, ip: string, start: int): nat
    decreases |vs|
  {
    if vs == [] then 0
    else Bit(vs[0].ip == ip && vs[0].window == start) + Attempts(vs[1..], ip, start)
  }

  ghost function Granted(vs: seq<Verdict>, ip: string, start: int): nat
    decreases |vs|
  {
    if vs == [] then 0
    else Bit(vs[0].ip == ip && vs[0].window == start && vs[0].ok) + Granted(vs[1..], ip, start)
  }

  function Min(a: int, b: int): int { if a < b then a else b }

  // How many attempts the window has seen before the run goes on.
  function SeenIn(w: Option<Win>, start: int): int {
    if w.Some? && w.value.start == start then w.value.n else 0
  }

  // No window that starts at start is open or will be opened.
  ghost predicate Gone(w: Option<Win>, evs: seq<Event>, ip: string, start: int) {
    if w.Some? then w.value.start > start
    else forall e | e in evs && e.Hit? && e.ip == ip :: e.at > start
  }

  // What the run still grants in the window that starts at start.
  ghost predicate GrantsRest(h: Hits, window: int, max: int, evs: seq<Event>, ip: string, start: int) {
    var vs := Verdicts(h, window, max, evs);
    var seen := SeenIn(Entry(h, ip), start);
    Granted(vs, ip, start) == Min(seen + Attempts(vs, ip, start), max) - Min(seen, max) &&
    (Gone(Entry(h, ip), evs, ip, start) ==> Attempts(vs, ip, start) == 0)
  }

  lemma HitGrants(h: Hits, window: int, max: int, evs: seq<Event>, ip: string, start: int)
    requires max > 0 && window > 0 && Positive(h) && evs != [] && evs[0].Hit?
    requires GrantsRest(After(h, window, evs[0]), window, max, evs[1..], ip, start)
    ensures GrantsRest(h, window, max, evs, ip, start)
  {
    var e, rest := evs[0], evs[1..];
    var vs := Verdicts(h, window, max, evs);
    assert e in evs && forall x | x in rest :: x in evs;
    assert vs[0] == Judge(h, window, max, e.ip, e.at) && vs[1..] == Verdicts(After(h, window, e), window, max, rest);
    if e.ip == ip {
      OneGrant(Entry(h, ip), window, max, e.at, start);
    }
  }

  lemma ReapGrants(h: Hits, window: int, max: int, evs: seq<Event>, ip: string, start: int)
    requires max > 0 && window > 0 && evs != [] && evs[0].Reaps? && KeepsUp(evs, window)
    requires GrantsRest(Reaped(h, window, evs[0].at), window, max, evs[1..], ip, start)
    ensures GrantsRest(h, window, max, evs, ip, start)
  {
    var h1 := Reaped(h, window, evs[0].at);
    assert forall x | x in evs[1..] :: x in evs;
    assert Verdicts(h, window, max, evs) == Verdicts(h1, window, max, evs[1..]);
    if ip in h && ip !in h1 {
      ReapedIsGone(h, window, evs, ip);
      assert h[ip].start >= start ==> Gone(Entry(h1, ip), evs[1..], ip, start);
    } else {
      assert Entry(h1, ip) == Entry(h, ip);
      assert Gone(Entry(h, ip), evs, ip, start) ==> Gone(Entry(h1, ip), evs[1..], ip, start);
    }
  }

  // A window once left is never counted in again; before that it grants up to max.
  lemma {:induction false} GrantsUpToMax(h: Hits, window: int, max: int, evs: seq<Event>, ip: string, start: int)
    requires max > 0 && window > 0 && Positive(h) && KeepsUp(evs, window)
    ensures GrantsRest(h, window, max, evs, ip, start)
    decreases |evs|
  {
    if evs != [] {
      KeepsUpRest(evs, window);
      GrantsUpToMax(After(h, window, evs[0]), window, max, evs[1..], ip, start);
      if evs[0].Hit? {
        HitGrants(h, window, max, evs, ip, start);
      } else {
        ReapGrants(h, window, max, evs, ip, start);
      }
    }
  }

  lemma OneGrant(w: Option<Win>, window: int, max: int, at: int, start: int)
    requires max > 0 && window > 0 && (w.Some? ==> w.value.n >= 1)
    ensures var w1 := Counted(w, window, at);
            SeenIn(Some(w1), start) == (if w1.start == start then SeenIn(w, start) + 1 else 0) &&
            (w.Some? ==> w1.start >= w.value.start) &&
            (Admitted(w, window, max, at) <==> SeenIn(w, w1.start) < max)
  {
  }

  // Attempts at most one window behind the reaper are later than all it has removed.
  lemma ReapedIsGone(h: Hits, window: int, evs: seq<Event>, ip: string)
    requires evs != [] && evs[0].Reaps? && KeepsUp(evs, window) && ip in h
    ensures var h1 := Reaped(h, window, evs[0].at);
            ip in h1 || Gone(Entry(h1, ip), evs[1..], ip, h[ip].start)
  {
    if ip !in Reaped(h, window, evs[0].at) {
      forall e | e in evs[1..] && e.Hit? && e.ip == ip ensures e.at > h[ip].start {
        LaterHit(evs, window, e);
      }
    }
  }

  // The window is full, reaped, and opened once more by an attempt that read its starting time.
  ghost function Reopened(window: int, max: nat, ip: string): seq<Event> {
    Burst(ip, 0, max) + [Reaps(window + 1), Hit(ip, 0)]
  }

  lemma ReopenedKeepsUp(window: int, max: nat, ip: string)
    requires window > 0
    ensures KeepsUp(Reopened(window, max, ip), window + 1)
  {
    BurstIsHits(ip, 0, max);
    var evs := Reopened(window, max, ip);
    assert forall k | 0 <= k < max :: evs[k] == Burst(ip, 0, max)[k] && evs[k] in Burst(ip, 0, max);
  }

  lemma {:induction false} CountsOfCopies(v: Verdict, k: nat, vs: seq<Verdict>)
    requires v.ok
    ensures Attempts(Copies(v, k) + vs, v.ip, v.window) == k + Attempts(vs, v.ip, v.window)
    ensures Granted(Copies(v, k) + vs, v.ip, v.window) == k + Granted(vs, v.ip, v.window)
    decreases k
  {
    if k == 0 {
      assert Copies(v, k) + vs == vs;
    } else {
      CountsOfCopies(v, k - 1, vs);
      CopiesCons(v, k, vs);
      assert ([v] + (Copies(v, k - 1) + vs))[1..] == Copies(v, k - 1) + vs;
    }
  }

  lemma ReopenedGrantsMore(window: int, max: nat, ip: string)
    requires window > 0 && max > 0
    ensures var vs := Verdicts(map[], window, max, Reopened(window, max, ip));
            Granted(vs, ip, 0) == max + 1 && Attempts(vs, ip, 0) == max + 1
  {
    var last := [Hit(ip, 0)] + [];
    assert [Reaps(window + 1), Hit(ip, 0)] == [Reaps(window + 1)] + last;
    VerdictsOfOpening(map[], window, max, ip, 0, max, [Reaps(window + 1)] + last);
    var full: Hits := map[ip := Win(max, 0)];
    VerdictsOfReap(full, window, max, window + 1, last);
    VerdictsOfHit(Reaped(full, window, window + 1), window, max, ip, 0, []);
    var again := Verdict(ip, 0, true, 0);
    assert [again][1..] == [];
    assert Verdicts(full, window, max, [Reaps(window + 1)] + last) == [again];
    CountsOfCopies(again, max, [again]);
  }

  /** Of the attempts counted in one window exactly the first max are let through, over any run
      and in any order of attempts, exactly when attempts lag at most one window behind a reap. */
  lemma WindowAdmitsMaxIff(window: int, max: nat, lag: nat)
    requires max > 0 && window > 0
    ensures (forall evs, ip, start | KeepsUp(evs, lag) ::
               Granted(Verdicts(map[], window, max, evs), ip, start) ==
               Min(Attempts(Verdicts(map[], window, max, evs), ip, start), max)) <==>
            lag <= window
  {
    if lag <= window {
      forall evs, ip, start | KeepsUp(evs, lag)
        ensures Granted(Verdicts(map[], window, max, evs), ip, start) ==
                Min(Attempts(Verdicts(map[], window, max, evs), ip, start), max)
      {
        GrantsUpToMax(map[], window, max, evs, ip, start);
      }
    } else {
      ReopenedKeepsUp(window, max, "");
      ReopenedGrantsMore(window, max, "");
      assert KeepsUp(Reopened(window, max, ""), lag);
    }
  }

  // ----- one interval -----

  // Admitted attempts of ip in [lo, lo + window].
  ghost function Passed(vs: seq<Verdict>, ip: string, lo: int, window: int): nat
    decreases |vs|
  {
    if vs == [] then 0
    else Bit(Within(vs[0], ip, lo, window)) + Passed(vs[1..], ip, lo, window)
  }

  predicate Within(v: Verdict, ip: string, lo: int, window: int) {
    v.ip == ip && v.ok && lo <= v.at <= lo + window
  }

  // Attempts of ip enter at most back behind the latest clock an earlier one has read.
  ghost predicate Late(evs: seq<Event>, ip: string, from: int, back: nat)
    decreases |evs|
  {
    if evs == [] then true
    else if evs[0].Hit? && evs[0].ip == ip
    then from <= evs[0].at + back && Late(evs[1..], ip, Later(from, evs[0].at), back)
    else Late(evs[1..], ip, from, back)
  }

  function Later(a: int, b: int): int { if a < b then b else a }

  // No attempt of ip read a clock more than back before the start of the window it is counted in.
  ghost predicate Leads(vs: seq<Verdict>, ip: string, back: nat) {
    forall v | v in vs && v.ip == ip :: v.window <= v.at + back
  }

  lemma {:induction false} LateLeads(h: Hits, window: int, max: int, evs: seq<Event>, ip: string, from: int, back: nat)
    requires Late(evs, ip, from, back) && (ip in h ==> h[ip].start <= from)
    ensures Leads(Verdicts(h, window, max, evs), ip, back)
    decreases |evs|
  {
    if evs != [] {
      var e := evs[0];
      var next := if e.Hit? && e.ip == ip then Later(from, e.at) else from;
      LateLeads(After(h, window, e), window, max, evs[1..], ip, next, back);
    }
  }

  // ----- attempts in the order of the windows: a budget -----

  // What an entry can still let through in [lo, lo + window], windows after its own included.
  function Budget(w: Option<Win>, window: int, max: int, lo: int, back: int): int {
    if w.None? || w.value.start <= lo - window then 2 * max
    else
      var left := if w.value.n < max then max - w.value.n else 0;
      var tail := if back == 0 then 0 else max - 1;
      if w.value.start < lo then left + max + tail
      else if w.value.start == lo then left + max
      else if w.value.start < lo + window then left + tail
      else if w.value.start <= lo + window + back then left
      else 0
  }

  predicate Tame(window: int, max: int, back: int) { back == 0 || (max == 2 && back < window) }

  // An attempt in the interval that is let through is paid from the budget; no other adds to it.
  lemma BudgetPays(w: Option<Win>, window: int, max: int, lo: int, back: nat, at: int)
    requires max > 0 && window > 0 && Tame(window, max, back) && (w.Some? ==> w.value.n >= 1)
    requires Counted(w, window, at).start <= at + back
    ensures 0 <= Budget(Some(Counted(w, window, at)), window, max, lo, back)
    ensures Budget(Some(Counted(w, window, at)), window, max, lo, back) +
            Bit(Admitted(w, window, max, at) && lo <= at <= lo + window)
            <= Budget(w, window, max, lo, back)
  {
  }

  lemma {:induction false} PassedInBudget(
    h: Hits, window: int, max: int, evs: seq<Event>, ip: string, lo: int, back: nat)
    requires max > 0 && window > 0 && Tame(window, max, back) && Positive(h) && forall e | e in evs :: e.Hit?
    requires Leads(Verdicts(h, window, max, evs), ip, back)
    ensures Passed(Verdicts(h, window, max, evs), ip, lo, window) <=
            Later(0, Budget(Entry(h, ip), window, max, lo, back))
    decreases |evs|
  {
    if evs != [] {
      var e, rest := evs[0], evs[1..];
      var h1 := After(h, window, e);
      var vs := Verdicts(h, window, max, evs);
      assert e in evs && vs[0] == Judge(h, window, max, e.ip, e.at) && vs[1..] == Verdicts(h1, window, max, rest);
      assert vs[0] in vs && forall v | v in vs[1..] :: v in vs;
      PassedInBudget(h1, window, max, rest, ip, lo, back);
      if e.ip == ip {
        BudgetPays(Entry(h, ip), window, max, lo, back, e.at);
      }
    }
  }

  lemma {:induction false} OnlyHits(evs: seq<Event>)
    ensures forall e | e in HitsOnly(evs) :: e.Hit?
    decreases |evs|
  {
    if evs != [] {
      OnlyHits(evs[1..]);
    }
  }

  // Over any run, reaps and other addresses included, whose attempts keep up with the reaper.
  lemma AtMostTwice(window: int, max: int, evs: seq<Event>, ip: string, lo: int, back: nat)
    requires max > 0 && window > 0 && Tame(window, max, back)
    requires KeepsUp(evs, 1) && Leads(Verdicts(map[], window, max, evs), ip, back)
    ensures Passed(Verdicts(map[], window, max, evs), ip, lo, window) <= 2 * max
  {
    ReaperIsInvisible(map[], map[], window, max, evs);
    OnlyHits(evs);
    PassedInBudget(map[], window, max, HitsOnly(evs), ip, lo, back);
  }

  // ----- one attempt a window: openings keep their distance -----

  // How many openings the interval can still see when the next is at gap or later.
  function Openings(gap: int, spacing: int, lo: int, window: int): int {
    if gap > lo + window then 0 else if gap + spacing > lo + window then 1 else 2
  }

  // ip is not let through before gap.
  ghost predicate ShutUntil(w: Option<Win>, evs: seq<Event>, ip: string, gap: int, spacing: int) {
    if w.Some? then gap <= w.value.start + spacing
    else forall e | e in evs && e.Hit? && e.ip == ip :: gap <= e.at
  }

  function Spacing(window: int, lag: int): int { Min(window, window + 1 - lag) }

  lemma {:induction false} SingleInOpenings(
    h: Hits, window: int, evs: seq<Event>, ip: string, lo: int, lag: int, gap: int)
    requires window > 0 && 2 * Spacing(window, lag) > window && Positive(h) && KeepsUp(evs, lag)
    requires ShutUntil(Entry(h, ip), evs, ip, gap, Spacing(window, lag))
    ensures Passed(Verdicts(h, window, 1, evs), ip, lo, window) <= Openings(gap, Spacing(window, lag), lo, window)
    decreases |evs|
  {
    if evs != [] {
      var e, rest := evs[0], evs[1..];
      var spacing := Spacing(window, lag);
      var h1 := After(h, window, e);
      var vs := Verdicts(h, window, 1, evs);
      assert e in evs && forall x | x in rest :: x in evs;
      KeepsUpRest(evs, lag);
      if e.Hit? {
        assert vs[0] == Judge(h, window, 1, e.ip, e.at) && vs[1..] == Verdicts(h1, window, 1, rest);
        var opens := e.ip == ip && Fresh(Entry(h, ip), window, e.at);
        SingleInOpenings(h1, window, rest, ip, lo, lag, if opens then e.at + spacing else gap);
      } else {
        assert vs == Verdicts(h1, window, 1, rest);
        ReapedStaysShut(h, window, evs, ip, lag, gap);
        SingleInOpenings(h1, window, rest, ip, lo, lag, gap);
      }
    }
  }

  lemma ReapedStaysShut(h: Hits, window: int, evs: seq<Event>, ip: string, lag: int, gap: int)
    requires evs != [] && evs[0].Reaps? && KeepsUp(evs, lag)
    requires ShutUntil(Entry(h, ip), evs, ip, gap, Spacing(window, lag))
    ensures ShutUntil(Entry(Reaped(h, window, evs[0].at), ip), evs[1..], ip, gap, Spacing(window, lag))
  {
    forall e | e in evs[1..] && e.Hit? && e.ip == ip && ip !in Reaped(h, window, evs[0].at) ensures gap <= e.at {
      LaterHit(evs, lag, e);
    }
  }

  lemma {:induction false} Earliest(evs: seq<Event>) returns (first: int)
    ensures forall e | e in evs :: first <= e.at
    decreases |evs|
  {
    if evs == [] {
      first := 0;
    } else {
      var later := Earliest(evs[1..]);
      first := Min(later, evs[0].at);
    }
  }

  // With max 1 the order of attempts does not matter, and reaps may even run ahead by half a window.
  lemma SingleAtMostTwice(window: int, evs: seq<Event>, ip: string, lo: int, lag: nat)
    requires window > 0 && 2 * lag < window + 2 && KeepsUp(evs, lag)
    ensures Passed(Verdicts(map[], window, 1, evs), ip, lo, window) <= 2
  {
    var first := Earliest(evs);
    SingleInOpenings(map[], window, evs, ip, lo, lag, first);
  }
}
