/** Exactly how far attempts may lag, behind one another and behind the reaper, for the limiter to
    let at most twice its maximum through in any interval of one window length. */
module LoginOrder {
  import opened Counting
  import opened LoginLimiter
  import opened LoginBounds

  lemma {:induction false} PassedOfCopies(v: Verdict, k: nat, vs: seq<Verdict>, lo: int, window: int)
    requires v.ok
    ensures Passed(Copies(v, k) + vs, v.ip, lo, window) ==
            (if lo <= v.at <= lo + window then k else 0) + Passed(vs, v.ip, lo, window)
    decreases k
  {
    if k == 0 {
      assert Copies(v, k) + vs == vs;
    } else {
      PassedOfCopies(v, k - 1, vs, lo, window);
      CopiesCons(v, k, vs);
      assert ([v] + (Copies(v, k - 1) + vs))[1..] == Copies(v, k - 1) + vs;
    }
  }

  // A burst that opens a window, or goes on in one that has room, is counted in full.
  lemma OpeningPasses(
    h: Hits, window: int, max: int, ip: string, at: int, k: nat, rest: seq<Event>, lo: int)
    requires Fresh(Entry(h, ip), window, at) && window > 0 && 0 < k <= max
    ensures Passed(Verdicts(h, window, max, Burst(ip, at, k) + rest), ip, lo, window) ==
            (if lo <= at <= lo + window then k else 0) +
            Passed(Verdicts(h[ip := Win(k, at)], window, max, rest), ip, lo, window)
  {
    VerdictsOfOpening(h, window, max, ip, at, k, rest);
    PassedOfCopies(Verdict(ip, at, true, at), k, Verdicts(h[ip := Win(k, at)], window, max, rest), lo, window);
  }

  lemma BurstPasses(h: Hits, window: int, max: int, ip: string, at: int, k: nat, rest: seq<Event>, lo: int)
    requires ip in h && at - h[ip].start < window && h[ip].n + k <= max
    ensures Passed(Verdicts(h, window, max, Burst(ip, at, k) + rest), ip, lo, window) ==
            (if lo <= at <= lo + window then k else 0) +
            Passed(Verdicts(h[ip := Win(h[ip].n + k, h[ip].start)], window, max, rest), ip, lo, window)
  {
    VerdictsOfBurst(h, window, max, ip, at, k, rest);
    PassedOfCopies(Verdict(ip, at, true, h[ip].start), k,
                   Verdicts(h[ip := Win(h[ip].n + k, h[ip].start)], window, max, rest), lo, window);
  }

  lemma LateHit(ip: string, from: int, at: int, rest: seq<Event>, back: nat)
    requires from <= at + back && Late(rest, ip, Later(from, at), back)
    ensures Late([Hit(ip, at)] + rest, ip, from, back)
  {
    assert ([Hit(ip, at)] + rest)[1..] == rest;
  }

  lemma {:induction false} LateBurst(ip: string, from: int, at: int, k: nat, rest: seq<Event>, back: nat)
    requires k > 0 && from <= at + back && Late(rest, ip, Later(from, at), back)
    ensures Late(Burst(ip, at, k) + rest, ip, from, back)
    decreases k
  {
    var others := Burst(ip, at, k - 1) + rest;
    assert Burst(ip, at, k) + rest == [Hit(ip, at)] + others;
    if k == 1 {
      assert others == rest;
    } else {
      LateBurst(ip, Later(from, at), at, k - 1, rest, back);
    }
    LateHit(ip, from, at, others, back);
  }

  lemma LateReap(ip: string, from: int, at: int, rest: seq<Event>, back: nat)
    requires Late(rest, ip, from, back)
    ensures Late([Reaps(at)] + rest, ip, from, back)
  {
    assert ([Reaps(at)] + rest)[1..] == rest;
  }

  // rest keeps up with a reap at clock at, too.
  ghost predicate KeepsUpWith(at: int, rest: seq<Event>, lag: int) {
    forall e | e in rest && e.Hit? :: at <= e.at + lag
  }

  lemma KeepsUpAfterReap(at: int, rest: seq<Event>, lag: int)
    requires KeepsUp(rest, lag) && KeepsUpWith(at, rest, lag)
    ensures KeepsUp([Reaps(at)] + rest, lag)
  {
    var evs := [Reaps(at)] + rest;
    forall k, l | 0 <= k < l < |evs| && evs[k].Reaps? && evs[l].Hit? ensures evs[k].at <= evs[l].at + lag {
      assert evs[l] == rest[l - 1] && rest[l - 1] in rest;
      assert k > 0 ==> evs[k] == rest[k - 1];
    }
  }

  lemma KeepsUpAfterBurst(ip: string, at: int, k: nat, rest: seq<Event>, lag: int)
    requires KeepsUp(rest, lag)
    ensures KeepsUp(Burst(ip, at, k) + rest, lag)
    ensures forall e | e in Burst(ip, at, k) + rest :: e == Hit(ip, at) || e in rest
  {
    BurstIsHits(ip, at, k);
    var evs := Burst(ip, at, k) + rest;
    assert forall j | 0 <= j < k :: evs[j] == Burst(ip, at, k)[j] && evs[j] in Burst(ip, at, k);
    forall i, l | 0 <= i < l < |evs| && evs[i].Reaps? && evs[l].Hit? ensures evs[i].at <= evs[l].at + lag {
      assert evs[i] == rest[i - k] && evs[l] == rest[l - k];
    }
  }

  // ----- attempts late among themselves -----

  // Windows opened at a, at b and at c, each filled; the last opening comes before attempts that
  // still belong into [0, window].
  ghost function Stragglers(window: int, max: int, ip: string, a: int, b: int, c: int): seq<Event>
    requires max > 1
  {
    Burst(ip, a, 1) + (Burst(ip, 0, max - 1) + Filled(window, max, ip, b, c))
  }

  ghost function Filled(window: int, max: int, ip: string, b: int, c: int): seq<Event>
    requires max > 1
  {
    Burst(ip, b, max) + (Burst(ip, c, 1) + (Burst(ip, window, max - 1) + []))
  }

  predicate Straggling(window: int, max: int, a: int, b: int, c: int, back: nat) {
    max > 1 && a <= 0 < a + window <= b <= window && b + window <= c <= window + back
  }

  lemma StragglersAreLate(window: int, max: int, ip: string, a: int, b: int, c: int, back: nat)
    requires Straggling(window, max, a, b, c, back)
    ensures Late(Stragglers(window, max, ip, a, b, c), ip, a, back)
  {
    LateBurst(ip, c, window, max - 1, [], back);
    LateBurst(ip, b, c, 1, Burst(ip, window, max - 1) + [], back);
    LateBurst(ip, 0, b, max, Burst(ip, c, 1) + (Burst(ip, window, max - 1) + []), back);
    LateBurst(ip, a, 0, max - 1, Filled(window, max, ip, b, c), back);
    LateBurst(ip, a, a, 1, Burst(ip, 0, max - 1) + Filled(window, max, ip, b, c), back);
  }

  lemma StragglersKeepUp(window: int, max: int, ip: string, a: int, b: int, c: int, lag: nat)
    requires max > 1
    ensures KeepsUp(Stragglers(window, max, ip, a, b, c), lag)
  {
    KeepsUpAfterBurst(ip, window, max - 1, [], lag);
    KeepsUpAfterBurst(ip, c, 1, Burst(ip, window, max - 1) + [], lag);
    KeepsUpAfterBurst(ip, b, max, Burst(ip, c, 1) + (Burst(ip, window, max - 1) + []), lag);
    KeepsUpAfterBurst(ip, 0, max - 1, Filled(window, max, ip, b, c), lag);
    KeepsUpAfterBurst(ip, a, 1, Burst(ip, 0, max - 1) + Filled(window, max, ip, b, c), lag);
  }

  lemma FilledPasses(h: Hits, window: int, max: int, ip: string, b: int, c: int)
    requires max > 1 && h.Keys == {ip} && h[ip].start + window <= b && 0 < b <= window && b + window <= c && c > window
    ensures Passed(Verdicts(h, window, max, Filled(window, max, ip, b, c)), ip, 0, window) == 2 * max - 1
  {
    var last := Burst(ip, window, max - 1) + [];
    OpeningPasses(h, window, max, ip, b, max, Burst(ip, c, 1) + last, 0);
    assert h[ip := Win(max, b)] == map[ip := Win(max, b)];
    OpeningPasses(map[ip := Win(max, b)], window, max, ip, c, 1, last, 0);
    assert map[ip := Win(max, b)][ip := Win(1, c)] == map[ip := Win(1, c)];
    BurstPasses(map[ip := Win(1, c)], window, max, ip, window, max - 1, [], 0);
  }

  // The first window, opened at a and filled at 0.
  lemma FirstPasses(window: int, max: int, ip: string, a: int, rest: seq<Event>)
    requires window > 0 && max > 1 && a <= 0 < a + window
    ensures Passed(Verdicts(map[], window, max, Burst(ip, a, 1) + (Burst(ip, 0, max - 1) + rest)), ip, 0, window) ==
            Bit(a == 0) + max - 1 + Passed(Verdicts(map[ip := Win(max, a)], window, max, rest), ip, 0, window)
  {
    OpeningPasses(map[], window, max, ip, a, 1, Burst(ip, 0, max - 1) + rest, 0);
    BurstPasses(map[ip := Win(1, a)], window, max, ip, 0, max - 1, rest, 0);
    assert map[ip := Win(1, a)][ip := Win(1 + (max - 1), a)] == map[ip := Win(max, a)];
  }

  lemma StragglersPass(window: int, max: int, ip: string, a: int, b: int, c: int, back: nat)
    requires Straggling(window, max, a, b, c, back)
    ensures Passed(Verdicts(map[], window, max, Stragglers(window, max, ip, a, b, c)), ip, 0, window) ==
            Bit(a == 0) + 3 * max - 2
  {
    FirstPasses(window, max, ip, a, Filled(window, max, ip, b, c));
    FilledPasses(map[ip := Win(max, a)], window, max, ip, b, c);
  }

  // ----- attempts late behind the reaper -----

  // Two windows, each full and reaped two ticks too early for the next attempts.
  ghost function Overrun(window: int, max: int, ip: string): seq<Event>
    requires max > 1
  {
    Burst(ip, 1 - window, 1) + (Burst(ip, 0, max - 1) + ([Reaps(2)] + Refilled(window, max, ip)))
  }

  ghost function Refilled(window: int, max: int, ip: string): seq<Event>
    requires max > 1
  {
    Burst(ip, 0, max) + ([Reaps(window + 1)] + (Burst(ip, window - 1, max) + []))
  }

  lemma OverrunIsPunctual(window: int, max: int, ip: string)
    requires window > 0 && max > 1
    ensures Late(Overrun(window, max, ip), ip, 1 - window, 0)
  {
    var last := Burst(ip, window - 1, max) + [];
    LateBurst(ip, 0, window - 1, max, [], 0);
    LateReap(ip, 0, window + 1, last, 0);
    LateBurst(ip, 0, 0, max, [Reaps(window + 1)] + last, 0);
    LateReap(ip, 0, 2, Refilled(window, max, ip), 0);
    LateBurst(ip, 1 - window, 0, max - 1, [Reaps(2)] + Refilled(window, max, ip), 0);
    LateBurst(ip, 1 - window, 1 - window, 1, Burst(ip, 0, max - 1) + ([Reaps(2)] + Refilled(window, max, ip)), 0);
  }

  lemma RefilledKeepsUp(window: int, max: int, ip: string)
    requires window > 0 && max > 1
    ensures KeepsUp(Refilled(window, max, ip), 2) && KeepsUpWith(2, Refilled(window, max, ip), 2)
  {
    var last := Burst(ip, window - 1, max) + [];
    var mid := [Reaps(window + 1)] + last;
    KeepsUpAfterBurst(ip, window - 1, max, [], 2);
    KeepsUpAfterReap(window + 1, last, 2);
    KeepsUpAfterBurst(ip, 0, max, mid, 2);
    forall e | e in Refilled(window, max, ip) && e.Hit? ensures e.at >= 0 {
      assert e == Hit(ip, 0) || e in mid;
      assert e in mid ==> e in last;
    }
  }

  lemma OverrunKeepsUp(window: int, max: int, ip: string)
    requires window > 0 && max > 1
    ensures KeepsUp(Overrun(window, max, ip), 2)
  {
    var rest := Refilled(window, max, ip);
    RefilledKeepsUp(window, max, ip);
    KeepsUpAfterReap(2, rest, 2);
    KeepsUpAfterBurst(ip, 0, max - 1, [Reaps(2)] + rest, 2);
    KeepsUpAfterBurst(ip, 1 - window, 1, Burst(ip, 0, max - 1) + ([Reaps(2)] + rest), 2);
  }

  // A reap that removes all there is.
  lemma ReapClears(window: int, max: int, ip: string, n: int, start: int, cut: int, rest: seq<Event>)
    requires start < cut - window
    ensures Verdicts(map[ip := Win(n, start)], window, max, [Reaps(cut)] + rest) == Verdicts(map[], window, max, rest)
  {
    VerdictsOfReap(map[ip := Win(n, start)], window, max, cut, rest);
    assert Reaped(map[ip := Win(n, start)], window, cut) == map[];
  }

  lemma RefilledPasses(window: int, max: int, ip: string)
    requires window > 0 && max > 1
    ensures Passed(Verdicts(map[], window, max, Refilled(window, max, ip)), ip, 0, window) == 2 * max
  {
    var last := Burst(ip, window - 1, max) + [];
    OpeningPasses(map[], window, max, ip, 0, max, [Reaps(window + 1)] + last, 0);
    ReapClears(window, max, ip, max, 0, window + 1, last);
    OpeningPasses(map[], window, max, ip, window - 1, max, [], 0);
  }

  lemma OverrunPasses(window: int, max: int, ip: string)
    requires window > 0 && max > 1
    ensures Passed(Verdicts(map[], window, max, Overrun(window, max, ip)), ip, 0, window) ==
            Bit(window == 1) + 3 * max - 1
  {
    FirstPasses(window, max, ip, 1 - window, [Reaps(2)] + Refilled(window, max, ip));
    ReapClears(window, max, ip, max, 1 - window, 2, Refilled(window, max, ip));
    RefilledPasses(window, max, ip);
  }

  // With max 1: three openings within one window length, the reaper being half a window ahead.
  ghost function Hurried(window: int, ip: string, x: int): seq<Event> {
    Burst(ip, 0, 1) + ([Reaps(window + 1)] + Twice(window, ip, x))
  }

  ghost function Twice(window: int, ip: string, x: int): seq<Event> {
    Burst(ip, x, 1) + ([Reaps(x + window + 1)] + (Burst(ip, 2 * x, 1) + []))
  }

  lemma HurriedIsPunctual(window: int, ip: string, x: int)
    requires 0 <= x
    ensures Late(Hurried(window, ip, x), ip, 0, 0)
  {
    var last := Burst(ip, 2 * x, 1) + [];
    LateBurst(ip, x, 2 * x, 1, [], 0);
    LateReap(ip, x, x + window + 1, last, 0);
    LateBurst(ip, 0, x, 1, [Reaps(x + window + 1)] + last, 0);
    LateReap(ip, 0, window + 1, Twice(window, ip, x), 0);
    LateBurst(ip, 0, 0, 1, [Reaps(window + 1)] + Twice(window, ip, x), 0);
  }

  lemma TwiceKeepsUp(window: int, ip: string, x: int, lag: nat)
    requires 0 <= x && window + 1 - lag <= x
    ensures KeepsUp(Twice(window, ip, x), lag) && KeepsUpWith(window + 1, Twice(window, ip, x), lag)
  {
    var last := Burst(ip, 2 * x, 1) + [];
    var mid := [Reaps(x + window + 1)] + last;
    KeepsUpAfterBurst(ip, 2 * x, 1, [], lag);
    KeepsUpAfterReap(x + window + 1, last, lag);
    KeepsUpAfterBurst(ip, x, 1, mid, lag);
    forall e | e in Twice(window, ip, x) && e.Hit? ensures e.at >= x {
      assert e == Hit(ip, x) || e in mid;
      assert e in mid ==> e in last;
    }
  }

  lemma HurriedKeepsUp(window: int, ip: string, x: int, lag: nat)
    requires 0 <= x && window + 1 - lag <= x
    ensures KeepsUp(Hurried(window, ip, x), lag)
  {
    TwiceKeepsUp(window, ip, x, lag);
    KeepsUpAfterReap(window + 1, Twice(window, ip, x), lag);
    KeepsUpAfterBurst(ip, 0, 1, [Reaps(window + 1)] + Twice(window, ip, x), lag);
  }

  lemma HurriedPasses(window: int, ip: string, x: int)
    requires 0 <= x && 2 * x <= window && window > 0
    ensures Passed(Verdicts(map[], window, 1, Hurried(window, ip, x)), ip, 0, window) == 3
  {
    var last := Burst(ip, 2 * x, 1) + [];
    OpeningPasses(map[], window, 1, ip, 0, 1, [Reaps(window + 1)] + Twice(window, ip, x), 0);
    ReapClears(window, 1, ip, 1, 0, window + 1, Twice(window, ip, x));
    OpeningPasses(map[], window, 1, ip, x, 1, [Reaps(x + window + 1)] + last, 0);
    ReapClears(window, 1, ip, 1, x, x + window + 1, last);
    OpeningPasses(map[], window, 1, ip, 2 * x, 1, [], 0);
  }

  // ----- the bound, decided -----

  // At most twice the maximum in every run in which attempts lag at most so much.
  ghost predicate Bounded(window: int, max: int, lag: nat, back: nat) {
    forall evs, ip, from, lo | KeepsUp(evs, lag) && Late(evs, ip, from, back) ::
      Passed(Verdicts(map[], window, max, evs), ip, lo, window) <= 2 * max
  }

  predicate Punctual(window: int, max: int, lag: nat, back: nat) {
    if max == 1 then 2 * lag < window + 2 else lag <= 1 && Tame(window, max, back)
  }

  lemma PunctualIsBounded(window: int, max: int, lag: nat, back: nat)
    requires window > 0 && max > 0 && Punctual(window, max, lag, back)
    ensures Bounded(window, max, lag, back)
  {
    forall evs, ip, from, lo | KeepsUp(evs, lag) && Late(evs, ip, from, back)
      ensures Passed(Verdicts(map[], window, max, evs), ip, lo, window) <= 2 * max
    {
      if max == 1 {
        SingleAtMostTwice(window, evs, ip, lo, lag);
      } else {
        LateLeads(map[], window, max, evs, ip, from, back);
        AtMostTwice(window, max, evs, ip, lo, back);
      }
    }
  }

  lemma HurriedBreaks(window: int, lag: nat, back: nat)
    requires window > 0 && 2 * lag >= window + 2
    ensures !Bounded(window, 1, lag, back)
  {
    var x := Later(0, window + 1 - lag);
    HurriedIsPunctual(window, "", x);
    HurriedKeepsUp(window, "", x, lag);
    HurriedPasses(window, "", x);
    MoreLate(Hurried(window, "", x), "", 0, 0, back);
  }

  lemma OverrunBreaks(window: int, max: int, lag: nat, back: nat)
    requires window > 0 && max > 1 && lag > 1
    ensures !Bounded(window, max, lag, back)
  {
    OverrunIsPunctual(window, max, "");
    OverrunKeepsUp(window, max, "");
    OverrunPasses(window, max, "");
    MoreLate(Overrun(window, max, ""), "", 1 - window, 0, back);
    assert KeepsUp(Overrun(window, max, ""), lag);
  }

  lemma {:induction false} MoreLate(evs: seq<Event>, ip: string, from: int, a: nat, b: nat)
    requires Late(evs, ip, from, a) && a <= b
    ensures Late(evs, ip, from, b)
    decreases |evs|
  {
    if evs != [] {
      var next := if evs[0].Hit? && evs[0].ip == ip then Later(from, evs[0].at) else from;
      MoreLate(evs[1..], ip, next, a, b);
    }
  }

  lemma StragglersBreak(window: int, max: int, lag: nat, back: nat)
    requires window > 0 && max > 1 && !Tame(window, max, back)
    ensures !Bounded(window, max, lag, back)
  {
    var a, b, c := if back >= window then 0 else 1 - window, if back >= window then window else 1,
                   if back >= window then 2 * window else window + 1;
    StragglersAreLate(window, max, "", a, b, c, back);
    StragglersKeepUp(window, max, "", a, b, c, lag);
    StragglersPass(window, max, "", a, b, c, back);
  }

  /** No interval as long as a window, ends included, lets more than 2 * max attempts of one
      address through, in any run whose attempts lag at most back behind one another and at most
      lag behind a reap, exactly when: for max 1, lag is less than half a window and a tick; for max 2,
      lag is at most a tick and back less than a window; else lag is at most a tick and back 0. */
  lemma AtMostTwiceIff(window: int, max: int, lag: nat, back: nat)
    requires window > 0 && max > 0
    ensures Bounded(window, max, lag, back) <==> Punctual(window, max, lag, back)
  {
    if Punctual(window, max, lag, back) {
      PunctualIsBounded(window, max, lag, back);
    } else if max == 1 {
      HurriedBreaks(window, lag, back);
    } else if lag > 1 {
      OverrunBreaks(window, max, lag, back);
    } else {
      StragglersBreak(window, max, lag, back);
    }
  }
}
