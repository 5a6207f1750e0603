/** The fixed-window login limiter of internal/protocol/own/auth.go and its reaper. */
module LoginLimiter {
  import opened Counting

  datatype Win = Win(n: int, start: int)
  type Hits = map<string, Win>

  function Entry(h: Hits, ip: string): Option<Win> {
    if ip in h then Some(h[ip]) else None
  }

  predicate Fresh(w: Option<Win>, window: int, now: int) {
    w.None? || now - w.value.start >= window
  }

  // The window after an attempt, and whether the attempt was let through.
  function Counted(w: Option<Win>, window: int, now: int): Win {
    if Fresh(w, window, now) then Win(1, now) else Win(w.value.n + 1, w.value.start)
  }

  predicate Admitted(w: Option<Win>, window: int, max: int, now: int) {
    Fresh(w, window, now) || w.value.n + 1 <= max
  }

  function Reaped(h: Hits, window: int, now: int): Hits {
    map ip | ip in h && !(h[ip].start < now - window) :: h[ip]
  }

  class LoginLimiter {
    var hits: Hits
    const window: int
    const max: int

    constructor (window: int, max: int)
      requires max > 0
      ensures this.window == window && this.max == max && hits == map[]
    {
      this.window, this.max := window, max;
      hits := map[];
    }

    method Allow(ip: string, now: int) returns (ok: bool)
      modifies this`hits
      ensures hits == old(hits)[ip := Counted(Entry(old(hits), ip), window, now)]
      ensures ok <==> Admitted(Entry(old(hits), ip), window, max, now)
      // the same, spelled out: a new window, or the next attempt in one that is not over
      ensures ip !in old(hits) || now - old(hits)[ip].start >= window ==> ok && hits == old(hits)[ip := Win(1, now)]
      ensures ip in old(hits) && now - old(hits)[ip].start < window ==>
                var w := old(hits)[ip];
                hits == old(hits)[ip := Win(w.n + 1, w.start)] && (ok <==> w.n < max)
    {
      if ip !in hits || now - hits[ip].start >= window {
        hits := hits[ip := Win(1, now)];
        return true;
      }
      var w := hits[ip];
      w := w.(n := w.n + 1);
      hits := hits[ip := w];
      ok := w.n <= max;
    }

    // One turn of reapLoop.
    method Reap(now: int)
      modifies this`hits
      ensures hits == Reaped(old(hits), window, now)
      ensures forall ip :: ip in hits <==> ip in old(hits) && old(hits)[ip].start >= now - window
      ensures forall ip | ip in hits :: hits[ip] == old(hits)[ip]
    {
      var cutoff := now - window;
      var order := RangeOver(hits.Keys);
      for k := 0 to |order|
        invariant forall ip | ip in hits :: ip in old(hits) && hits[ip] == old(hits)[ip]
        invariant forall ip | ip in order[k..] :: ip in hits
        invariant forall ip | ip in order[..k] :: ip in hits <==> !(old(hits)[ip].start < cutoff)
      {
        var ip := order[k];
        assert ip in order[k..] && ip !in order[k + 1..] && ip !in order[..k];
        assert order[..k + 1] == order[..k] + [ip];
        if hits[ip].start < cutoff {
          hits := hits - {ip};
        }
      }
      assert order[..|order|] == order;
    }
  }

  // max <= 0 builds no limiter, and no limiter lets everyone through.
  method LoginAllowed(l: LoginLimiter?, ip: string, now: int) returns (ok: bool)
    modifies if l == null then {} else {l}
    ensures l == null ==> ok
    ensures l != null ==>
              (ok <==> ip !in old(l.hits) || now - old(l.hits)[ip].start >= l.window || old(l.hits)[ip].n < l.max)
    ensures l != null ==> l.hits == old(l.hits)[ip := Counted(Entry(old(l.hits), ip), l.window, now)]
  {
    if l == null {
      return true;
    }
    ok := l.Allow(ip, now);
  }

  // ----- runs -----

  // Attempts and reaps in the order in which they take the lock. Both read the clock before, so the
  // times may come in any order.
  datatype Event = Hit(ip: string, at: int) | Reaps(at: int)

  function After(h: Hits, window: int, e: Event): Hits {
    match e
    case Hit(ip, at) => h[ip := Counted(Entry(h, ip), window, at)]
    case Reaps(at) => Reaped(h, window, at)
  }

  // The attempts of a run with their verdicts and the start of the window each is counted in.
  datatype Verdict = Verdict(ip: string, at: int, ok: bool, window: int)

  function Judge(h: Hits, window: int, max: int, ip: string, at: int): Verdict {
    Verdict(ip, at, Admitted(Entry(h, ip), window, max, at), Counted(Entry(h, ip), window, at).start)
  }

  ghost function Verdicts(h: Hits, window: int, max: int, evs: seq<Event>): seq<Verdict>
    decreases |evs|
  {
    if evs == [] then []
    else
      (if evs[0].Hit? then [Judge(h, window, max, evs[0].ip, evs[0].at)] else []) +
      Verdicts(After(h, window, evs[0]), window, max, evs[1..])
  }

  ghost function HitsOnly(evs: seq<Event>): seq<Event>
    decreases |evs|
  {
    if evs == [] then [] else (if evs[0].Hit? then [evs[0]] else []) + HitsOnly(evs[1..])
  }

  // No attempt enters after a reap that has read a clock more than lag later.
  ghost predicate KeepsUp(evs: seq<Event>, lag: int) {
    forall k, l | 0 <= k < l < |evs| && evs[k].Reaps? && evs[l].Hit? :: evs[k].at <= evs[l].at + lag
  }

  // ----- when the reaper is noticed -----

  // One attempt after a reap: the reap changes the verdict exactly when it removed a full window
  // that the attempt would have been counted in.
  lemma ReapChangesIff(h: Hits, window: int, max: int, cut: int, ip: string, at: int)
    requires max > 0
    ensures (Admitted(Entry(Reaped(h, window, cut), ip), window, max, at) !=
             Admitted(Entry(h, ip), window, max, at)) <==>
            (ip in h && h[ip].start < cut - window && at - h[ip].start < window && h[ip].n >= max)
  {
  }

  // a lacks only windows of b that are over for every attempt still to come.
  ghost predicate Forgets(a: Hits, b: Hits, window: int, evs: seq<Event>) {
    forall ip :: Entry(a, ip) == Entry(b, ip) || (Entry(a, ip).None? && OverFor(Entry(b, ip), window, evs, ip))
  }

  ghost predicate OverFor(w: Option<Win>, window: int, evs: seq<Event>, ip: string) {
    forall e | e in evs && e.Hit? && e.ip == ip :: Fresh(w, window, e.at)
  }

  // As long as attempts keep up to a tick, the reaper changes no verdict, now or later.
  lemma {:induction false} ReaperIsInvisible(a: Hits, b: Hits, window: int, max: int, evs: seq<Event>)
    requires Forgets(a, b, window, evs) && KeepsUp(evs, 1)
    ensures Verdicts(a, window, max, evs) == Verdicts(b, window, max, HitsOnly(evs))
    decreases |evs|
  {
    if evs != [] {
      var e, rest := evs[0], evs[1..];
      assert e in evs && forall x | x in rest :: x in evs;
      if e.Hit? {
        assert HitsOnly(evs)[0] == e && HitsOnly(evs)[1..] == HitsOnly(rest);
        HitForgets(a, b, window, evs);
        assert Entry(a, e.ip) == Entry(b, e.ip) || (Entry(a, e.ip).None? && Fresh(Entry(b, e.ip), window, e.at));
        ReaperIsInvisible(After(a, window, e), After(b, window, e), window, max, rest);
      } else {
        assert HitsOnly(evs) == HitsOnly(rest);
        ReapForgets(a, b, window, evs);
        ReaperIsInvisible(After(a, window, e), b, window, max, rest);
      }
    }
  }

  lemma HitForgets(a: Hits, b: Hits, window: int, evs: seq<Event>)
    requires evs != [] && evs[0].Hit? && Forgets(a, b, window, evs)
    ensures Forgets(After(a, window, evs[0]), After(b, window, evs[0]), window, evs[1..])
  {
    var e := evs[0];
    var a1, b1 := After(a, window, e), After(b, window, e);
    forall x
      ensures Entry(a1, x) == Entry(b1, x) || (Entry(a1, x).None? && OverFor(Entry(b1, x), window, evs[1..], x))
    {
      assert e in evs && forall y | y in evs[1..] :: y in evs;
      assert Entry(a, x) == Entry(b, x) || (Entry(a, x).None? && OverFor(Entry(b, x), window, evs, x));
    }
  }

  lemma ReapForgets(a: Hits, b: Hits, window: int, evs: seq<Event>)
    requires evs != [] && evs[0].Reaps? && Forgets(a, b, window, evs) && KeepsUp(evs, 1)
    ensures Forgets(Reaped(a, window, evs[0].at), b, window, evs[1..])
  {
    var cut := evs[0].at;
    var a1 := Reaped(a, window, cut);
    forall x ensures Entry(a1, x) == Entry(b, x) || (Entry(a1, x).None? && OverFor(Entry(b, x), window, evs[1..], x)) {
      assert Entry(a, x) == Entry(b, x) || (Entry(a, x).None? && OverFor(Entry(b, x), window, evs, x));
      forall y | y in evs[1..] && y.Hit? ensures y in evs && cut <= y.at + 1 {
        LaterHit(evs, 1, y);
      }
    }
  }

  lemma LaterHit(evs: seq<Event>, lag: int, e: Event)
    requires evs != [] && evs[0].Reaps? && KeepsUp(evs, lag) && e in evs[1..] && e.Hit?
    ensures e in evs && evs[0].at <= e.at + lag
  {
    var l :| 0 <= l < |evs[1..]| && evs[1..][l] == e;
    assert evs[l + 1] == e;
  }

  // ----- bursts: the same attempt several times over -----

  ghost function Burst(ip: string, at: int, k: nat): seq<Event>
    decreases k
  {
    if k == 0 then [] else [Hit(ip, at)] + Burst(ip, at, k - 1)
  }

  lemma VerdictsOfHit(h: Hits, window: int, max: int, ip: string, at: int, rest: seq<Event>)
    ensures Verdicts(h, window, max, [Hit(ip, at)] + rest) ==
            [Judge(h, window, max, ip, at)] + Verdicts(After(h, window, Hit(ip, at)), window, max, rest)
  {
    assert ([Hit(ip, at)] + rest)[1..] == rest;
  }

  lemma VerdictsOfReap(h: Hits, window: int, max: int, at: int, rest: seq<Event>)
    ensures Verdicts(h, window, max, [Reaps(at)] + rest) == Verdicts(Reaped(h, window, at), window, max, rest)
  {
    assert ([Reaps(at)] + rest)[1..] == rest;
  }

  function Copies(v: Verdict, k: nat): seq<Verdict> { seq(k, _ => v) }

  lemma CopiesCons(v: Verdict, k: nat, vs: seq<Verdict>)
    requires k > 0
    ensures Copies(v, k) + vs == [v] + (Copies(v, k - 1) + vs)
  {
  }

  // A burst in an open window that has room for it is let through.
  lemma {:induction false} VerdictsOfBurst(
    h: Hits, window: int, max: int, ip: string, at: int, k: nat, rest: seq<Event>)
    requires ip in h && at - h[ip].start < window && h[ip].n + k <= max
    ensures Verdicts(h, window, max, Burst(ip, at, k) + rest) ==
            Copies(Verdict(ip, at, true, h[ip].start), k) +
            Verdicts(h[ip := Win(h[ip].n + k, h[ip].start)], window, max, rest)
    decreases k
  {
    if k == 0 {
      assert Burst(ip, at, k) + rest == rest && h[ip := h[ip]] == h;
    } else {
      var h1 := After(h, window, Hit(ip, at));
      VerdictsOfBurst(h1, window, max, ip, at, k - 1, rest);
      BurstCons(h, window, max, ip, at, k, rest);
      var e := h[ip := Win(h[ip].n + k, h[ip].start)];
      assert h1[ip := Win(h1[ip].n + (k - 1), h1[ip].start)] == e;
      CopiesCons(Verdict(ip, at, true, h[ip].start), k, Verdicts(e, window, max, rest));
    }
  }

  lemma BurstCons(h: Hits, window: int, max: int, ip: string, at: int, k: nat, rest: seq<Event>)
    requires k > 0
    ensures Verdicts(h, window, max, Burst(ip, at, k) + rest) ==
            [Judge(h, window, max, ip, at)] +
            Verdicts(After(h, window, Hit(ip, at)), window, max, Burst(ip, at, k - 1) + rest)
  {
    assert Burst(ip, at, k) + rest == [Hit(ip, at)] + (Burst(ip, at, k - 1) + rest);
    VerdictsOfHit(h, window, max, ip, at, Burst(ip, at, k - 1) + rest);
  }

  // The same for one that opens the window.
  lemma VerdictsOfOpening(
    h: Hits, window: int, max: int, ip: string, at: int, k: nat, rest: seq<Event>)
    requires Fresh(Entry(h, ip), window, at) && window > 0 && 0 < k <= max
    ensures Verdicts(h, window, max, Burst(ip, at, k) + rest) ==
            Copies(Verdict(ip, at, true, at), k) + Verdicts(h[ip := Win(k, at)], window, max, rest)
  {
    var h1 := h[ip := Win(1, at)];
    VerdictsOfBurst(h1, window, max, ip, at, k - 1, rest);
    BurstCons(h, window, max, ip, at, k, rest);
    assert h1[ip := Win(1 + (k - 1), at)] == h[ip := Win(k, at)];
    CopiesCons(Verdict(ip, at, true, at), k, Verdicts(h[ip := Win(k, at)], window, max, rest));
  }

  lemma {:induction false} HitsOfBurst(ip: string, at: int, k: nat, rest: seq<Event>)
    ensures HitsOnly(Burst(ip, at, k) + rest) == Burst(ip, at, k) + HitsOnly(rest)
    decreases k
  {
    if k == 0 {
      assert Burst(ip, at, k) + rest == rest;
    } else {
      HitsOfBurst(ip, at, k - 1, rest);
      assert Burst(ip, at, k) + rest == [Hit(ip, at)] + (Burst(ip, at, k - 1) + rest);
      assert (Burst(ip, at, k) + rest)[1..] == Burst(ip, at, k - 1) + rest;
    }
  }

  lemma {:induction false} BurstIsHits(ip: string, at: int, k: nat)
    ensures |Burst(ip, at, k)| == k && forall e | e in Burst(ip, at, k) :: e == Hit(ip, at)
    decreases k
  {
    if k > 0 {
      BurstIsHits(ip, at, k - 1);
    }
  }

  // An attempt two ticks behind a reap: the window it belongs to is full, but gone, and it is let through.
  ghost function Overtaken(window: int, max: nat, ip: string): seq<Event> {
    Burst(ip, 0, max) + [Reaps(window + 1), Hit(ip, window - 1)]
  }

  lemma OvertakenKeepsUp(window: int, max: nat, ip: string)
    ensures KeepsUp(Overtaken(window, max, ip), 2)
  {
    BurstIsHits(ip, 0, max);
    var evs := Overtaken(window, max, ip);
    assert forall k | 0 <= k < max :: evs[k] == Burst(ip, 0, max)[k] && evs[k] in Burst(ip, 0, max);
  }

  lemma OvertakenIsAdmitted(window: int, max: nat, ip: string)
    requires window > 0 && max > 0
    ensures var evs := Overtaken(window, max, ip);
            var before := Copies(Verdict(ip, 0, true, 0), max);
            KeepsUp(evs, 2) &&
            Verdicts(map[], window, max, evs) == before + [Verdict(ip, window - 1, true, window - 1)] &&
            Verdicts(map[], window, max, HitsOnly(evs)) == before + [Verdict(ip, window - 1, false, 0)]
  {
    OvertakenKeepsUp(window, max, ip);
    var last := [Hit(ip, window - 1)] + [];
    assert [Reaps(window + 1), Hit(ip, window - 1)] == [Reaps(window + 1)] + last;
    VerdictsOfOpening(map[], window, max, ip, 0, max, [Reaps(window + 1)] + last);
    VerdictsOfOpening(map[], window, max, ip, 0, max, last);
    HitsOfBurst(ip, 0, max, [Reaps(window + 1)] + last);
    TwoHits(window + 1, ip, window - 1);
    var full: Hits := map[ip := Win(max, 0)];
    VerdictsOfReap(full, window, max, window + 1, last);
    VerdictsOfHit(Reaped(full, window, window + 1), window, max, ip, window - 1, []);
    VerdictsOfHit(full, window, max, ip, window - 1, []);
  }

  lemma TwoHits(cut: int, ip: string, at: int)
    ensures HitsOnly([Reaps(cut), Hit(ip, at)]) == [Hit(ip, at)]
  {
    assert [Reaps(cut), Hit(ip, at)][1..] == [Hit(ip, at)];
    assert HitsOnly([Hit(ip, at)][1..]) == [];
    assert HitsOnly([Hit(ip, at)]) == [Hit(ip, at)] + [];
  }

  ghost predicate Invisible(window: int, max: int, evs: seq<Event>) {
    Verdicts(map[], window, max, evs) == Verdicts(map[], window, max, HitsOnly(evs))
  }

  /** The reaper is invisible in every run, from the empty table on, in which attempts lag at most
      so much behind a reap, exactly when that is at most one tick of the clock. */
  lemma InvisibleIff(window: int, max: nat, lag: nat)
    requires window > 0 && max > 0
    ensures (forall evs | KeepsUp(evs, lag) :: Invisible(window, max, evs)) <==> lag <= 1
  {
    if lag <= 1 {
      forall evs | KeepsUp(evs, lag) ensures Invisible(window, max, evs) {
        ReaperIsInvisible(map[], map[], window, max, evs);
      }
    } else {
      var evs := Overtaken(window, max, "");
      OvertakenIsAdmitted(window, max, "");
      var a, b := Verdicts(map[], window, max, evs), Verdicts(map[], window, max, HitsOnly(evs));
      assert |Copies(Verdict("", 0, true, 0), max)| == max;
      assert a[max].ok && !b[max].ok;
      assert KeepsUp(evs, lag) && !Invisible(window, max, evs);
    }
  }
}
