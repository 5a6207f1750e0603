/** When claims are at most once. A schedule update reads the clock, works out a cursor and
    writes it some time later; what it may write is decided exactly. */
module ClaimRuns {
  import opened Counting
  import opened Claims

  // ----- what never depends on the cursor -----

  ghost predicate ClaimerOk(s: State, pc: Claimer) {
    (!pc.Done? ==> pc.cursor <= s.clock) &&
    (pc.Computed? ==> pc.cursor <= pc.now <= s.clock && After(pc.next, pc.now)) &&
    (pc.Claimed? ==> pc.cfg.enabled && InWindow(pc.cfg, pc.now) && !HasFired(s, pc.cursor))
  }

  ghost predicate HasFired(s: State, x: int) {
    exists k :: 0 <= k < |s.fired| && s.fired[k].cursor == x
  }

  predicate IsClaimed(s: State, c: int, x: int) {
    c in s.claimers && s.claimers[c].Claimed? && s.claimers[c].cursor == x
  }

  ghost predicate Base(s: State) {
    Good(s) &&
    (forall k | 0 <= k < |s.fired| :: s.fired[k].cursor <= s.clock) &&
    (forall c | c in s.claimers :: ClaimerOk(s, s.claimers[c])) &&
    forall c, d, x | IsClaimed(s, c, x) && IsClaimed(s, d, x) :: c == d
  }

  // ----- what a cursor value can lead to -----

  // x has fired, or will as soon as its claimer goes on.
  ghost predicate Spent(s: State, x: int) {
    HasFired(s, x) || exists c :: IsClaimed(s, c, x)
  }

  predicate PendingAt(s: State, c: int, x: int) {
    c in s.claimers && s.claimers[c].Pending() && s.claimers[c].cursor == x
  }

  // A pending claimer that wins can fire with trigger time t, by the window it has read.
  predicate CanFireAt(pc: Claimer, clock: int, t: int) {
    (pc.Seen? && t >= clock && InWindow(pc.cfg, t)) || (pc.Computed? && t == pc.now && InWindow(pc.cfg, t))
  }

  // c, waiting for cursor x, can fire it with trigger time t.
  predicate Shot(s: State, c: int, x: int, t: int) {
    PendingAt(s, c, x) && CanFireAt(s.claimers[c], s.clock, t)
  }

  // The job can be scanned and fired from the clock on: neither clock nor start is past the end.
  predicate OpensLater(cfg: Cfg, clock: int) {
    cfg.enabled &&
    (cfg.end.None? || (clock <= cfg.end.value && (cfg.start.Some? ==> cfg.start.value <= cfg.end.value)))
  }

  lemma OpensLaterIff(cfg: Cfg, clock: int)
    ensures OpensLater(cfg, clock) <==> cfg.enabled && exists t :: t >= clock && InWindow(cfg, t)
  {
    var t := if cfg.start.Some? && cfg.start.value > clock then cfg.start.value else clock;
    assert cfg.end.None? || t <= cfg.end.value ==> t >= clock && InWindow(cfg, t);
  }

  // x would fire again: through a new scan, or through a claimer that still waits for x.
  ghost predicate Repeats(s: State, x: int) {
    Spent(s, x) && (OpensLater(s.cfg, s.clock) || exists c, t :: Shot(s, c, x, t))
  }

  // x would fire outside the window or for a disabled job: through a claimer that has read an older row.
  ghost predicate Strays(s: State, x: int) {
    exists c, t :: Shot(s, c, x, t) && !(s.cfg.enabled && InWindow(s.cfg, t))
  }

  // Claimers that already know their next cursor can carry the cursor from v to x, one by one.
  ghost predicate Trail(claimers: map<int, Claimer>, v: int, path: seq<int>, x: int)
    decreases |path|
  {
    if path == [] then x == v
    else
      path[0] in claimers && claimers[path[0]].Computed? && claimers[path[0]].cursor == v &&
      claimers[path[0]].next.Some? && Trail(claimers, claimers[path[0]].next.value, path[1..], x)
  }

  ghost predicate Reaches(s: State, x: int) {
    s.cursor.Some? && exists path :: Trail(s.claimers, s.cursor.value, path, x)
  }

  // No value the pending claimers can bring the cursor to would repeat or stray.
  ghost predicate Sound(s: State) {
    forall x | Reaches(s, x) :: !Repeats(s, x) && !Strays(s, x)
  }

  // The cursor and window an administrator writes do no harm.
  ghost predicate Harmless(s: State, cfg: Cfg, next: Option<int>) {
    Sound(s.(cfg := cfg, cursor := next))
  }

  ghost predicate SafeStep(s: State, a: Action) {
    a.Update? ==> Harmless(s, a.cfg, a.next)
  }

  ghost predicate SafeRun(s: State, run: seq<Action>)
    decreases |run|
  {
    run == [] || (Enabled(s, run[0]) && SafeStep(s, run[0]) && SafeRun(Apply(s, run[0]), run[1..]))
  }

  // No update in the run.
  predicate Plain(run: seq<Action>) {
    forall a | a in run :: !a.Update?
  }

  // Whatever happens before the next update.
  ghost predicate AlwaysGood(s: State) {
    forall run, e | Runs(s, run, e) && Plain(run) :: Good(e)
  }

  // Whatever happens next, as long as later updates do no harm.
  ghost predicate GoodThroughUpdates(s: State) {
    forall run, e | Runs(s, run, e) && SafeRun(s, run) :: Good(e)
  }

  // ----- trails -----

  ghost predicate ClaimersOk(s: State) {
    forall c | c in s.claimers :: ClaimerOk(s, s.claimers[c])
  }

  // Trails go up.
  lemma {:induction false} TrailAscends(s: State, v: int, path: seq<int>, x: int)
    requires ClaimersOk(s) && Trail(s.claimers, v, path, x)
    ensures v <= x && (path != [] ==> v < x)
    decreases |path|
  {
    if path != [] {
      var c := path[0];
      assert ClaimerOk(s, s.claimers[c]);
      TrailAscends(s, s.claimers[c].next.value, path[1..], x);
    }
  }

  // Without new edges there are no new trails.
  lemma {:induction false} TrailStays(a: map<int, Claimer>, b: map<int, Claimer>, v: int, path: seq<int>, x: int)
    requires forall c | c in a && a[c].Computed? :: c in b && b[c] == a[c]
    requires Trail(a, v, path, x)
    ensures Trail(b, v, path, x)
    decreases |path|
  {
    if path != [] {
      TrailStays(a, b, a[path[0]].next.value, path[1..], x);
    }
  }

  lemma NoNewReaches(s: State, e: State)
    requires e.cursor == s.cursor
    requires forall c | c in e.claimers && e.claimers[c].Computed? :: c in s.claimers && s.claimers[c] == e.claimers[c]
    ensures forall x | Reaches(e, x) :: Reaches(s, x)
  {
    forall x | Reaches(e, x) ensures Reaches(s, x) {
      var path :| Trail(e.claimers, e.cursor.value, path, x);
      TrailStays(e.claimers, s.claimers, e.cursor.value, path, x);
    }
  }

  // ----- every safe step keeps the condition -----

  // Nothing is newly spent at x, and nobody can newly fire it.
  ghost predicate NoWorse(s: State, e: State, x: int) {
    (Spent(e, x) ==> Spent(s, x)) && e.cfg == s.cfg && e.clock >= s.clock &&
    forall c, t | Shot(e, c, x, t) :: Shot(s, c, x, t) || (s.cfg.enabled && t >= s.clock && InWindow(s.cfg, t))
  }

  lemma NoWorseIsFine(s: State, e: State, x: int)
    requires NoWorse(s, e, x) && !Repeats(s, x) && !Strays(s, x)
    ensures !Repeats(e, x) && !Strays(e, x)
  {
    OpensLaterIff(s.cfg, s.clock);
    if c, t :| Shot(e, c, x, t) {
      assert Shot(s, c, x, t) || (s.cfg.enabled && t >= s.clock && InWindow(s.cfg, t));
    }
  }

  // The claimed values stay apart when nobody claims.
  lemma NoNewClaim(s: State, e: State)
    requires forall c, d, x | IsClaimed(s, c, x) && IsClaimed(s, d, x) :: c == d
    requires forall c | c in e.claimers && e.claimers[c].Claimed? :: c in s.claimers && s.claimers[c] == e.claimers[c]
    ensures forall c, d, x | IsClaimed(e, c, x) && IsClaimed(e, d, x) :: c == d
    ensures e.fired == s.fired ==> forall x | Spent(e, x) :: Spent(s, x)
  {
    forall c, x | IsClaimed(e, c, x) ensures IsClaimed(s, c, x) {
    }
  }

  lemma TickKeeps(s: State, clock: int)
    requires Base(s) && Sound(s) && clock >= s.clock
    ensures Base(Apply(s, Tick(clock))) && Sound(Apply(s, Tick(clock)))
  {
    var e := Apply(s, Tick(clock));
    NoNewReaches(s, e);
    NoNewClaim(s, e);
    forall x | Reaches(e, x) ensures !Repeats(e, x) && !Strays(e, x) {
      assert NoWorse(s, e, x);
      NoWorseIsFine(s, e, x);
    }
    forall c | c in e.claimers ensures ClaimerOk(e, e.claimers[c]) {
      assert ClaimerOk(s, s.claimers[c]);
    }
  }

  lemma ScanKeeps(s: State, c: int)
    requires Base(s) && Sound(s) && Enabled(s, Scan(c))
    ensures Base(Apply(s, Scan(c))) && Sound(Apply(s, Scan(c)))
  {
    var e := Apply(s, Scan(c));
    NoNewReaches(s, e);
    NoNewClaim(s, e);
    forall x | Reaches(e, x) ensures !Repeats(e, x) && !Strays(e, x) {
      assert NoWorse(s, e, x);
      NoWorseIsFine(s, e, x);
    }
    forall d | d in e.claimers ensures ClaimerOk(e, e.claimers[d]) {
      assert d != c ==> ClaimerOk(s, s.claimers[d]);
    }
  }

  // What a claimer computes now lies after the clock, where no claim has been yet.
  lemma {:induction false} ComputedTrail(s: State, c: int, pc: Claimer, v: int, path: seq<int>, x: int)
    requires ClaimersOk(s) && c in s.claimers && s.claimers[c].Seen?
    requires pc.Computed? && pc.cursor == s.claimers[c].cursor && After(pc.next, s.clock)
    requires Trail(s.claimers[c := pc], v, path, x)
    ensures Trail(s.claimers, v, path, x) || x > s.clock
    decreases |path|
  {
    if path != [] {
      var d := path[0];
      if d == c {
        TrailFromAhead(s, c, pc, pc.next.value, path[1..], x);
      } else {
        ComputedTrail(s, c, pc, s.claimers[d].next.value, path[1..], x);
      }
    }
  }

  lemma TrailFromAhead(s: State, c: int, pc: Claimer, w: int, path: seq<int>, x: int)
    requires ClaimersOk(s) && c in s.claimers && s.claimers[c].Seen? && w > s.clock
    requires pc.Computed? && pc.cursor == s.claimers[c].cursor && Trail(s.claimers[c := pc], w, path, x)
    ensures path == [] && x == w
  {
    forall d | d in s.claimers ensures !s.claimers[d].Done? ==> s.claimers[d].cursor <= s.clock {
      assert ClaimerOk(s, s.claimers[d]);
    }
  }

  // Beyond the clock nothing is spent and nobody waits.
  lemma AheadIsFine(s: State, x: int)
    requires Base(s) && x > s.clock
    ensures !Spent(s, x) && (forall c :: !PendingAt(s, c, x)) && !Repeats(s, x) && !Strays(s, x)
  {
    forall c | c in s.claimers && !s.claimers[c].Done? ensures s.claimers[c].cursor != x {
      assert ClaimerOk(s, s.claimers[c]);
    }
  }

  lemma ComputeBase(s: State, c: int, next: Option<int>)
    requires Base(s) && Enabled(s, Compute(c, next))
    ensures Base(Apply(s, Compute(c, next)))
  {
    var e := Apply(s, Compute(c, next));
    NoNewClaim(s, e);
    forall d | d in e.claimers ensures ClaimerOk(e, e.claimers[d]) {
      assert ClaimerOk(s, s.claimers[d]);
    }
  }

  lemma ComputeKeeps(s: State, c: int, next: Option<int>)
    requires Base(s) && Sound(s) && Enabled(s, Compute(c, next))
    ensures Base(Apply(s, Compute(c, next))) && Sound(Apply(s, Compute(c, next)))
  {
    var e := Apply(s, Compute(c, next));
    ComputeBase(s, c, next);
    NoNewClaim(s, e);
    forall x | Reaches(e, x) ensures !Repeats(e, x) && !Strays(e, x) {
      var path :| Trail(e.claimers, e.cursor.value, path, x);
      ComputedTrail(s, c, e.claimers[c], e.cursor.value, path, x);
      if x > e.clock {
        AheadIsFine(e, x);
      } else {
        assert Reaches(s, x);
        assert NoWorse(s, e, x);
        NoWorseIsFine(s, e, x);
      }
    }
  }

  // A claimer that wins where nothing repeats or strays claims a value for the first time.
  lemma AdvanceBase(s: State, c: int)
    requires Base(s) && Enabled(s, Advance(c))
    requires s.cursor == Some(s.claimers[c].cursor) ==> !Repeats(s, s.cursor.value) && !Strays(s, s.cursor.value)
    ensures Base(Apply(s, Advance(c)))
  {
    var e := Apply(s, Advance(c));
    var pc := s.claimers[c];
    assert ClaimerOk(s, pc);
    var wins := s.cursor == Some(pc.cursor) && InWindow(pc.cfg, pc.now);
    assert wins ==> Shot(s, c, pc.cursor, pc.now);
    forall d | d in e.claimers ensures ClaimerOk(e, e.claimers[d]) {
      assert d != c ==> ClaimerOk(s, s.claimers[d]);
    }
    forall d, x | IsClaimed(e, d, x) ensures IsClaimed(s, d, x) || (wins && d == c && x == pc.cursor) {
    }
    assert wins ==> forall d :: !IsClaimed(s, d, pc.cursor);
  }

  // From the next cursor only values this one led to can be reached.
  lemma AdvanceReaches(s: State, c: int, x: int)
    requires Base(s) && Enabled(s, Advance(c)) && s.cursor == Some(s.claimers[c].cursor)
    requires Reaches(Apply(s, Advance(c)), x)
    ensures Reaches(s, x) && x > s.cursor.value
  {
    var e := Apply(s, Advance(c));
    assert ClaimerOk(s, s.claimers[c]);
    var path :| Trail(e.claimers, e.cursor.value, path, x);
    TrailStays(e.claimers, s.claimers, e.cursor.value, path, x);
    TrailAscends(s, e.cursor.value, path, x);
    assert ([c] + path)[0] == c && ([c] + path)[1..] == path;
    assert Trail(s.claimers, s.cursor.value, [c] + path, x);
  }

  lemma AdvanceKeeps(s: State, c: int)
    requires Base(s) && Sound(s) && Enabled(s, Advance(c))
    ensures Base(Apply(s, Advance(c))) && Sound(Apply(s, Advance(c)))
  {
    var e := Apply(s, Advance(c));
    if s.cursor == Some(s.claimers[c].cursor) {
      assert Trail(s.claimers, s.cursor.value, [], s.cursor.value);
      AdvanceBase(s, c);
      forall x | Reaches(e, x) ensures !Repeats(e, x) && !Strays(e, x) {
        AdvanceReaches(s, c, x);
        assert forall d | IsClaimed(e, d, x) :: IsClaimed(s, d, x);
        assert NoWorse(s, e, x);
        NoWorseIsFine(s, e, x);
      }
    } else {
      AdvanceBase(s, c);
      NoNewReaches(s, e);
      NoNewClaim(s, e);
      forall x | Reaches(e, x) ensures !Repeats(e, x) && !Strays(e, x) {
        assert NoWorse(s, e, x);
        NoWorseIsFine(s, e, x);
      }
    }
  }

  lemma FireBase(s: State, c: int)
    requires Base(s) && Enabled(s, Fire(c))
    ensures Base(Apply(s, Fire(c)))
    ensures forall x | Spent(Apply(s, Fire(c)), x) :: Spent(s, x)
    ensures HasFired(Apply(s, Fire(c)), s.claimers[c].cursor)
  {
    var e := Apply(s, Fire(c));
    var x0 := s.claimers[c].cursor;
    assert ClaimerOk(s, s.claimers[c]) && IsClaimed(s, c, x0);
    NoNewClaim(s, e);
    forall x ensures HasFired(e, x) <==> HasFired(s, x) || x == x0 {
      if HasFired(s, x) {
        var k :| 0 <= k < |s.fired| && s.fired[k].cursor == x;
        assert e.fired[k].cursor == x;
      }
      assert e.fired[|s.fired|].cursor == x0;
    }
    forall d | d in e.claimers ensures ClaimerOk(e, e.claimers[d]) {
      assert ClaimerOk(s, s.claimers[d]);
      assert s.claimers[d].Claimed? ==> IsClaimed(s, d, s.claimers[d].cursor);
    }
    forall d, x | IsClaimed(e, d, x) ensures IsClaimed(s, d, x) {
    }
  }

  lemma FireKeeps(s: State, c: int)
    requires Base(s) && Sound(s) && Enabled(s, Fire(c))
    ensures Base(Apply(s, Fire(c))) && Sound(Apply(s, Fire(c)))
  {
    var e := Apply(s, Fire(c));
    FireBase(s, c);
    NoNewReaches(s, e);
    forall x | Reaches(e, x) ensures !Repeats(e, x) && !Strays(e, x) {
      assert NoWorse(s, e, x);
      NoWorseIsFine(s, e, x);
    }
  }

  lemma UpdateBase(s: State, cfg: Cfg, next: Option<int>, computedAt: int)
    requires Base(s) && Enabled(s, Update(cfg, next, computedAt))
    ensures Base(s.(cfg := cfg, cursor := next))
  {
    var e := s.(cfg := cfg, cursor := next);
    NoNewClaim(s, e);
    forall d | d in e.claimers ensures ClaimerOk(e, e.claimers[d]) {
      assert ClaimerOk(s, s.claimers[d]);
    }
  }

  lemma StepKeeps(s: State, a: Action)
    requires Base(s) && Sound(s) && Enabled(s, a) && SafeStep(s, a)
    ensures Base(Apply(s, a)) && Sound(Apply(s, a))
  {
    match a
    case Tick(clock) => TickKeeps(s, clock);
    case Scan(c) => ScanKeeps(s, c);
    case Compute(c, next) => ComputeKeeps(s, c, next);
    case Advance(c) => AdvanceKeeps(s, c);
    case Fire(c) => FireKeeps(s, c);
    case Update(cfg, next, computedAt) => UpdateBase(s, cfg, next, computedAt);
  }

  lemma {:induction false} RunKeeps(s: State, run: seq<Action>, e: State)
    requires Base(s) && Sound(s) && Runs(s, run, e) && SafeRun(s, run)
    ensures Base(e) && Sound(e)
    decreases |run|
  {
    if run != [] {
      StepKeeps(s, run[0]);
      RunKeeps(Apply(s, run[0]), run[1..], e);
    }
  }

  // ----- where it fails, a run shows it -----

  lemma {:induction false} PlainIsSafe(s: State, run: seq<Action>, e: State)
    requires Runs(s, run, e) && Plain(run)
    ensures SafeRun(s, run)
    decreases |run|
  {
    if run != [] {
      assert run[0] in run;
      PlainIsSafe(Apply(s, run[0]), run[1..], e);
    }
  }

  lemma PlainCons(s: State, a: Action, run: seq<Action>, e: State)
    requires Enabled(s, a) && !a.Update? && Runs(Apply(s, a), run, e) && Plain(run)
    ensures Runs(s, [a] + run, e) && Plain([a] + run)
  {
    RunsCons(s, a, run, e);
  }

  // A computed claimer whose cursor is still there wins and fires.
  lemma ComputedFires(s: State, c: int) returns (run: seq<Action>, e: State)
    requires c in s.claimers && s.claimers[c].Computed? && s.cursor == Some(s.claimers[c].cursor)
    requires InWindow(s.claimers[c].cfg, s.claimers[c].now)
    ensures Runs(s, run, e) && Plain(run)
    ensures e.fired == s.fired + [Fired(s.cursor.value, s.claimers[c].now, s.cfg)]
    ensures e.cfg == s.cfg && e.clock >= s.clock
  {
    var s1 := Apply(s, Advance(c));
    e := Apply(s1, Fire(c));
    PlainCons(s1, Fire(c), [], e);
    run := [Advance(c)] + ([Fire(c)] + []);
    PlainCons(s, Advance(c), [Fire(c)] + [], e);
  }

  lemma ShotFires(s: State, c: int, t: int) returns (run: seq<Action>, e: State)
    requires s.cursor.Some? && Shot(s, c, s.cursor.value, t)
    ensures Runs(s, run, e) && Plain(run)
    ensures e.fired == s.fired + [Fired(s.cursor.value, t, s.cfg)]
    ensures e.cfg == s.cfg && e.clock >= s.clock
  {
    if s.claimers[c].Computed? {
      run, e := ComputedFires(s, c);
    } else {
      var s1 := Apply(s, Tick(t));
      var s2 := Apply(s1, Compute(c, None));
      run, e := ComputedFires(s2, c);
      PlainCons(s1, Compute(c, None), run, e);
      run := [Compute(c, None)] + run;
      PlainCons(s, Tick(t), run, e);
      run := [Tick(t)] + run;
    }
  }

  lemma {:induction false} FreshClaimer(ids: set<int>) returns (c: int)
    ensures forall i | i in ids :: i < c
    decreases ids
  {
    if i :| i in ids {
      var d := FreshClaimer(ids - {i});
      c := if i < d then d else i + 1;
      forall j | j in ids ensures j < c {
        assert j != i ==> j in ids - {i};
      }
    } else {
      c := 0;
    }
  }

  // Without any claimer, a due cursor fires as soon as the window opens.
  lemma DueFires(s: State, t: int) returns (run: seq<Action>, e: State)
    requires s.cursor.Some? && s.cursor.value <= s.clock && s.cfg.enabled && t >= s.clock && InWindow(s.cfg, t)
    ensures Runs(s, run, e) && Plain(run)
    ensures e.fired == s.fired + [Fired(s.cursor.value, t, s.cfg)]
    ensures e.cfg == s.cfg && e.clock >= s.clock
  {
    var c := FreshClaimer(s.claimers.Keys);
    assert c !in s.claimers;
    var s1 := Apply(s, Scan(c));
    assert Shot(s1, c, s.cursor.value, t);
    run, e := ShotFires(s1, c, t);
    PlainCons(s, Scan(c), run, e);
    run := [Scan(c)] + run;
  }

  // A value that has fired, and can fire, fires again.
  lemma FiresAgain(s: State, x: int) returns (run: seq<Action>, e: State)
    requires Base(s) && s.cursor == Some(x) && HasFired(s, x)
    requires OpensLater(s.cfg, s.clock) || exists c, t :: Shot(s, c, x, t)
    ensures Runs(s, run, e) && Plain(run) && !Good(e)
  {
    var k :| 0 <= k < |s.fired| && s.fired[k].cursor == x;
    if c, t :| Shot(s, c, x, t) {
      run, e := ShotFires(s, c, t);
    } else {
      OpensLaterIff(s.cfg, s.clock);
      var t :| t >= s.clock && InWindow(s.cfg, t);
      run, e := DueFires(s, t);
    }
    assert e.fired[k].cursor == e.fired[|s.fired|].cursor;
  }

  lemma RepeatsFires(s: State, x: int) returns (run: seq<Action>, e: State)
    requires Base(s) && s.cursor == Some(x) && Repeats(s, x)
    ensures Runs(s, run, e) && Plain(run) && !Good(e)
  {
    if HasFired(s, x) {
      run, e := FiresAgain(s, x);
    } else {
      var d :| IsClaimed(s, d, x);
      var s1 := Apply(s, Fire(d));
      FireBase(s, d);
      assert forall c, t :: Shot(s, c, x, t) ==> Shot(s1, c, x, t);
      run, e := FiresAgain(s1, x);
      PlainCons(s, Fire(d), run, e);
      run := [Fire(d)] + run;
    }
  }

  lemma StraysFires(s: State, x: int) returns (run: seq<Action>, e: State)
    requires s.cursor == Some(x) && Strays(s, x)
    ensures Runs(s, run, e) && Plain(run) && !Good(e)
  {
    var c, t :| Shot(s, c, x, t) && !(s.cfg.enabled && InWindow(s.cfg, t));
    run, e := ShotFires(s, c, t);
    assert e.fired[|s.fired|] == Fired(x, t, s.cfg);
  }

  // The claimers on the trail win one after the other until the cursor is x.
  lemma {:induction false} TrailFires(s: State, path: seq<int>, x: int) returns (run: seq<Action>, e: State)
    requires Base(s) && s.cursor.Some? && Trail(s.claimers, s.cursor.value, path, x) && (Repeats(s, x) || Strays(s, x))
    ensures Runs(s, run, e) && Plain(run) && !Good(e)
    decreases |path|
  {
    var v := s.cursor.value;
    if Repeats(s, v) {
      run, e := RepeatsFires(s, v);
    } else if Strays(s, v) {
      run, e := StraysFires(s, v);
    } else {
      var c := path[0];
      var s1 := Apply(s, Advance(c));
      AdvanceBase(s, c);
      TrailGoesOn(s, c, path[1..], x);
      run, e := TrailFires(s1, path[1..], x);
      PlainCons(s, Advance(c), run, e);
      run := [Advance(c)] + run;
    }
  }

  lemma TrailGoesOn(s: State, c: int, path: seq<int>, x: int)
    requires Base(s) && Enabled(s, Advance(c)) && s.cursor == Some(s.claimers[c].cursor) && s.claimers[c].next.Some?
    requires Trail(s.claimers, s.claimers[c].next.value, path, x) && (Repeats(s, x) || Strays(s, x))
    ensures var e := Apply(s, Advance(c));
            Trail(e.claimers, e.cursor.value, path, x) && (Repeats(e, x) || Strays(e, x))
  {
    var e := Apply(s, Advance(c));
    assert ClaimerOk(s, s.claimers[c]);
    TrailAscends(s, e.cursor.value, path, x);
    TrailPassesBy(s, c, e.claimers[c], e.cursor.value, path, x);
    forall d, t | Shot(s, d, x, t) ensures Shot(e, d, x, t) {
    }
    forall d | IsClaimed(s, d, x) ensures IsClaimed(e, d, x) {
    }
  }

  // A claimer below the start of a trail is not on it.
  lemma {:induction false} TrailPassesBy(s: State, c: int, pc: Claimer, v: int, path: seq<int>, x: int)
    requires ClaimersOk(s) && c in s.claimers && s.claimers[c].Computed? && s.claimers[c].cursor < v
    requires Trail(s.claimers, v, path, x)
    ensures Trail(s.claimers[c := pc], v, path, x)
    decreases |path|
  {
    if path != [] {
      var d := path[0];
      assert ClaimerOk(s, s.claimers[d]);
      TrailPassesBy(s, c, pc, s.claimers[d].next.value, path[1..], x);
    }
  }

  // ----- main results -----

  /** Exactly when a state is safe: every continuation, with harmless updates or without any,
      fires no cursor value twice and nothing outside the window, iff no value the pending
      claimers can bring the cursor to would repeat or stray. */
  lemma AlwaysGoodIffSound(s: State)
    requires Base(s)
    ensures AlwaysGood(s) <==> Sound(s)
    ensures GoodThroughUpdates(s) <==> Sound(s)
  {
    if Sound(s) {
      forall run, e | Runs(s, run, e) && SafeRun(s, run) ensures Good(e) {
        RunKeeps(s, run, e);
      }
      forall run, e | Runs(s, run, e) && Plain(run) ensures Good(e) {
        PlainIsSafe(s, run, e);
      }
    } else {
      var x :| Reaches(s, x) && (Repeats(s, x) || Strays(s, x));
      var path :| Trail(s.claimers, s.cursor.value, path, x);
      var run, e := TrailFires(s, path, x);
      PlainIsSafe(s, run, e);
    }
  }

  // The same for a schedule update, and the guard that is enough: the cursor still lies ahead.
  lemma UpdateIsSafeIff(s: State, cfg: Cfg, next: Option<int>, computedAt: int)
    requires Base(s) && Enabled(s, Update(cfg, next, computedAt))
    ensures AlwaysGood(Apply(s, Update(cfg, next, computedAt))) <==> Harmless(s, cfg, next)
    ensures GoodThroughUpdates(Apply(s, Update(cfg, next, computedAt))) <==> Harmless(s, cfg, next)
    ensures After(next, s.clock) ==> Harmless(s, cfg, next)
  {
    var e := s.(cfg := cfg, cursor := next);
    UpdateBase(s, cfg, next, computedAt);
    AlwaysGoodIffSound(e);
    if After(next, s.clock) {
      forall x | Reaches(e, x) ensures !Repeats(e, x) && !Strays(e, x) {
        var path :| Trail(e.claimers, e.cursor.value, path, x);
        TrailAscends(e, e.cursor.value, path, x);
        AheadIsFine(e, x);
      }
    }
  }

  lemma InitHolds(s: State)
    requires Init(s)
    ensures Base(s) && Sound(s)
  {
  }

  /** With any number of claimers and harmless updates, however late they are written: a cursor
      value yields at most one automatic instance, and that instance lies inside the window of a
      job that was enabled when it was claimed. */
  lemma ClaimedAtMostOnce(s: State, run: seq<Action>, e: State)
    requires Init(s) && Runs(s, run, e) && SafeRun(s, run)
    ensures Good(e)
  {
    InitHolds(s);
    RunKeeps(s, run, e);
  }

  // Every update writes a cursor that still lies ahead of the clock.
  ghost predicate AheadRun(s: State, run: seq<Action>)
    decreases |run|
  {
    run == [] ||
    (Enabled(s, run[0]) && (run[0].Update? ==> After(run[0].next, s.clock)) && AheadRun(Apply(s, run[0]), run[1..]))
  }

  lemma {:induction false} AheadRunIsSafe(s: State, run: seq<Action>)
    requires Base(s) && Sound(s) && AheadRun(s, run)
    ensures SafeRun(s, run)
    decreases |run|
  {
    if run != [] {
      var a := run[0];
      if a.Update? {
        UpdateIsSafeIff(s, a.cfg, a.next, a.computedAt);
      }
      StepKeeps(s, a);
      AheadRunIsSafe(Apply(s, a), run[1..]);
    }
  }

  // The cursor is beyond every value ever claimed.
  ghost predicate Beyond(s: State) {
    (forall v | v in s.claims :: v <= s.clock) && (s.cursor.Some? ==> forall v | v in s.claims :: v < s.cursor.value)
  }

  lemma {:induction false} ClaimsAscend(s: State, run: seq<Action>, e: State)
    requires Base(s) && Sound(s) && Beyond(s) && Runs(s, run, e) && AheadRun(s, run)
    ensures Beyond(e)
    decreases |run|
  {
    if run != [] {
      var a := run[0];
      if a.Advance? {
        assert ClaimerOk(s, s.claimers[a.c]);
      }
      if a.Update? {
        UpdateIsSafeIff(s, a.cfg, a.next, a.computedAt);
      }
      StepKeeps(s, a);
      ClaimsAscend(Apply(s, a), run[1..], e);
    }
  }

  // From the start, with updates ahead of the clock: at most once, and the cursor only goes up.
  lemma AheadIsAtMostOnce(s: State, run: seq<Action>, e: State)
    requires Init(s) && Runs(s, run, e) && AheadRun(s, run)
    ensures Good(e) && (e.cursor.Some? ==> forall v | v in e.claims :: v < e.cursor.value)
  {
    InitHolds(s);
    AheadRunIsSafe(s, run);
    RunKeeps(s, run, e);
    ClaimsAscend(s, run, e);
  }

  // A successful claim leaves the cursor absent or after the time it was computed at.
  lemma AdvanceMovesOn(s: State, c: int)
    requires ClaimersOk(s) && Enabled(s, Advance(c)) && s.cursor == Some(s.claimers[c].cursor)
    ensures After(Apply(s, Advance(c)).cursor, s.claimers[c].now) && s.claimers[c].cursor <= s.claimers[c].now
    ensures Apply(s, Advance(c)).claims == s.claims + {s.claimers[c].cursor}
  {
    assert ClaimerOk(s, s.claimers[c]);
  }

  // The cursor has gone past v, and no update of the run writes v or less.
  predicate Past(s: State, v: int) { v <= s.clock && After(s.cursor, v) }

  predicate StaysAbove(run: seq<Action>, v: int) {
    forall a | a in run && a.Update? :: After(a.next, v)
  }

  // Claims look at nothing but what Base says of the claimers, which no step breaks.
  ghost predicate Ordered(s: State) {
    forall c | c in s.claimers ::
      (!s.claimers[c].Done? ==> s.claimers[c].cursor <= s.clock) &&
      (s.claimers[c].Computed? ==>
         s.claimers[c].cursor <= s.claimers[c].now <= s.clock && After(s.claimers[c].next, s.claimers[c].now))
  }

  lemma {:induction false} PastForGood(s: State, run: seq<Action>, e: State, v: int)
    requires Ordered(s) && Runs(s, run, e) && StaysAbove(run, v) && Past(s, v)
    ensures Past(e, v)
    decreases |run|
  {
    if run != [] {
      assert run[0] in run;
      PastForGood(Apply(s, run[0]), run[1..], e, v);
    }
  }

  /** A claimer that scanned before the job was disabled or moved to a later cursor never
      succeeds, however long it waits and however late the update was written, unless an update
      writes that old value or less: its compare-and-set fails and it creates nothing. */
  lemma UpdateForestalls(s: State, u: Action, run: seq<Action>, e: State, c: int)
    requires Ordered(s) && c in s.claimers && s.claimers[c].Pending()
    requires u.Update? && Enabled(s, u) && Runs(Apply(s, u), run, e)
    requires After(u.next, s.claimers[c].cursor) && StaysAbove(run, s.claimers[c].cursor)
    requires c in e.claimers && e.claimers[c].Computed? && e.claimers[c].cursor == s.claimers[c].cursor
    ensures Apply(e, Advance(c)) == Goto(e, c, Done)
  {
    PastForGood(Apply(s, u), run, e, s.claimers[c].cursor);
  }

  // An update that computes its cursor, and writes it after that cursor has been claimed, fires it again.
  lemma SlowUpdateFiresTwice(v: int) returns (s: State, mid: State, slow: Action, run: seq<Action>, e: State)
    ensures Init(s) && (exists first :: Runs(s, first, mid) && Plain(first)) && |mid.fired| == 1
    ensures slow == Update(s.cfg, Some(v), v - 1) && Enabled(mid, slow) && !Harmless(mid, s.cfg, Some(v))
    ensures Runs(Apply(mid, slow), run, e) && Plain(run)
    ensures |e.fired| == 2 && e.fired[0].cursor == v && e.fired[1].cursor == v
  {
    s := State(Some(v), Cfg(true, None, None), v, map[], {}, []);
    var first;
    first, mid := DueFires(s, v);
    InitHolds(s);
    PlainIsSafe(s, first, mid);
    RunKeeps(s, first, mid);
    slow := Update(s.cfg, Some(v), v - 1);
    var back := Apply(mid, slow);
    run, e := DueFires(back, back.clock);
    assert mid.fired[0].cursor == v;
    assert Trail(back.claimers, v, [], v);
    assert InWindow(back.cfg, back.clock);
    assert Repeats(back, v);
  }

  // A claimer has scanned cursor v when the job is disabled.
  lemma DisabledWhileScanned(v: int) returns (s: State, mid: State)
    ensures Init(s) && (exists first :: Runs(s, first, mid) && SafeRun(s, first))
    ensures mid == State(None, Cfg(false, None, None), v, map[1 := Seen(v, Cfg(true, None, None))], {}, [])
  {
    s := State(Some(v), Cfg(true, None, None), v, map[], {}, []);
    var scanned := Apply(s, Scan(1));
    var disable := Update(Cfg(false, None, None), None, v);
    mid := Apply(scanned, disable);
    InitHolds(s);
    StepKeeps(s, Scan(1));
    UpdateIsSafeIff(scanned, disable.cfg, None, v);
    RunsCons(scanned, disable, [], mid);
    RunsCons(s, Scan(1), [disable] + [], mid);
    assert SafeRun(scanned, [disable] + []);
    assert ([Scan(1)] + ([disable] + []))[1..] == [disable] + [];
    assert SafeRun(s, [Scan(1)] + ([disable] + []));
  }

  // Two updates race: one disables the job, the other has read it enabled and writes its cursor
  // afterwards. A claimer that had scanned that cursor then fires for the disabled job.
  lemma RacingUpdatesFireDisabled(v: int) returns (s: State, mid: State, late: Action, run: seq<Action>, e: State)
    ensures Init(s) && (exists first :: Runs(s, first, mid) && SafeRun(s, first)) && !mid.cfg.enabled
    ensures late == Update(mid.cfg, Some(v), v - 1) && Enabled(mid, late) && !Harmless(mid, mid.cfg, Some(v))
    ensures Runs(Apply(mid, late), run, e) && Plain(run)
    ensures e.fired == [Fired(v, v, mid.cfg)] && Good(mid) && !Good(e)
  {
    s, mid := DisabledWhileScanned(v);
    late := Update(mid.cfg, Some(v), v - 1);
    var back := Apply(mid, late);
    assert Shot(back, 1, v, v);
    run, e := ShotFires(back, 1, v);
    assert e.fired[0] == Fired(v, v, mid.cfg);
    assert Trail(back.claimers, v, [], v);
    assert Strays(back, v);
  }
}
