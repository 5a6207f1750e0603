/** Retry chains over whole runs. The retry pump is one thread whose database statements
    interleave with triggers, status writes and requests for a retry (scheduleRetry and the
    manual Retry both only set next_retry_time); the process may crash at any point. */
module RetryChain {
  import opened Counting
  import opened Instances
  import opened InstanceStore

  // RetryCount of every job.
  type Limits = map<int, int>

  // What the pump holds in its local variables; due is the rest of the list it scanned.
  datatype Pump =
    | Idle
    | Scanning(due: seq<int>)
    | Cleared(i: int, due: seq<int>)  // mark taken, existing child not looked for
    | Vacant(i: int, due: seq<int>)   // no child found, slot not requested
    | Acquired(i: int, due: seq<int>) // slot taken, retry not created
    | Refused(i: int, due: seq<int>)  // no slot, mark not set again

  // asked is history: the instances a retry was ever requested for.
  datatype State = State(rows: Rows, pump: Pump, asked: set<int>)

  predicate MayRetry(limits: Limits, r: Row) {
    r.job in limits && r.retryIndex < limits[r.job]
  }

  function RetryRow(orig: int, r: Row, now: int): Row {
    NewRow(r.job, r.app, Retry, r.priority, r.retryIndex + 1, RootOf(orig, r), now)
  }

  predicate RetryOf(rows: Rows, c: int, i: int)
    requires i in rows
  {
    IsRetry(rows, c, RootOf(i, rows[i]), rows[i].retryIndex + 1)
  }

  // What ExistsRetryChild is asked on behalf of i.
  ghost predicate HasRetry(rows: Rows, i: int)
    requires i in rows
  {
    exists c :: RetryOf(rows, c, i)
  }

  lemma AskedOfStore(rows: Rows, i: int, root: int, index: int)
    requires i in rows && root == RootOf(i, rows[i]) && index == rows[i].retryIndex + 1
    ensures AnyRetry(rows, root, index) <==> HasRetry(rows, i)
  {
    if AnyRetry(rows, root, index) {
      var c :| IsRetry(rows, c, root, index);
      assert RetryOf(rows, c, i);
    }
    if HasRetry(rows, i) {
      var c :| RetryOf(rows, c, i);
      assert IsRetry(rows, c, root, index);
    }
  }

  datatype Action =
    | Head(i: int, r: Row)          // any trigger but a retry
    | Change(i: int, r: Row)        // any status, address, time or priority write
    | Ask(i: int, at: int)
    | Scan(due: seq<int>)
    | Clear
    | Look
    | Take(ok: bool)
    | Create(id: int, now: int)
    | Defer(now: int)
    | Rest
    | Crash

  ghost predicate Enabled(limits: Limits, s: State, a: Action) {
    match a
    case Head(i, r) => i > 0 && i !in s.rows && r.root == 0 && r.retryIndex == 0 && r.nextRetry.None?
    case Change(i, r) =>
      i in s.rows && r.job == s.rows[i].job && r.root == s.rows[i].root &&
      r.retryIndex == s.rows[i].retryIndex && r.nextRetry == s.rows[i].nextRetry
    case Ask(i, _) => i in s.rows && MayRetry(limits, s.rows[i])
    case Scan(due) =>
      s.pump.Idle? && forall i | i in due :: i in s.rows && s.rows[i].status.Retryable() && s.rows[i].nextRetry.Some?
    case Clear => s.pump.Scanning? && s.pump.due != [] && s.pump.due[0] in s.rows
    case Look => s.pump.Cleared? && s.pump.i in s.rows
    case Take(_) => s.pump.Vacant?
    case Create(id, _) => s.pump.Acquired? && s.pump.i in s.rows && id > 0 && id !in s.rows
    case Defer(_) => s.pump.Refused? && s.pump.i in s.rows
    case Rest => s.pump == Scanning([])
    case Crash => true
  }

  function Marked(rows: Rows, i: int, at: Option<int>): Rows
    requires i in rows
  {
    rows[i := rows[i].(nextRetry := at)]
  }

  ghost function Apply(limits: Limits, s: State, a: Action): State
    requires Enabled(limits, s, a)
  {
    match a
    case Head(i, r) => s.(rows := s.rows[i := r])
    case Change(i, r) => s.(rows := s.rows[i := r])
    case Ask(i, at) => s.(rows := Marked(s.rows, i, Some(at)), asked := s.asked + {i})
    case Scan(due) => s.(pump := Scanning(due))
    case Clear =>
      var i, due := s.pump.due[0], s.pump.due[1..];
      if s.rows[i].nextRetry.None? then s.(pump := Scanning(due))
      else
        var pump := if MayRetry(limits, s.rows[i]) then Cleared(i, due) else Scanning(due);
        State(Marked(s.rows, i, None), pump, s.asked)
    case Look => s.(pump := if HasRetry(s.rows, s.pump.i) then Scanning(s.pump.due) else Vacant(s.pump.i, s.pump.due))
    case Take(ok) => s.(pump := if ok then Acquired(s.pump.i, s.pump.due) else Refused(s.pump.i, s.pump.due))
    case Create(id, now) =>
      s.(rows := s.rows[id := RetryRow(s.pump.i, s.rows[s.pump.i], now)], pump := Scanning(s.pump.due))
    case Defer(now) => s.(rows := Marked(s.rows, s.pump.i, Some(now + 1_000_000_000)), pump := Scanning(s.pump.due))
    case Rest => s.(pump := Idle)
    case Crash => s.(pump := Idle)
  }

  // ----- the invariant -----

  ghost predicate Follows(limits: Limits, rows: Rows, i: int)
    requires i in rows
  {
    var r := rows[i];
    if r.root == 0 then r.retryIndex == 0
    else
      r.retryIndex >= 1 && r.root in rows && rows[r.root].root == 0 && rows[r.root].job == r.job &&
      r.job in limits && r.retryIndex <= limits[r.job] &&
      exists p :: Precedes(rows, p, r)
  }

  predicate Precedes(rows: Rows, p: int, r: Row) {
    p in rows && RootOf(p, rows[p]) == r.root && rows[p].retryIndex + 1 == r.retryIndex
  }

  // Same root, same index.
  predicate SamePlace(rows: Rows, i: int, j: int) {
    i in rows && j in rows && RootOf(i, rows[i]) == RootOf(j, rows[j]) && rows[i].retryIndex == rows[j].retryIndex
  }

  ghost predicate OneEach(rows: Rows) {
    forall i, j | SamePlace(rows, i, j) :: i == j
  }

  // Every row is a head or follows one, and no two rows of a root have the same index.
  ghost predicate Chained(limits: Limits, rows: Rows) {
    (forall i | i in rows :: i > 0 && Follows(limits, rows, i)) && OneEach(rows)
  }

  ghost predicate PumpOk(limits: Limits, s: State) {
    (s.pump.Cleared? || s.pump.Vacant? || s.pump.Acquired? || s.pump.Refused? ==>
       s.pump.i in s.rows && MayRetry(limits, s.rows[s.pump.i])) &&
    (s.pump.Vacant? || s.pump.Acquired? ==> !HasRetry(s.rows, s.pump.i))
  }

  ghost predicate Inv(limits: Limits, s: State) {
    Chained(limits, s.rows) && PumpOk(limits, s)
  }

  // Nothing that matters to a chain differs.
  ghost predicate SameChains(rows: Rows, e: Rows) {
    e.Keys == rows.Keys &&
    forall i | i in rows ::
      e[i].job == rows[i].job && e[i].root == rows[i].root && e[i].retryIndex == rows[i].retryIndex
  }

  lemma SameChainsKeep(limits: Limits, rows: Rows, e: Rows)
    requires Chained(limits, rows) && SameChains(rows, e)
    ensures Chained(limits, e)
    ensures forall i | i in rows :: HasRetry(e, i) <==> HasRetry(rows, i)
  {
    forall i | i in e ensures i > 0 && Follows(limits, e, i) {
      assert Follows(limits, rows, i);
      if e[i].root != 0 {
        var p :| Precedes(rows, p, rows[i]);
        assert Precedes(e, p, e[i]);
      }
    }
    forall i | i in rows ensures HasRetry(e, i) <==> HasRetry(rows, i) {
      if HasRetry(rows, i) {
        SameRetry(rows, e, i);
      }
      if HasRetry(e, i) {
        SameRetry(e, rows, i);
      }
    }
    forall i, j | SamePlace(e, i, j) ensures i == j {
      assert SamePlace(rows, i, j);
    }
  }

  lemma SameRetry(rows: Rows, e: Rows, i: int)
    requires SameChains(rows, e) && i in rows && HasRetry(rows, i)
    ensures HasRetry(e, i)
  {
    var c :| RetryOf(rows, c, i);
    assert RetryOf(e, c, i);
  }

  lemma HeadKeeps(limits: Limits, rows: Rows, i: int, r: Row)
    requires Chained(limits, rows) && i > 0 && i !in rows && r.root == 0 && r.retryIndex == 0
    ensures Chained(limits, rows[i := r])
    ensures forall x | x in rows :: HasRetry(rows[i := r], x) ==> HasRetry(rows, x)
  {
    GrowKeepsFollows(limits, rows, i, r);
    var e := rows[i := r];
    forall x | x in rows && HasRetry(e, x) ensures HasRetry(rows, x) {
      var c :| RetryOf(e, c, x);
      assert RetryOf(rows, c, x);
    }
    forall x, y | SamePlace(e, x, y) ensures x == y {
      HeadIsAlone(limits, rows, i, r, x, y);
    }
  }

  lemma HeadIsAlone(limits: Limits, rows: Rows, i: int, r: Row, x: int, y: int)
    requires Chained(limits, rows) && i > 0 && i !in rows && r.root == 0 && r.retryIndex == 0
    requires SamePlace(rows[i := r], x, y)
    ensures x == y
  {
    assert x in rows ==> Follows(limits, rows, x);
    assert y in rows ==> Follows(limits, rows, y);
    assert x != i && y != i ==> SamePlace(rows, x, y);
  }

  lemma GrowKeepsFollows(limits: Limits, rows: Rows, i: int, r: Row)
    requires Chained(limits, rows) && i !in rows
    ensures forall x | x in rows :: Follows(limits, rows[i := r], x)
  {
    var e := rows[i := r];
    forall x | x in rows ensures Follows(limits, e, x) {
      assert Follows(limits, rows, x);
      if rows[x].root != 0 {
        var p :| Precedes(rows, p, rows[x]);
        assert Precedes(e, p, e[x]);
      }
    }
  }

  // The pump's creation extends the chain by the one index that was missing.
  lemma CreateKeeps(limits: Limits, rows: Rows, i: int, id: int, now: int)
    requires Chained(limits, rows) && i in rows && MayRetry(limits, rows[i]) && !HasRetry(rows, i)
    requires id > 0 && id !in rows
    ensures Chained(limits, rows[id := RetryRow(i, rows[i], now)])
    ensures HasRetry(rows[id := RetryRow(i, rows[i], now)], i)
  {
    var r := RetryRow(i, rows[i], now);
    var e := rows[id := r];
    GrowKeepsFollows(limits, rows, id, r);
    assert Follows(limits, rows, i);
    assert Precedes(e, i, r);
    assert RetryOf(e, id, i);
    forall x, y | SamePlace(e, x, y) ensures x == y {
      assert x != id && y != id ==> SamePlace(rows, x, y);
      assert !RetryOf(rows, x, i) && !RetryOf(rows, y, i);
    }
  }

  // A write that leaves the chains alone, by the pump or beside it.
  lemma WriteKeeps(limits: Limits, s: State, e: State)
    requires Inv(limits, s) && SameChains(s.rows, e.rows)
    requires e.pump == s.pump || e.pump.Idle? || e.pump.Scanning? ||
             (e.pump.Cleared? && e.pump.i in s.rows && MayRetry(limits, s.rows[e.pump.i]))
    ensures Inv(limits, e)
  {
    SameChainsKeep(limits, s.rows, e.rows);
  }

  lemma PumpKeeps(limits: Limits, s: State, a: Action)
    requires Inv(limits, s) && Enabled(limits, s, a) && (a.Look? || a.Take?)
    ensures Inv(limits, Apply(limits, s, a))
  {
  }

  lemma StepKeeps(limits: Limits, s: State, a: Action)
    requires Inv(limits, s) && Enabled(limits, s, a)
    ensures Inv(limits, Apply(limits, s, a))
  {
    match a
    case Head(i, r) => HeadKeeps(limits, s.rows, i, r);
    case Create(id, now) => CreateKeeps(limits, s.rows, s.pump.i, id, now);
    case Look => PumpKeeps(limits, s, a);
    case Take(_) => PumpKeeps(limits, s, a);
    case _ =>
      var e := Apply(limits, s, a);
      assert SameChains(s.rows, e.rows);
      WriteKeeps(limits, s, e);
  }

  ghost predicate Runs(limits: Limits, s: State, run: seq<Action>, e: State)
    decreases |run|
  {
    if run == [] then e == s
    else Enabled(limits, s, run[0]) && Runs(limits, Apply(limits, s, run[0]), run[1..], e)
  }

  const EMPTY := State(map[], Idle, {})

  lemma {:induction false} RunKeeps(limits: Limits, s: State, run: seq<Action>, e: State)
    requires Inv(limits, s) && Runs(limits, s, run, e)
    ensures Inv(limits, e)
    decreases |run|
  {
    if run != [] {
      StepKeeps(limits, s, run[0]);
      RunKeeps(limits, Apply(limits, s, run[0]), run[1..], e);
    }
  }

  // ----- main results -----

  ghost function ChainOf(rows: Rows, head: int): set<int> {
    set i | i in rows && RootOf(i, rows[i]) == head
  }

  predicate Link(rows: Rows, head: int, n: nat, p: int) {
    p in rows && RootOf(p, rows[p]) == head && rows[p].retryIndex == n
  }

  // max(0, RetryCount)
  function RetriesOf(limits: Limits, job: int): nat {
    if job in limits && limits[job] > 0 then limits[job] else 0
  }

  ghost predicate HasLink(rows: Rows, head: int, n: nat) {
    exists p :: Link(rows, head, n, p)
  }

  lemma {:induction false} NoGap(limits: Limits, rows: Rows, i: int, n: nat) returns (p: int)
    requires Chained(limits, rows) && i in rows && n <= rows[i].retryIndex
    ensures Link(rows, RootOf(i, rows[i]), n, p)
    decreases rows[i].retryIndex
  {
    p := i;
    if n < rows[i].retryIndex {
      assert Follows(limits, rows, i);
      var q :| Precedes(rows, q, rows[i]);
      p := NoGap(limits, rows, q, n);
    }
  }

  lemma {:induction false} InjectiveSize(rows: Rows, chain: set<int>, bound: nat)
    requires forall i | i in chain :: i in rows && rows[i].retryIndex < bound
    requires OneEach(rows) && forall i, j | i in chain && j in chain :: RootOf(i, rows[i]) == RootOf(j, rows[j])
    ensures |chain| <= bound
    decreases bound
  {
    if chain != {} {
      var x :| x in chain;
      if i :| i in chain && rows[i].retryIndex == bound - 1 {
        RemoveSize(chain, i);
        forall y | y in chain && y != i ensures rows[y].retryIndex < bound - 1 {
          assert SamePlace(rows, y, i) ==> y == i;
        }
        InjectiveSize(rows, chain - {i}, bound - 1);
      } else {
        InjectiveSize(rows, chain, bound - 1);
      }
    }
  }

  /** In every run, crashes and manual retries included: the instances of one trigger have
      the retry indices 0..k, one each, all pointing at the head, and k <= RetryCount. */
  lemma ChainIsExact(limits: Limits, run: seq<Action>, e: State, head: int)
    requires Runs(limits, EMPTY, run, e) && head in e.rows && e.rows[head].root == 0
    ensures forall i | i in ChainOf(e.rows, head) && i != head ::
              e.rows[i].root == head && e.rows[i].job == e.rows[head].job && e.rows[i].retryIndex >= 1
    ensures e.rows[head].retryIndex == 0
    ensures forall i, j | i in ChainOf(e.rows, head) && j in ChainOf(e.rows, head) && i != j ::
              e.rows[i].retryIndex != e.rows[j].retryIndex
    ensures forall i, n: nat | i in ChainOf(e.rows, head) && n <= e.rows[i].retryIndex ::
              HasLink(e.rows, head, n)
    ensures |ChainOf(e.rows, head)| <= 1 + RetriesOf(limits, e.rows[head].job)
  {
    RunKeeps(limits, EMPTY, run, e);
    var rows := e.rows;
    var bound := 1 + RetriesOf(limits, rows[head].job);
    forall i, j | i in ChainOf(rows, head) && j in ChainOf(rows, head) && i != j
      ensures rows[i].retryIndex != rows[j].retryIndex
    {
      assert SamePlace(rows, i, j) ==> i == j;
    }
    forall i | i in ChainOf(rows, head) ensures rows[i].retryIndex < bound {
      assert Follows(limits, rows, i);
    }
    forall i, n: nat | i in ChainOf(rows, head) && n <= rows[i].retryIndex
      ensures HasLink(rows, head, n)
    {
      var p := NoGap(limits, rows, i, n);
      assert Link(rows, head, n, p);
    }
    InjectiveSize(rows, ChainOf(rows, head), bound);
  }

  // A retry asked for is still marked, in the pump's hands, or made.
  ghost predicate Kept(s: State, i: int) {
    i in s.rows &&
    (s.rows[i].nextRetry.Some? || (!s.pump.Idle? && !s.pump.Scanning? && s.pump.i == i) || HasRetry(s.rows, i))
  }

  ghost predicate AllKept(limits: Limits, s: State) {
    forall i | i in s.asked :: Kept(s, i) && MayRetry(limits, s.rows[i])
  }

  lemma GrowKeepsRetry(rows: Rows, id: int, r: Row, i: int)
    requires id !in rows && i in rows && HasRetry(rows, i)
    ensures HasRetry(rows[id := r], i)
  {
    var c :| RetryOf(rows, c, i);
    assert RetryOf(rows[id := r], c, i);
  }

  // A retry once made stays.
  lemma RetryStays(limits: Limits, s: State, a: Action, i: int)
    requires Enabled(limits, s, a) && i in s.rows && HasRetry(s.rows, i)
    ensures HasRetry(Apply(limits, s, a).rows, i)
  {
    match a
    case Head(id, r) => GrowKeepsRetry(s.rows, id, r, i);
    case Create(id, now) => GrowKeepsRetry(s.rows, id, RetryRow(s.pump.i, s.rows[s.pump.i], now), i);
    case _ => SameRetry(s.rows, Apply(limits, s, a).rows, i);
  }

  // A crash costs nothing unless the pump holds a mark it has taken and not answered.
  ghost predicate CrashHarmless(s: State) {
    s.pump.Idle? || s.pump.Scanning? ||
    (s.pump.i in s.rows && (s.rows[s.pump.i].nextRetry.Some? || HasRetry(s.rows, s.pump.i)))
  }

  lemma StepKeepsOne(limits: Limits, s: State, a: Action, i: int)
    requires Inv(limits, s) && Enabled(limits, s, a) && (a.Crash? ==> CrashHarmless(s))
    requires Kept(s, i) && MayRetry(limits, s.rows[i])
    ensures Kept(Apply(limits, s, a), i)
  {
    if HasRetry(s.rows, i) {
      RetryStays(limits, s, a, i);
    } else if a.Create? && s.pump.i == i {
      CreateKeeps(limits, s.rows, i, a.id, a.now);
    }
  }

  // Only what was asked for is ever marked or in the pump's hands.
  ghost predicate OnlyAsked(s: State) {
    (forall i | i in s.rows && s.rows[i].nextRetry.Some? :: i in s.asked) &&
    (!s.pump.Idle? && !s.pump.Scanning? ==> s.pump.i in s.asked)
  }

  lemma StepKeepsAsked(limits: Limits, s: State, a: Action)
    requires Inv(limits, s) && AllKept(limits, s) && OnlyAsked(s)
    requires Enabled(limits, s, a) && (a.Crash? ==> CrashHarmless(s))
    ensures AllKept(limits, Apply(limits, s, a)) && OnlyAsked(Apply(limits, s, a))
  {
    var e := Apply(limits, s, a);
    forall i | i in e.asked ensures Kept(e, i) && MayRetry(limits, e.rows[i]) {
      if i in s.asked {
        StepKeepsOne(limits, s, a, i);
      }
    }
  }

  // Every crash of the run is a harmless one.
  ghost predicate HarmlessRun(limits: Limits, s: State, run: seq<Action>)
    decreases |run|
  {
    run == [] ||
    (Enabled(limits, s, run[0]) && (run[0].Crash? ==> CrashHarmless(s)) &&
     HarmlessRun(limits, Apply(limits, s, run[0]), run[1..]))
  }

  lemma {:induction false} RunKeepsAsked(limits: Limits, s: State, run: seq<Action>, e: State)
    requires Inv(limits, s) && AllKept(limits, s) && OnlyAsked(s)
    requires Runs(limits, s, run, e) && HarmlessRun(limits, s, run)
    ensures Inv(limits, e) && AllKept(limits, e) && OnlyAsked(e)
    decreases |run|
  {
    if run != [] {
      StepKeeps(limits, s, run[0]);
      StepKeepsAsked(limits, s, run[0]);
      RunKeepsAsked(limits, Apply(limits, s, run[0]), run[1..], e);
    }
  }

  // No retry is lost, a full job and harmless crashes included; between scans it is marked or made.
  lemma RetryIsNeverLost(limits: Limits, run: seq<Action>, e: State, i: int)
    requires Runs(limits, EMPTY, run, e) && HarmlessRun(limits, EMPTY, run) && i in e.asked
    ensures Kept(e, i)
    ensures e.pump.Idle? ==> e.rows[i].nextRetry.Some? || HasRetry(e.rows, i)
  {
    RunKeepsAsked(limits, EMPTY, run, e);
  }

  // The next crash after such a run loses no retry that was asked for iff it is harmless too.
  lemma CrashLosesNothingIff(limits: Limits, run: seq<Action>, s: State)
    requires Runs(limits, EMPTY, run, s) && HarmlessRun(limits, EMPTY, run)
    ensures (forall i | i in s.asked :: Kept(Apply(limits, s, Crash), i)) <==> CrashHarmless(s)
  {
    RunKeepsAsked(limits, EMPTY, run, s);
    var e := Apply(limits, s, Crash);
    if CrashHarmless(s) {
      StepKeepsAsked(limits, s, Crash);
    } else {
      assert s.pump.i in s.asked && !Kept(e, s.pump.i);
    }
  }

  // Nothing will come of an earlier request.
  ghost predicate Lost(s: State, i: int) {
    i in s.rows && !Kept(s, i)
  }

  lemma StepStaysLost(limits: Limits, s: State, a: Action, i: int)
    requires Inv(limits, s) && Enabled(limits, s, a) && Lost(s, i) && !(a.Ask? && a.i == i)
    ensures Lost(Apply(limits, s, a), i)
  {
    var e := Apply(limits, s, a);
    assert Follows(limits, s.rows, i);
    match a {
      case Head(id, r) => HeadKeeps(limits, s.rows, id, r);
      case Create(id, now) => CreateForAnother(limits, s.rows, s.pump.i, id, now, i);
      case _ => SameChainsKeep(limits, s.rows, e.rows);
    }
  }

  // The retry of one instance is the retry of no other.
  lemma CreateForAnother(limits: Limits, rows: Rows, j: int, id: int, now: int, i: int)
    requires Chained(limits, rows) && j in rows && i in rows && i != j && id !in rows
    ensures HasRetry(rows[id := RetryRow(j, rows[j], now)], i) ==> HasRetry(rows, i)
  {
    var e := rows[id := RetryRow(j, rows[j], now)];
    assert SamePlace(rows, i, j) ==> i == j;
    if HasRetry(e, i) {
      var c :| RetryOf(e, c, i);
      assert c != id ==> RetryOf(rows, c, i);
    }
  }

  /** A retry a crash has lost is lost for good: whatever follows, further crashes included, the
      instance gets no retry until somebody asks again. */
  lemma {:induction false} LostForGood(limits: Limits, s: State, run: seq<Action>, e: State, i: int)
    requires Inv(limits, s) && Runs(limits, s, run, e) && Lost(s, i)
    requires forall a | a in run :: !(a.Ask? && a.i == i)
    ensures Lost(e, i) && !HasRetry(e.rows, i)
    decreases |run|
  {
    if run != [] {
      assert run[0] in run;
      StepKeeps(limits, s, run[0]);
      StepStaysLost(limits, s, run[0], i);
      LostForGood(limits, Apply(limits, s, run[0]), run[1..], e, i);
    }
  }

  lemma RunsCons(limits: Limits, s: State, a: Action, run: seq<Action>, e: State)
    requires Enabled(limits, s, a) && Runs(limits, Apply(limits, s, a), run, e)
    ensures Runs(limits, s, [a] + run, e)
  {
    assert ([a] + run)[1..] == run;
  }

  // Such a crash happens: trigger, failure, request, scan, mark taken, crash.
  lemma CrashLosesRetry(r: Row) returns (run: seq<Action>, e: State)
    requires r.root == 0 && r.retryIndex == 0 && r.nextRetry.None? && r.status.Queued?
    ensures Runs(map[r.job := 1], EMPTY, run, e) && Inv(map[r.job := 1], e)
    ensures 1 in e.asked && Lost(e, 1)
  {
    var limits := map[r.job := 1];
    var failed := r.(status := Failed);
    var s1 := Apply(limits, EMPTY, Head(1, r));
    var s2 := Apply(limits, s1, Change(1, failed));
    var s3 := Apply(limits, s2, Ask(1, 0));
    var s4 := Apply(limits, s3, Scan([1]));
    var s5 := Apply(limits, s4, Clear);
    e := Apply(limits, s5, Crash);
    run := [Crash];
    RunsCons(limits, s5, Crash, [], e);
    RunsCons(limits, s4, Clear, run, e);
    RunsCons(limits, s3, Scan([1]), [Clear] + run, e);
    RunsCons(limits, s2, Ask(1, 0), [Scan([1])] + ([Clear] + run), e);
    RunsCons(limits, s1, Change(1, failed), [Ask(1, 0)] + ([Scan([1])] + ([Clear] + run)), e);
    run := [Change(1, failed)] + ([Ask(1, 0)] + ([Scan([1])] + ([Clear] + run)));
    RunsCons(limits, EMPTY, Head(1, r), run, e);
    run := [Head(1, r)] + run;
    RunKeeps(limits, EMPTY, run, e);
    assert forall c :: !RetryOf(e.rows, c, 1);
  }
}
