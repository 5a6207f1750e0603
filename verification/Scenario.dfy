/** A run that reaches an instance in flight: the results of Safety.dfy speak of states that
    exist, and for a serial job the concurrency limit is attained. */
module Scenario {
  import opened Counting
  import opened Instances
  import opened Loads
  import opened Slots
  import opened Dispatch
  import opened Safety
  import opened WorkerPath

  const COLD := State(map[], map[], map[], map[], multiset{}, multiset{}, multiset{}, map[],
                      {}, {}, {}, {}, {}, multiset{}, multiset{})

  lemma {:induction false} RunsOn(cfg: Config, s: State, run: seq<Action>, e: State, a: Action)
    requires Runs(cfg, s, run, e) && Enabled(cfg, e, a)
    ensures Runs(cfg, s, run + [a], Apply(cfg, e, a))
    decreases |run|
  {
    if run == [] {
      assert Runs(cfg, e, [a], Apply(cfg, e, a));
      assert run + [a] == [a];
    } else {
      RunsOn(cfg, Apply(cfg, s, run[0]), run[1..], e, a);
      assert (run + [a])[1..] == run[1..] + [a];
    }
  }

  lemma ReachesOn(cfg: Config, e: State, a: Action)
    requires Reachable(cfg, e) && Enabled(cfg, e, a)
    ensures Reachable(cfg, Apply(cfg, e, a))
  {
    var s, run :| Init(cfg, s) && Runs(cfg, s, run, e);
    RunsOn(cfg, s, run, e, a);
  }

  lemma ReachesDispatch(cfg: Config, s: State, a: DispatchAction, e: State)
    requires Reachable(cfg, s) && DispatchEnabled(s, a) && e == ApplyDispatch(s, a)
    ensures Reachable(cfg, e)
  {
    ReachesOn(cfg, s, OfDispatch(a));
  }

  lemma ReachesTrigger(cfg: Config, s: State, a: TriggerAction, e: State)
    requires Reachable(cfg, s) && TriggerEnabled(cfg, s, a) && e == ApplyTrigger(cfg, s, a)
    ensures Reachable(cfg, e)
  {
    ReachesOn(cfg, s, OfTrigger(a));
  }

  // Thread t has bound instance i and can mark it for a worker,
  lemma BoundIsMarked(cfg: Config, s: State, t: int, addr: string, now: int) returns (e: State)
    requires Reachable(cfg, s) && t in s.threads && s.threads[t].Bound? && addr != ""
    requires var i := s.threads[t].i; i in s.rows && !s.rows[i].Terminal()
    ensures Reachable(cfg, e)
    ensures var i := s.threads[t].i;
            e == s.(rows := s.rows[i := Dispatched(Instances.Addressed(s.rows[i], addr, now))],
                    marked := s.marked + {i}, threads := s.threads[t := Marked(i, addr)])
  {
    var i := s.threads[t].i;
    var s1 := Pick(s, t, addr);
    ReachesDispatch(cfg, s, APick(t, addr), s1);
    e := MarkTx(s1, t, now);
    ReachesDispatch(cfg, s1, AMarkTx(t, now), e);
    assert e.threads == s.threads[t := Marked(i, addr)];
    assert e.rows == s.rows[i := Dispatched(Instances.Addressed(s.rows[i], addr, now))];
  }

  // and then send it and record the worker.
  lemma MarkedIsSent(cfg: Config, s: State, t: int) returns (e: State)
    requires Reachable(cfg, s) && t in s.threads && s.threads[t].Marked? && s.threads[t].i in s.held
    ensures Reachable(cfg, e)
    ensures var i := s.threads[t].i;
            var h := s.held[i].(addr := s.threads[t].addr);
            e == s.(held := s.held[i := h], loads := AcquireLoad(s.loads, h.Key()), threads := s.threads[t := Done])
  {
    var s1 := SendOk(s, t);
    ReachesDispatch(cfg, s, ASendOk(t), s1);
    e := Record(s1, t);
    ReachesDispatch(cfg, s1, ARecord(t), e);
    assert e.threads == s.threads[t := Done];
  }

  lemma ColdStarts(cfg: Config)
    ensures Reachable(cfg, COLD)
  {
    assert Runs(cfg, COLD, [], COLD);
  }

  lemma ColdClaims(cfg: Config, job: int)
    requires job in cfg
    ensures Reachable(cfg, COLD.(slots := map[job := 1], threads := map[1 := Claiming(job, Auto)]))
  {
    ColdStarts(cfg);
    var s := Claim(COLD, 1, job, Auto);
    assert s == COLD.(slots := map[job := 1], threads := map[1 := Claiming(job, Auto)]);
    ReachesTrigger(cfg, COLD, AClaim(1, job, Auto), s);
  }

  lemma AutoCreates(cfg: Config, job: int, r: Row) returns (e: State)
    requires job in cfg && NewRowFor(cfg, COLD, 7, r) && r.job == job && r.trigger.Auto?
    ensures Reachable(cfg, e)
    ensures e == COLD.(slots := map[job := 1], rows := map[7 := r], managed := {7},
                       threads := map[1 := Created(7, job)])
  {
    ColdClaims(cfg, job);
    var s := COLD.(slots := map[job := 1], threads := map[1 := Claiming(job, Auto)]);
    e := Create(s, 1, 7, r);
    ReachesTrigger(cfg, s, ACreate(1, 7, r), e);
  }

  // An automatic trigger of job, dispatched to addr by thread 1.
  lemma DispatchHappens(cfg: Config, job: int, addr: string, r: Row, now: int) returns (e: State)
    requires job in cfg && addr != "" && NewRowFor(cfg, COLD, 7, r) && r.job == job && r.trigger.Auto?
    ensures Reachable(cfg, e) && Idle(e) && InFlight(e, job) == {7}
    ensures e.rows == map[7 := Dispatched(Instances.Addressed(r, addr, now))]
    ensures e.slots == map[job := 1] && e.held == map[7 := HeldSlot(r.app, job, addr)]
    ensures e.releasing == multiset{} && 2 !in e.threads && e.marked == {7}
  {
    var s1 := AutoCreates(cfg, job, r);
    var s2 := Bind(s1, 1);
    ReachesDispatch(cfg, s1, ABind(1), s2);
    var s3 := BoundIsMarked(cfg, s2, 1, addr, now);
    e := MarkedIsSent(cfg, s3, 1);
    assert InFlight(e, job) == {7};
  }

  lemma ReachesRelease(cfg: Config, s: State, a: ReleaseAction, e: State)
    requires Reachable(cfg, s) && ReleaseEnabled(s, a) && e == ApplyRelease(s, a)
    ensures Reachable(cfg, e)
  {
    ReachesOn(cfg, s, OfRelease(a));
  }

  // A bound instance no worker matches: it fails,
  lemma BoundFails(cfg: Config, s: State, t: int, reason: string, now: int) returns (e: State)
    requires Reachable(cfg, s) && t in s.threads && s.threads[t].Bound?
    requires var i := s.threads[t].i; i in s.rows && !s.rows[i].Terminal()
    ensures Reachable(cfg, e)
    ensures var i := s.threads[t].i;
            e == s.(rows := s.rows[i := DispatchFailed(s.rows[i], reason, now)], wins := s.wins + multiset{i},
                    threads := s.threads[t := Dropping(i, true)])
  {
    var s1 := PickMismatch(s, t);
    ReachesDispatch(cfg, s, APickMismatch(t), s1);
    e := Fail(s1, t, reason, now);
    ReachesDispatch(cfg, s1, AFail(t, reason, now), e);
    assert e.threads == s.threads[t := Dropping(s.threads[t].i, true)];
  }

  // its slot goes back, and it is marked for a retry.
  lemma DropsAndSchedules(cfg: Config, s: State, t: int, at: int) returns (e: State)
    requires Reachable(cfg, s) && t in s.threads && s.threads[t].Dropping? && s.threads[t].retry
    requires s.threads[t].i in s.rows && s.threads[t].i in s.held
    ensures Reachable(cfg, e)
    ensures var i := s.threads[t].i;
            e.rows == s.rows[i := s.rows[i].(nextRetry := Some(at))] && e.retried == s.retried + multiset{i} &&
            e.wins == s.wins && e.held == s.held - {i} && e.slots == FreeSlot(s.slots, s.held[i].job) &&
            e.threads == s.threads[t := Done]
  {
    var s1 := Drop(s, t);
    ReachesRelease(cfg, s, ADrop(t), s1);
    e := Schedule(s1, t, Some(at));
    ReachesRelease(cfg, s1, ASchedule(t, Some(at)), e);
    assert e.threads == s.threads[t := Done];
  }

  /** A failed dispatch really is retried: from a cold start an automatic instance that no worker
      matches fails, gives its slot back and is marked, by the one write that ended it. */
  lemma RetryHappens(cfg: Config, job: int, r: Row, now: int, at: int) returns (e: State)
    requires job in cfg && NewRowFor(cfg, COLD, 7, r) && r.job == job && r.trigger.Auto?
    ensures Reachable(cfg, e) && Idle(e) && e.slots == map[] && e.held == map[]
    ensures e.rows == map[7 := DispatchFailed(r, "", now).(nextRetry := Some(at))]
    ensures e.wins[7] == 1 && e.retried[7] == 1
  {
    var s1 := AutoCreates(cfg, job, r);
    var s2 := Bind(s1, 1);
    ReachesDispatch(cfg, s1, ABind(1), s2);
    var s3 := BoundFails(cfg, s2, 1, "", now);
    e := DropsAndSchedules(cfg, s3, 1, at);
  }

  // The addressee of instance i reports it done; nothing of it stays in memory.
  lemma Completes(cfg: Config, s: State, t: int, i: int, result: string, now: int) returns (e: State)
    requires Reachable(cfg, s) && Free(s, t) && i in s.rows && i in s.held && s.releasing == multiset{}
    requires s.held[i].addr != "" && s.rows[i].addr == s.held[i].addr
    ensures Reachable(cfg, e)
    ensures e.rows == s.rows[i := Reported(s.rows[i], Success, result, now)] && e.held == s.held - {i}
    ensures e.slots == FreeSlot(s.slots, s.held[i].job) && e.threads == s.threads[t := Done]
    ensures e.loads == ReleaseLoad(s.loads, s.held[i].Key()) && e.releasing == multiset{}
  {
    var s1 := Report(s, t, i, Success);
    ReachesOn(cfg, s, OfWriter(AReport(t, i, s.held[i].addr, Success)));
    var s2 := WriteReport(s1, t, result, now);
    ReachesOn(cfg, s1, OfWriter(AWriteReport(t, result, now)));
    e := DropsAndReleases(cfg, s2, t, i);
    assert e.threads == s.threads[t := Done];
  }

  lemma DropsAndReleases(cfg: Config, s: State, t: int, i: int) returns (e: State)
    requires Reachable(cfg, s) && t in s.threads && s.threads[t] == Dropping(i, false) && i in s.held
    requires s.held[i].addr != "" && s.releasing == multiset{}
    ensures Reachable(cfg, e) && e.rows == s.rows && e.held == s.held - {i}
    ensures e.slots == FreeSlot(s.slots, s.held[i].job) && e.threads == s.threads[t := Done]
    ensures e.loads == ReleaseLoad(s.loads, s.held[i].Key()) && e.releasing == multiset{}
  {
    var s1 := Drop(s, t);
    ReachesRelease(cfg, s, ADrop(t), s1);
    e := RegistryRelease(s1, s.held[i].Key());
    ReachesRelease(cfg, s1, ARegistryRelease(s.held[i].Key()), e);
  }

  /** A whole life: triggered, dispatched, reported by its worker and released, with nothing left. */
  lemma LifeHappens(cfg: Config, job: int, addr: string, r: Row, now: int, result: string) returns (e: State)
    requires job in cfg && addr != "" && NewRowFor(cfg, COLD, 7, r) && r.job == job && r.trigger.Auto?
    ensures Reachable(cfg, e) && Idle(e) && e.slots == map[] && e.held == map[]
    ensures 7 in e.rows && e.rows[7].status == Success && e.rows[7].addr == addr && forall k :: Load(e.loads, k) == 0
  {
    var s := DispatchHappens(cfg, job, addr, r, now);
    e := Completes(cfg, s, 2, 7, result, now);
    NothingLeaks(cfg, e);
  }

  // Identifiers and threads up to n are used.
  ghost predicate UpTo(s: State, n: int) {
    (forall i | i in s.rows || i in s.threads :: i <= n) && forall i | i in s.marked :: i in s.rows
  }

  // A retried trigger of a job below its limit, up to the new instance of thread t,
  lemma OneMoreCreated(cfg: Config, s: State, t: int, job: int, r: Row) returns (e: State)
    requires Reachable(cfg, s) && t !in s.threads && t !in s.rows && CanClaim(cfg, s, t, job, Trigger.Retry)
    requires NewRowFor(cfg, s, t, r) && r.job == job && r.trigger == Trigger.Retry
    ensures Reachable(cfg, e)
    ensures e.rows == s.rows[t := r] && e.marked == s.marked && e.threads == s.threads[t := Created(t, job)]
  {
    var s1 := Claim(s, t, job, Trigger.Retry);
    ReachesTrigger(cfg, s, AClaim(t, job, Trigger.Retry), s1);
    e := Create(s1, t, t, r);
    ReachesTrigger(cfg, s1, ACreate(t, t, r), e);
    assert e.threads == s.threads[t := Created(t, job)];
  }

  // and from there to the worker that has it.
  lemma CreatedIsSent(cfg: Config, s: State, t: int, job: int) returns (e: State)
    requires Reachable(cfg, s) && t in s.threads && s.threads[t] == Created(t, job)
    requires t in s.rows && !s.rows[t].Terminal()
    ensures Reachable(cfg, e)
    ensures e.rows == s.rows[t := Dispatched(Instances.Addressed(s.rows[t], "w", 0))]
    ensures e.marked == s.marked + {t} && e.threads == s.threads[t := Done]
  {
    var s1 := Bind(s, t);
    ReachesDispatch(cfg, s, ABind(t), s1);
    var s2 := BoundIsMarked(cfg, s1, t, "w", 0);
    e := MarkedIsSent(cfg, s2, t);
    assert e.threads == s.threads[t := Done];
  }

  lemma FlightGrows(s: State, e: State, t: int, job: int, r: Row)
    requires t !in s.rows && t !in s.marked && e.rows == s.rows[t := r] && e.marked == s.marked + {t}
    requires r.job == job && !r.Terminal()
    ensures |InFlight(e, job)| == |InFlight(s, job)| + 1
  {
    assert InFlight(e, job) == InFlight(s, job) + {t};
  }

  lemma OneMoreSent(cfg: Config, s: State, t: int, job: int, r: Row) returns (e: State)
    requires Reachable(cfg, s) && t !in s.threads && t !in s.rows && CanClaim(cfg, s, t, job, Trigger.Retry)
    requires NewRowFor(cfg, s, t, r) && r.job == job && r.trigger == Trigger.Retry
    ensures Reachable(cfg, e)
    ensures e.rows == s.rows[t := Dispatched(Instances.Addressed(r, "w", 0))]
    ensures e.marked == s.marked + {t} && e.threads == s.threads[t := Done]
  {
    var mid := OneMoreCreated(cfg, s, t, job, r);
    e := CreatedIsSent(cfg, mid, t, job);
    PutTwice(s.rows, t, r, Dispatched(Instances.Addressed(r, "w", 0)));
    PutTwice(s.threads, t, Created(t, job), Done);
  }

  lemma PutTwice<T>(m: map<int, T>, t: int, a: T, b: T)
    ensures m[t := a][t := b] == m[t := b]
  {
  }

  lemma NextCanClaim(cfg: Config, s: State, n: nat, job: int)
    requires Reachable(cfg, s) && Idle(s) && UpTo(s, n) && job in cfg && |InFlight(s, job)| == n
    requires n < Limit(cfg[job].maxConcurrency)
    ensures n + 1 !in s.threads && n + 1 !in s.rows && CanClaim(cfg, s, n + 1, job, Trigger.Retry)
  {
    IdleSlotsAreExact(cfg, s, job);
  }

  lemma OneMoreInFlight(cfg: Config, s: State, n: nat, job: int) returns (e: State)
    requires Reachable(cfg, s) && Idle(s) && UpTo(s, n) && job in cfg && |InFlight(s, job)| == n
    requires n < Limit(cfg[job].maxConcurrency)
    ensures Reachable(cfg, e) && Idle(e) && UpTo(e, n + 1) && |InFlight(e, job)| == n + 1
  {
    var r := NewRow(job, cfg[job].app, Trigger.Retry, 0, 1, 1, 0);
    NextCanClaim(cfg, s, n, job);
    e := OneMoreSent(cfg, s, n + 1, job, r);
    FlightGrows(s, e, n + 1, job, Dispatched(Instances.Addressed(r, "w", 0)));
  }

  /** The bound on instances in flight is attained: every number up to the limit is reached. */
  lemma {:induction false} LimitIsAttained(cfg: Config, job: int, n: nat) returns (e: State)
    requires job in cfg && n <= Limit(cfg[job].maxConcurrency)
    ensures Reachable(cfg, e) && Idle(e) && UpTo(e, n) && |InFlight(e, job)| == n
  {
    if n == 0 {
      ColdStarts(cfg);
      e := COLD;
      assert InFlight(e, job) == {};
    } else {
      var s := LimitIsAttained(cfg, job, n - 1);
      e := OneMoreInFlight(cfg, s, n - 1, job);
    }
  }

  lemma ReachesWriter(cfg: Config, s: State, a: WriterAction, e: State)
    requires Reachable(cfg, s) && WriterEnabled(s, a) && e == ApplyWriter(s, a)
    ensures Reachable(cfg, e)
  {
    ReachesOn(cfg, s, OfWriter(a));
  }

  // A manual trigger whose thread has not yet queued the instance.
  lemma Submits(cfg: Config, s: State, t: int, i: int, r: Row) returns (e: State)
    requires Reachable(cfg, s) && CanSubmit(cfg, s, t, i, r)
    ensures Reachable(cfg, e) && e == Submit(s, t, i, r)
  {
    e := Submit(s, t, i, r);
    ReachesTrigger(cfg, s, ASubmit(t, i, r), e);
  }

  // A report through the /server handler is taken whoever sends it.
  lemma RunningUnchecked(cfg: Config, s: State, t: int, i: int, now: int) returns (e: State)
    requires Reachable(cfg, s) && Free(s, t) && i in s.rows && !s.rows[i].Terminal()
    ensures Reachable(cfg, e)
    ensures e.rows == s.rows[i := WithResult(s.rows[i], Running, "", now)] && e.threads == s.threads[t := Done]
    ensures e == s.(rows := e.rows, threads := e.threads)
  {
    var s1 := Report(s, t, i, Running);
    ReachesWriter(cfg, s, AReportUnchecked(t, i, Running), s1);
    e := WriteReport(s1, t, "", now);
    ReachesWriter(cfg, s1, AWriteReport(t, "", now), e);
    assert e.threads == s.threads[t := Done];
  }

  lemma TwoSubmitted(cfg: Config, r: Row) returns (e: State)
    requires NewRowFor(cfg, COLD, 7, r) && r.trigger.Manual?
    ensures Reachable(cfg, e) && e.rows == map[7 := r, 8 := r]
    ensures e == COLD.(rows := e.rows, managed := e.managed, threads := e.threads) && 3 !in e.threads
  {
    ColdStarts(cfg);
    var s1 := Submits(cfg, COLD, 1, 7, r);
    e := Submits(cfg, s1, 2, 8, r);
  }

  /** The address check is needed: two reports through the /server handler about instances that
      were never dispatched leave a serial job with two active rows and no slot taken. */
  lemma UncheckedReportsEscape(cfg: Config, job: int, r: Row, now: int) returns (e: State)
    requires job in cfg && cfg[job].maxConcurrency <= 1
    requires NewRowFor(cfg, COLD, 7, r) && r.job == job && r.trigger.Manual?
    ensures Reachable(cfg, e) && Inherited(COLD) == {} && e.slots == map[] && e.held == map[]
    ensures ActiveNow(e, Inherited(COLD), job) == {7, 8}
    ensures |ActiveNow(e, Inherited(COLD), job)| == 2 > Limit(cfg[job].maxConcurrency)
  {
    var s2 := TwoSubmitted(cfg, r);
    var s3 := RunningUnchecked(cfg, s2, 3, 7, now);
    e := RunningUnchecked(cfg, s3, 3, 8, now);
    assert e.rows == map[7 := WithResult(r, Running, "", now), 8 := WithResult(r, Running, "", now)];
    assert ActiveNow(e, {}, job) == {7, 8};
  }
}
