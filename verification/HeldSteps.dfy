/** Steps that bind, annotate or drop an entry of held, and the registry's own sections. */
module HeldSteps {
  import opened Counting
  import opened Instances
  import opened Loads
  import opened Slots
  import opened Dispatch
  import opened Invariants
  import opened MoveSteps
  import opened BookSteps

  // t moves to pc and only the entry of i changes in held.
  ghost predicate Rebinds(s: State, e: State, t: int, pc: Pc, i: int) {
    var was := PcOf(s, t);
    SameRows(s, e) && e.queue == s.queue && e.timers == s.timers && e.threads == s.threads[t := pc] &&
    e.held - {i} == s.held - {i} && i in s.rows &&
    (i in e.held ==> i in s.managed && e.held[i].job == s.rows[i].job && e.held[i].app == s.rows[i].app) &&
    !was.Addressed? && !pc.Dropping? && (forall x | was.Releases(x) :: x == i) &&
    (i !in e.held ==> s.rows[i].Terminal() || i !in s.marked) &&
    (i in e.held && (s.rows[i].Terminal() || i !in s.marked) ==>
       pc.Releases(i) || (i in s.held && !was.Releases(i))) &&
    (was.Owned() == Some(i) || (i !in e.held && s.rows[i].Terminal())) &&
    PcRooted(s, pc) && (pc.Waits() ==> Fresh(e, pc.i)) && (pc.Dispatches() ==> DispatchHeld(e, pc)) &&
    (forall x | pc.Schedules(x) :: was.Schedules(x))
  }

  ghost predicate IsRebind(cfg: Config, s: State, e: State, t: int, pc: Pc, i: int) {
    Rebinds(s, e, t, pc, i) && SlotsExact(e.slots, e.threads, e.held) && SlotsBounded(cfg, e.slots) &&
    LoadsExact(e.loads, e.held, e.releasing, e.swept) && OwnersKept(s, e)
  }

  lemma RebindStructure(cfg: Config, s: State, e: State, t: int, pc: Pc, i: int)
    requires OneOwner(s) && Rooted(cfg, s) && WaitingIsFree(s) && Rebinds(s, e, t, pc, i)
    ensures Rooted(cfg, e) && WaitingIsFree(e)
  {
    if PcOf(s, t).Owned().Some? {
      SoleOwner(s, t);
    }
    forall u | u in e.threads ensures PcRooted(e, e.threads[u]) {
      assert u != t ==> PcRooted(s, s.threads[u]);
    }
    forall x | x in e.held ensures x in e.managed && e.held[x].job == e.rows[x].job && e.held[x].app == e.rows[x].app {
      assert x != i ==> x in e.held - {i};
    }
    RebindFree(s, e, t, pc, i);
  }

  lemma RebindFree(s: State, e: State, t: int, pc: Pc, i: int)
    requires OneOwner(s) && WaitingIsFree(s) && Rebinds(s, e, t, pc, i)
    ensures WaitingIsFree(e)
  {
    if PcOf(s, t).Owned().Some? {
      SoleOwner(s, t);
    }
    forall x | x != i && Fresh(s, x) ensures Fresh(e, x) {
      assert x in e.held ==> x in e.held - {i};
    }
    forall u | u in e.threads && e.threads[u].Waits() ensures Fresh(e, e.threads[u].i) {
      assert u != t ==> Fresh(s, s.threads[u].i);
    }
    assert forall x | x in e.queue :: Fresh(s, x);
    assert forall x | x in e.timers :: Fresh(s, x);
  }

  lemma RebindFlight(s: State, e: State, t: int, pc: Pc, i: int)
    requires OneOwner(s) && InFlightIsHeld(s) && Rebinds(s, e, t, pc, i)
    ensures InFlightIsHeld(e)
  {
    if PcOf(s, t).Owned().Some? {
      SoleOwner(s, t);
    }
    forall x | x in e.marked && x in e.rows && !e.rows[x].Terminal() ensures x in e.held {
      assert x != i ==> x in s.held - {i};
    }
    forall u | u in e.threads && e.threads[u].Dispatches() ensures DispatchHeld(e, e.threads[u]) {
      if u != t {
        var x := s.threads[u].i;
        assert DispatchHeld(s, s.threads[u]);
        assert x != i ==> (x in e.held <==> x in e.held - {i}) && (x in s.held <==> x in s.held - {i});
        assert x != i && x in e.held ==> e.held[x] == (e.held - {i})[x] == s.held[x];
      }
    }
  }

  lemma RebindDraining(s: State, e: State, t: int, pc: Pc, i: int)
    requires Draining(s) && QueuedIsExplained(s) && Rebinds(s, e, t, pc, i)
    ensures Draining(e) && QueuedIsExplained(e)
  {
    forall x | x in e.held && x in e.rows && (e.rows[x].Terminal() || x !in e.marked)
      ensures WillRelease(e.threads, x)
    {
      if x == i && pc.Releases(i) {
        assert e.threads[t].Releases(i);
      } else {
        assert x != i ==> x in s.held - {i};
        var u :| u in s.threads && s.threads[u].Releases(x);
        assert e.threads[u].Releases(x);
      }
    }
    forall x | x in e.marked && x in e.rows && e.rows[x].status.Queued? && x !in e.handedBack
      ensures BeingAddressed(e.threads, x)
    {
      var u :| u in s.threads && s.threads[u].Addressed? && s.threads[u].i == x;
      assert e.threads[u].Addressed?;
    }
  }

  lemma RebindKeeps(cfg: Config, s: State, e: State, t: int, pc: Pc, i: int)
    requires Inv(cfg, s) && IsRebind(cfg, s, e, t, pc, i)
    ensures Inv(cfg, e)
  {
    RebindStructure(cfg, s, e, t, pc, i);
    RebindFlight(s, e, t, pc, i);
    RebindDraining(s, e, t, pc, i);
    RetriesStayPaid(s, e, t, pc);
    forall x ensures Owners(e, x) <= 1 {
      assert Owners(s, x) <= 1;
    }
    forall x | x in e.managed && x in e.rows && !e.rows[x].Terminal() && x !in e.marked ensures Owners(e, x) >= 1 {
      assert Owners(s, x) >= 1;
    }
  }

  // ----- the slot count under binding and release -----

  lemma BindExact(s: State, t: int, pc: Pc, i: int, h: HeldSlot)
    requires SlotsExact(s.slots, s.threads, s.held)
    requires PcOf(s, t).Token() == Some(h.job) && pc.Token() == None && i !in s.held
    ensures SlotsExact(s.slots, s.threads[t := pc], s.held[i := h])
  {
    ThreadCounts(s.threads, t, pc);
    BindCounts(s.held, i, h);
    forall j ensures SlotOf(s.slots, j) == Count(s.threads[t := pc], HasToken(j)) + Count(s.held[i := h], OfJob(j)) {
      assert SlotOf(s.slots, j) == Count(s.threads, HasToken(j)) + Count(s.held, OfJob(j));
    }
  }

  // A held entry guarantees a slot of its job, so the release's floor is never reached from below.
  lemma ReleaseExact(cfg: Config, s: State, t: int, pc: Pc, i: int)
    requires SlotsExact(s.slots, s.threads, s.held) && SlotsBounded(cfg, s.slots)
    requires PcOf(s, t).Token() == None && pc.Token() == None && i in s.held
    ensures SlotOf(s.slots, s.held[i].job) >= 1
    ensures SlotsExact(FreeSlot(s.slots, s.held[i].job), s.threads[t := pc], s.held - {i})
    ensures SlotsBounded(cfg, FreeSlot(s.slots, s.held[i].job))
  {
    var job := s.held[i].job;
    CountWitness(s.held, i, OfJob(job));
    assert SlotOf(s.slots, job) == Count(s.threads, HasToken(job)) + Count(s.held, OfJob(job));
    ThreadCounts(s.threads, t, pc);
    UnbindCounts(s.held, i);
    FreeBounded(cfg, s.slots, job);
    var e := FreeSlot(s.slots, job);
    forall j ensures SlotOf(e, j) == Count(s.threads[t := pc], HasToken(j)) + Count(s.held - {i}, OfJob(j)) {
      assert SlotOf(s.slots, j) == Count(s.threads, HasToken(j)) + Count(s.held, OfJob(j));
      FreeSubtracts(s.slots, job, j);
    }
  }

  // ----- the load counters under binding and release -----

  lemma RecordLoads(s: State, i: int, h: HeldSlot)
    requires LoadsExact(s.loads, s.held, s.releasing, s.swept)
    requires i in s.held && s.held[i].addr == "" && h.addr != ""
    ensures LoadsExact(AcquireLoad(s.loads, h.Key()), s.held[i := h], s.releasing, s.swept)
  {
    BindCounts(s.held, i, h);
    forall k ensures Load(AcquireLoad(s.loads, h.Key()), k) + Count(s.held, OnWorker(k))
                     == Load(s.loads, k) + Count(s.held[i := h], OnWorker(k)) {
      AcquireAdds(s.loads, h.Key(), k);
    }
  }

  lemma BindLoads(s: State, i: int, h: HeldSlot)
    requires LoadsExact(s.loads, s.held, s.releasing, s.swept) && i !in s.held && h.addr == ""
    ensures LoadsExact(s.loads, s.held[i := h], s.releasing, s.swept)
  {
    BindCounts(s.held, i, h);
  }

  lemma ReleaseLoads(s: State, i: int)
    requires LoadsExact(s.loads, s.held, s.releasing, s.swept) && i in s.held
    ensures LoadsExact(s.loads, s.held - {i}, ReleaseInstance(s, i).releasing, s.swept)
  {
    UnbindCounts(s.held, i);
  }

  // ----- the steps -----

  lemma BindShape(cfg: Config, s: State, t: int)
    requires Local(s, PcOf(s, t)) && CanBind(s, t) && JobKnown(cfg, s.rows[s.threads[t].i])
    ensures Rebinds(s, Bind(s, t), t, Bound(s.threads[t].i), s.threads[t].i)
  {
  }

  lemma BindRebinds(cfg: Config, s: State, t: int)
    requires Booked(cfg, s, PcOf(s, t)) && LoadsExact(s.loads, s.held, s.releasing, s.swept) && CanBind(s, t)
    ensures IsRebind(cfg, s, Bind(s, t), t, Bound(s.threads[t].i), s.threads[t].i)
  {
    var pc := s.threads[t];
    var h := HeldSlot(s.rows[pc.i].app, pc.job, "");
    BindShape(cfg, s, t);
    BindExact(s, t, Bound(pc.i), pc.i, h);
    BindLoads(s, pc.i, h);
    OwnersStay(s, Bind(s, t), t, Bound(pc.i));
  }

  // Held entries agree with their rows, and the load counters are exact.
  ghost predicate HeldBooked(cfg: Config, s: State, pc: Pc) {
    Booked(cfg, s, pc) && LoadsExact(s.loads, s.held, s.releasing, s.swept) &&
    forall i | i in s.held ::
      i in s.managed && s.held[i].job == s.rows[i].job && s.held[i].app == s.rows[i].app
  }

  lemma InvHeldBooked(cfg: Config, s: State, t: int)
    requires Inv(cfg, s)
    ensures HeldBooked(cfg, s, PcOf(s, t))
  {
    InvBooked(cfg, s, t);
  }

  lemma RecordExact(s: State, t: int, i: int, h: HeldSlot)
    requires SlotsExact(s.slots, s.threads, s.held) && PcOf(s, t).Token() == None
    requires i in s.held && h.job == s.held[i].job
    ensures SlotsExact(s.slots, s.threads[t := Done], s.held[i := h])
  {
    ThreadCounts(s.threads, t, Done);
    BindCounts(s.held, i, h);
    forall j ensures SlotOf(s.slots, j) == Count(s.threads[t := Done], HasToken(j)) + Count(s.held[i := h], OfJob(j)) {
      assert SlotOf(s.slots, j) == Count(s.threads, HasToken(j)) + Count(s.held, OfJob(j));
    }
  }

  lemma RecordShape(cfg: Config, s: State, t: int)
    requires HeldBooked(cfg, s, PcOf(s, t)) && CanRecord(s, t) && s.threads[t].i in s.held
    ensures Rebinds(s, Record(s, t), t, Done, s.threads[t].i)
  {
  }

  lemma RecordRebinds(cfg: Config, s: State, t: int)
    requires HeldBooked(cfg, s, PcOf(s, t)) && CanRecord(s, t) && s.threads[t].i in s.held
    ensures IsRebind(cfg, s, Record(s, t), t, Done, s.threads[t].i)
  {
    var pc := s.threads[t];
    var h := s.held[pc.i].(addr := pc.addr);
    RecordShape(cfg, s, t);
    RecordExact(s, t, pc.i, h);
    RecordLoads(s, pc.i, h);
    OwnersStay(s, Record(s, t), t, Done);
  }

  lemma YieldRebinds(cfg: Config, s: State, t: int)
    requires HeldBooked(cfg, s, PcOf(s, t)) && CanYield(s, t) && s.threads[t].i in s.held
    ensures IsRebind(cfg, s, Yield(s, t), t, Rechecking(s.threads[t].i), s.threads[t].i)
  {
    var i := s.threads[t].i;
    ReleaseExact(cfg, s, t, Rechecking(i), i);
    ReleaseLoads(s, i);
    OwnersStay(s, Yield(s, t), t, Rechecking(i));
  }

  function AfterDrop(pc: Pc): Pc
    requires pc.Dropping?
  {
    if pc.retry then Scheduling(pc.i) else Done
  }

  lemma DropShape(s: State, t: int)
    requires Local(s, PcOf(s, t)) && CanDrop(s, t) && s.threads[t].i in s.held && s.threads[t].i in s.rows
    requires s.rows[s.threads[t].i].Terminal()
    ensures Rebinds(s, Drop(s, t), t, AfterDrop(s.threads[t]), s.threads[t].i)
  {
  }

  lemma DropRebinds(cfg: Config, s: State, t: int)
    requires HeldBooked(cfg, s, PcOf(s, t)) && CanDrop(s, t) && s.threads[t].i in s.held
    requires s.rows[s.threads[t].i].Terminal()
    ensures IsRebind(cfg, s, Drop(s, t), t, AfterDrop(s.threads[t]), s.threads[t].i)
  {
    var i := s.threads[t].i;
    DropShape(s, t);
    ReleaseExact(cfg, s, t, AfterDrop(s.threads[t]), i);
    ReleaseLoads(s, i);
    OwnersStay(s, Drop(s, t), t, AfterDrop(s.threads[t]));
  }

  // ----- the registry's sections touch only the counters -----

  lemma RegistryReleaseKeeps(cfg: Config, s: State, k: WorkerKey)
    requires Inv(cfg, s) && k in s.releasing
    ensures Inv(cfg, RegistryRelease(s, k))
  {
    RegistryReleaseLoads(s, k);
    OnlyLoads(cfg, s, RegistryRelease(s, k));
  }

  lemma RegistryReleaseLoads(s: State, k: WorkerKey)
    requires LoadsExact(s.loads, s.held, s.releasing, s.swept) && k in s.releasing
    ensures LoadsExact(ReleaseLoad(s.loads, k), s.held, s.releasing - multiset{k}, s.swept)
  {
    forall x { ReleaseSubtracts(s.loads, k, x); }
  }

  lemma SweepKeeps(cfg: Config, s: State, k: WorkerKey)
    requires Inv(cfg, s)
    ensures Inv(cfg, Sweep(s, k))
  {
    SweepLoads(s, k);
    OnlyLoads(cfg, s, Sweep(s, k));
  }

  lemma SweepLoads(s: State, k: WorkerKey)
    requires LoadsExact(s.loads, s.held, s.releasing, s.swept)
    ensures LoadsExact(DeleteLoad(s.loads, k), s.held, s.releasing, s.swept + {k})
  {
    forall x { DeleteClears(s.loads, k, x); }
  }

  ghost predicate SameButLoads(s: State, e: State) {
    e == s.(loads := e.loads, releasing := e.releasing, swept := e.swept)
  }

  lemma OnlyLoadsStructure(cfg: Config, s: State, e: State)
    requires SameButLoads(s, e) && Rooted(cfg, s) && WaitingIsFree(s) && InFlightIsHeld(s)
    ensures Rooted(cfg, e) && WaitingIsFree(e) && InFlightIsHeld(e)
  {
    forall u | u in e.threads ensures PcRooted(e, e.threads[u]) {
      assert PcRooted(s, s.threads[u]);
    }
    forall u | u in e.threads && e.threads[u].Dispatches() ensures DispatchHeld(e, e.threads[u]) {
      assert DispatchHeld(s, s.threads[u]);
    }
  }

  lemma OnlyLoads(cfg: Config, s: State, e: State)
    requires Inv(cfg, s) && SameButLoads(s, e) && LoadsExact(e.loads, e.held, e.releasing, e.swept)
    ensures Inv(cfg, e)
  {
    OnlyLoadsStructure(cfg, s, e);
    assert forall i :: Owners(e, i) == Owners(s, i);
  }

  // ----- new instances -----

  // t creates row i and becomes its owner; nothing else refers to i yet.
  ghost predicate Creates(cfg: Config, s: State, e: State, t: int, pc: Pc, i: int, r: Row) {
    NewRowFor(cfg, s, i, r) && PcOf(s, t).Owned() == None && PcOf(s, t).Token() == pc.Token() &&
    (PcOf(s, t).Done? || PcOf(s, t).Claiming?) &&
    (pc == Created(i, r.job) || pc == Enqueueing(i)) &&
    e == s.(rows := s.rows[i := r], managed := s.managed + {i}, threads := s.threads[t := pc])
  }

  lemma CreateCounts(cfg: Config, s: State, e: State, t: int, pc: Pc, i: int, r: Row)
    requires OneOwner(s) && NothingOrphaned(s) && Owners(s, i) == 0 && Creates(cfg, s, e, t, pc, i, r)
    ensures OneOwner(e) && NothingOrphaned(e)
  {
    ThreadCounts(s.threads, t, pc);
    forall x ensures Owners(e, x) == Owners(s, x) + Bit(x == i) {
    }
    forall x | x in e.managed && x in e.rows && !e.rows[x].Terminal() && x !in e.marked ensures Owners(e, x) >= 1 {
      assert x != i ==> Owners(s, x) >= 1;
    }
    forall x ensures Owners(e, x) <= 1 {
      assert Owners(s, x) <= 1;
    }
  }

  lemma NobodyOwns(cfg: Config, s: State, i: int)
    requires Rooted(cfg, s) && i !in s.rows
    ensures Owners(s, i) == 0
  {
    forall t | t in s.threads ensures !Owns(i)(s.threads[t]) {
      assert PcRooted(s, s.threads[t]);
    }
    CountZero(s.threads, Owns(i));
    assert i !in s.managed;
  }

  lemma CreateRooted(cfg: Config, s: State, e: State, t: int, pc: Pc, i: int, r: Row)
    requires Rooted(cfg, s) && Creates(cfg, s, e, t, pc, i, r)
    ensures Rooted(cfg, e)
  {
    forall u | u in e.threads ensures PcRooted(e, e.threads[u]) {
      assert u != t ==> PcRooted(s, s.threads[u]);
    }
  }

  lemma CreateFree(cfg: Config, s: State, e: State, t: int, pc: Pc, i: int, r: Row)
    requires Rooted(cfg, s) && WaitingIsFree(s) && Creates(cfg, s, e, t, pc, i, r)
    ensures WaitingIsFree(e)
  {
    assert Fresh(e, i);
    assert forall x :: Fresh(s, x) ==> Fresh(e, x);
  }

  lemma CreateFlight(cfg: Config, s: State, e: State, t: int, pc: Pc, i: int, r: Row)
    requires Rooted(cfg, s) && InFlightIsHeld(s) && Creates(cfg, s, e, t, pc, i, r)
    ensures InFlightIsHeld(e)
  {
    forall u | u in e.threads && e.threads[u].Dispatches() ensures DispatchHeld(e, e.threads[u]) {
      assert PcRooted(s, s.threads[u]) && DispatchHeld(s, s.threads[u]);
    }
  }

  lemma CreateDraining(cfg: Config, s: State, e: State, t: int, pc: Pc, i: int, r: Row)
    requires Rooted(cfg, s) && Draining(s) && QueuedIsExplained(s) && OneWinner(s) && Creates(cfg, s, e, t, pc, i, r)
    ensures Draining(e) && QueuedIsExplained(e) && OneWinner(e)
  {
    forall u | u in e.threads && e.threads[u].Dropping? ensures e.rows[e.threads[u].i].Terminal() {
      assert PcRooted(s, s.threads[u]);
    }
    forall x | x in e.held && x in e.rows && (e.rows[x].Terminal() || x !in e.marked)
      ensures WillRelease(e.threads, x)
    {
      var u :| u in s.threads && s.threads[u].Releases(x);
      assert e.threads[u].Releases(x);
    }
    forall x | x in e.marked && x in e.rows && e.rows[x].status.Queued? && x !in e.handedBack
      ensures BeingAddressed(e.threads, x)
    {
      var u :| u in s.threads && s.threads[u].Addressed? && s.threads[u].i == x;
      assert e.threads[u].Addressed?;
    }
  }

  lemma CreatePaid(cfg: Config, s: State, e: State, t: int, pc: Pc, i: int, r: Row)
    requires RetriesPaid(s) && Creates(cfg, s, e, t, pc, i, r)
    ensures RetriesPaid(e)
  {
    RetriesStayPaid(s, e, t, pc);
  }

  lemma CreationKeeps(cfg: Config, s: State, e: State, t: int, pc: Pc, i: int, r: Row)
    requires Inv(cfg, s) && Creates(cfg, s, e, t, pc, i, r)
    ensures Inv(cfg, e)
  {
    SameExact(s, t, pc);
    CreatePaid(cfg, s, e, t, pc, i, r);
    NobodyOwns(cfg, s, i);
    CreateCounts(cfg, s, e, t, pc, i, r);
    CreateRooted(cfg, s, e, t, pc, i, r);
    CreateFree(cfg, s, e, t, pc, i, r);
    CreateFlight(cfg, s, e, t, pc, i, r);
    CreateDraining(cfg, s, e, t, pc, i, r);
  }
}
