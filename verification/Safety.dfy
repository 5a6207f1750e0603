/** What holds in every reachable state of the dispatch kernel, under every interleaving. */
module Safety {
  import opened Counting
  import opened Instances
  import opened Loads
  import opened Slots
  import opened Dispatch
  import opened Invariants
  import opened MoveSteps
  import opened BookSteps
  import opened HeldSteps

  // ----- the invariant over one step and over a run -----

  lemma TriggerKeeps(cfg: Config, s: State, a: TriggerAction)
    requires Inv(cfg, s) && TriggerEnabled(cfg, s, a)
    ensures Inv(cfg, ApplyTrigger(cfg, s, a))
  {
    InvBooked(cfg, s, a.t);
    match a
    case AClaim(t, job, trigger) =>
      ClaimBooks(cfg, s, t, job, trigger);
      QueuesKeeps(cfg, s, Claim(s, t, job, trigger), t, Claiming(job, trigger));
    case AAbandon(t) =>
      AbandonBooks(cfg, s, t);
      QueuesKeeps(cfg, s, Abandon(s, t), t, Done);
    case ACreate(t, i, r) =>
      CreationKeeps(cfg, s, Create(s, t, i, r), t, Created(i, r.job), i, r);
    case ASubmit(t, i, r) =>
      CreationKeeps(cfg, s, Submit(s, t, i, r), t, Enqueueing(i), i, r);
  }

  lemma QueueKeeps(cfg: Config, s: State, a: QueueAction)
    requires Inv(cfg, s) && QueueEnabled(cfg, s, a)
    ensures Inv(cfg, ApplyQueue(cfg, s, a))
  {
    InvBooked(cfg, s, a.t);
    match a
    case APush(t) =>
      PushBooks(cfg, s, t);
      QueuesKeeps(cfg, s, Push(s, t), t, Done);
    case AArmTimer(t) =>
      ArmTimerBooks(cfg, s, t);
      QueuesKeeps(cfg, s, ArmTimer(s, t), t, Done);
    case ATimerFires(t, i) =>
      TimerFiresBooks(cfg, s, t, i);
      QueuesKeeps(cfg, s, TimerFires(s, t, i), t, Done);
    case APop(t, i) =>
      PopBooks(cfg, s, t, i);
      QueuesKeeps(cfg, s, Pop(s, t, i), t, Popped(i));
    case AAcquire(t) =>
      AcquireBooks(cfg, s, t);
      QueuesKeeps(cfg, s, Acquire(s, t), t, Acquire(s, t).threads[t]);
    case ARefuse(t) =>
      RefuseIsMove(cfg, s, t);
      MoveKeeps(cfg, s, Refuse(s, t), t, Rechecking(s.threads[t].i));
    case ARecheck(t) =>
      RecheckIsMove(s, t);
      MoveKeeps(cfg, s, Recheck(s, t), t, Recheck(s, t).threads[t]);
    case ACheck(t) => CheckKeeps(cfg, s, t);
  }

  lemma CheckKeeps(cfg: Config, s: State, t: int)
    requires Inv(cfg, s) && CanCheck(s, t)
    ensures Inv(cfg, Check(s, t))
  {
    InvBooked(cfg, s, t);
    if s.rows[s.threads[t].i].Terminal() {
      CheckTerminalBooks(cfg, s, t);
      QueuesKeeps(cfg, s, Check(s, t), t, Done);
    } else {
      CheckLiveIsMove(s, t);
      MoveKeeps(cfg, s, Check(s, t), t, Check(s, t).threads[t]);
    }
  }

  lemma MarkKeeps(cfg: Config, s: State, t: int)
    requires Inv(cfg, s) && CanMark(s, t)
    ensures Inv(cfg, Mark(s, t))
  {
    InvLocal(cfg, s, t);
    MarkIsMove(s, t);
    MoveKeeps(cfg, s, Mark(s, t), t, Mark(s, t).threads[t]);
  }

  lemma AddressKeeps(cfg: Config, s: State, t: int, now: int)
    requires Inv(cfg, s) && CanAddress(s, t)
    ensures Inv(cfg, Address(s, t, now))
  {
    InvLocal(cfg, s, t);
    AddressIsMove(s, t, now);
    MoveKeeps(cfg, s, Address(s, t, now), t, Addressed(s.threads[t].i, s.threads[t].addr));
  }

  lemma RecordKeeps(cfg: Config, s: State, t: int)
    requires Inv(cfg, s) && CanRecord(s, t)
    ensures Inv(cfg, Record(s, t))
  {
    InvHeldBooked(cfg, s, t);
    if s.threads[t].i in s.held {
      RecordRebinds(cfg, s, t);
      RebindKeeps(cfg, s, Record(s, t), t, Done, s.threads[t].i);
    } else {
      RecordNothingIsMove(s, t);
      MoveKeeps(cfg, s, Record(s, t), t, Done);
    }
  }

  lemma YieldKeeps(cfg: Config, s: State, t: int)
    requires Inv(cfg, s) && CanYield(s, t)
    ensures Inv(cfg, Yield(s, t))
  {
    InvHeldBooked(cfg, s, t);
    var i := s.threads[t].i;
    if i in s.held {
      YieldRebinds(cfg, s, t);
      RebindKeeps(cfg, s, Yield(s, t), t, Rechecking(i), i);
    } else {
      YieldNothingIsMove(s, t);
      MoveKeeps(cfg, s, Yield(s, t), t, Rechecking(i));
    }
  }

  lemma DropKeeps(cfg: Config, s: State, t: int)
    requires Inv(cfg, s) && CanDrop(s, t)
    ensures Inv(cfg, Drop(s, t))
  {
    InvHeldBooked(cfg, s, t);
    var i := s.threads[t].i;
    if i in s.held {
      DropRebinds(cfg, s, t);
      RebindKeeps(cfg, s, Drop(s, t), t, AfterDrop(s.threads[t]), i);
    } else {
      DropNothingIsMove(s, t);
      MoveKeeps(cfg, s, Drop(s, t), t, Drop(s, t).threads[t]);
    }
  }

  lemma PickKeeps(cfg: Config, s: State, a: DispatchAction)
    requires Inv(cfg, s) && DispatchEnabled(s, a) && (a.APick? || a.APickNone? || a.APickMismatch?)
    ensures Inv(cfg, ApplyDispatch(s, a))
  {
    InvLocal(cfg, s, a.t);
    var e := ApplyDispatch(s, a);
    match a
    case APick(t, addr) => PickIsMove(s, t, addr); MoveKeeps(cfg, s, e, t, Picked(s.threads[t].i, addr));
    case APickNone(t) => PickNoneIsMove(s, t); MoveKeeps(cfg, s, e, t, NoWorker(s.threads[t].i));
    case APickMismatch(t) => PickNoneIsMove(s, t); MoveKeeps(cfg, s, e, t, Failing(s.threads[t].i));
  }

  lemma DispatchKeeps(cfg: Config, s: State, a: DispatchAction)
    requires Inv(cfg, s) && DispatchEnabled(s, a)
    ensures Inv(cfg, ApplyDispatch(s, a))
  {
    var t := a.t;
    InvHeldBooked(cfg, s, t);
    match a
    case ABind(_) => BindRebinds(cfg, s, t); RebindKeeps(cfg, s, Bind(s, t), t, Bound(s.threads[t].i), s.threads[t].i);
    case APick(_, _) => PickKeeps(cfg, s, a);
    case APickNone(_) => PickKeeps(cfg, s, a);
    case APickMismatch(_) => PickKeeps(cfg, s, a);
    case AAddress(_, now) => AddressKeeps(cfg, s, t, now);
    case AMark(_) => MarkKeeps(cfg, s, t);
    case AMarkTx(_, now) => AddressKeeps(cfg, s, t, now); MarkKeeps(cfg, Address(s, t, now), t);
    case ASendOk(_) => SendIsMove(s, t); MoveKeeps(cfg, s, SendOk(s, t), t, Sent(s.threads[t].i, s.threads[t].addr));
    case ASendFails(_) => SendIsMove(s, t); MoveKeeps(cfg, s, SendFails(s, t), t, Failing(s.threads[t].i));
    case ARecord(_) => RecordKeeps(cfg, s, t);
    case AFail(_, reason, now) =>
      FailIsMove(s, t, reason, now);
      MoveKeeps(cfg, s, Fail(s, t, reason, now), t, Fail(s, t, reason, now).threads[t]);
    case AYield(_) => YieldKeeps(cfg, s, t);
  }

  lemma ReleaseKeeps(cfg: Config, s: State, a: ReleaseAction)
    requires Inv(cfg, s) && ReleaseEnabled(s, a)
    ensures Inv(cfg, ApplyRelease(s, a))
  {
    match a
    case ADrop(t) => DropKeeps(cfg, s, t);
    case ASchedule(t, at) =>
      InvLocal(cfg, s, t);
      ScheduleIsMove(s, t, at);
      MoveKeeps(cfg, s, Schedule(s, t, at), t, Done);
    case ARegistryRelease(k) => RegistryReleaseKeeps(cfg, s, k);
    case ASweep(k) => SweepKeeps(cfg, s, k);
  }

  lemma WriterIsMove(s: State, a: WriterAction)
    requires WriterEnabled(s, a) && Local(s, PcOf(s, a.t))
    ensures IsMove(s, ApplyWriter(s, a), a.t, ApplyWriter(s, a).threads[a.t])
  {
    match a
    case AReport(t, i, _, status) => ReportIsMove(s, t, i, status);
    case AReportUnchecked(t, i, status) => ReportIsMove(s, t, i, status);
    case AWriteReport(t, result, now) => WriteReportIsMove(s, t, result, now);
    case AStop(t, i, status, now) => StopIsMove(s, t, i, status, now);
    case AReap(t, i, status, reason, now) => ReapIsMove(s, t, i, status, reason, now);
    case ATouch(t, i, r) => TouchIsMove(s, t, i, r);
  }

  lemma WriterKeeps(cfg: Config, s: State, a: WriterAction)
    requires Inv(cfg, s) && WriterEnabled(s, a)
    ensures Inv(cfg, ApplyWriter(s, a))
  {
    InvLocal(cfg, s, a.t);
    WriterIsMove(s, a);
    MoveKeeps(cfg, s, ApplyWriter(s, a), a.t, ApplyWriter(s, a).threads[a.t]);
  }

  lemma StepKeeps(cfg: Config, s: State, a: Action)
    requires Inv(cfg, s) && Enabled(cfg, s, a)
    ensures Inv(cfg, Apply(cfg, s, a))
  {
    match a
    case OfTrigger(ta) => TriggerKeeps(cfg, s, ta);
    case OfQueue(qa) => QueueKeeps(cfg, s, qa);
    case OfDispatch(da) => DispatchKeeps(cfg, s, da);
    case OfRelease(ra) => ReleaseKeeps(cfg, s, ra);
    case OfWriter(wa) => WriterKeeps(cfg, s, wa);
  }

  // At the start nothing is counted.
  lemma InitCounts(cfg: Config, s: State)
    requires Init(cfg, s)
    ensures forall i :: Count(s.threads, Owns(i)) == 0
    ensures SlotsExact(s.slots, s.threads, s.held) && LoadsExact(s.loads, s.held, s.releasing, s.swept)
  {
    forall i ensures Count(s.threads, Owns(i)) == 0 { CountZero(s.threads, Owns(i)); }
    forall j ensures Count(s.threads, HasToken(j)) == 0 && Count(s.held, OfJob(j)) == 0 {
      CountZero(s.threads, HasToken(j));
      CountZero(s.held, OfJob(j));
    }
    forall k ensures Count(s.held, OnWorker(k)) == 0 { CountZero(s.held, OnWorker(k)); }
  }

  lemma InitHolds(cfg: Config, s: State)
    requires Init(cfg, s)
    ensures Inv(cfg, s)
  {
    InitCounts(cfg, s);
    forall i ensures s.queue[i] <= 1 && Owners(s, i) == s.queue[i] {
    }
  }

  lemma {:induction false} RunKeeps(cfg: Config, s: State, run: seq<Action>, e: State)
    requires Inv(cfg, s) && Runs(cfg, s, run, e)
    ensures Inv(cfg, e)
    decreases |run|
  {
    if run != [] {
      StepKeeps(cfg, s, run[0]);
      RunKeeps(cfg, Apply(cfg, s, run[0]), run[1..], e);
    }
  }

  lemma ReachableHolds(cfg: Config, s: State)
    requires Reachable(cfg, s)
    ensures Inv(cfg, s)
  {
    var s0, run :| Init(cfg, s0) && Runs(cfg, s0, run, s);
    InitHolds(cfg, s0);
    RunKeeps(cfg, s0, run, s);
  }

  // ----- main results -----

  predicate Open(s: State, i: int) { i in s.rows && !s.rows[i].Terminal() }

  // Instances of job given to a worker in this lifetime and not yet finished.
  ghost function InFlight(s: State, job: int): set<int> {
    set i | i in s.marked && Open(s, i) && s.rows[i].job == job
  }

  // No instance can be dispatched and open without occupying a slot of its own job.
  lemma DispatchedIsHeld(cfg: Config, s: State, i: int)
    requires Reachable(cfg, s) && i in s.marked && Open(s, i)
    ensures i in s.held && s.held[i].job == s.rows[i].job
  {
    ReachableHolds(cfg, s);
  }

  // The concurrency limit: at most max(1, MaxConcurrency) instances of a job in flight.
  lemma ConcurrencyBounded(cfg: Config, s: State, job: int)
    requires Reachable(cfg, s)
    ensures |InFlight(s, job)| <= SlotOf(s.slots, job)
    ensures job in cfg ==> |InFlight(s, job)| <= Limit(cfg[job].maxConcurrency)
    ensures job !in cfg ==> InFlight(s, job) == {}
  {
    ReachableHolds(cfg, s);
    SubsetSize(InFlight(s, job), Hits(s.held, OfJob(job)));
    assert SlotOf(s.slots, job) == Count(s.threads, HasToken(job)) + Count(s.held, OfJob(job));
    if job !in cfg {
      assert |InFlight(s, job)| == 0;
    }
  }

  // An automatic trigger is only claimed while nothing of its job is in flight.
  lemma AutoIsSerial(cfg: Config, s: State, t: int, job: int)
    requires Reachable(cfg, s) && CanClaim(cfg, s, t, job, Auto)
    ensures InFlight(s, job) == {}
  {
    ConcurrencyBounded(cfg, s, job);
  }

  // The slot count is conserved, and its map keeps no empty entry.
  lemma SlotsConserved(cfg: Config, s: State, job: int)
    requires Reachable(cfg, s)
    ensures SlotOf(s.slots, job) == Count(s.threads, HasToken(job)) + Count(s.held, OfJob(job))
    ensures job in s.slots <==> Count(s.threads, HasToken(job)) + Count(s.held, OfJob(job)) > 0
  {
    ReachableHolds(cfg, s);
    assert SlotOf(s.slots, job) == Count(s.threads, HasToken(job)) + Count(s.held, OfJob(job));
  }

  lemma IdleHeld(cfg: Config, s: State)
    requires Rooted(cfg, s) && InFlightIsHeld(s) && Draining(s) && Idle(s)
    ensures s.held.Keys == set i | i in s.marked && Open(s, i)
  {
    var open := set i | i in s.marked && Open(s, i);
    forall i ensures i in s.held <==> i in open {
      assert !WillRelease(s.threads, i);
    }
    assert s.held.Keys == open;
  }

  // With no thread mid-operation, held is exactly what is dispatched and open.
  lemma IdleHeldIsExact(cfg: Config, s: State)
    requires Reachable(cfg, s) && Idle(s)
    ensures s.held.Keys == set i | i in s.marked && Open(s, i)
  {
    ReachableHolds(cfg, s);
    IdleHeld(cfg, s);
  }

  // And then the slots of a job are exactly its instances in flight.
  lemma IdleSlotsAreExact(cfg: Config, s: State, job: int)
    requires Reachable(cfg, s) && Idle(s)
    ensures SlotOf(s.slots, job) == |InFlight(s, job)|
  {
    IdleHeldIsExact(cfg, s);
    SlotsConserved(cfg, s, job);
    CountZero(s.threads, HasToken(job));
    forall i | i in InFlight(s, job) || i in Hits(s.held, OfJob(job))
      ensures i in s.held && s.held[i].job == s.rows[i].job
    {
      assert i in s.held;
      DispatchedIsHeld(cfg, s, i);
    }
    assert Hits(s.held, OfJob(job)) == InFlight(s, job);
  }

  // No slot leaks: once all work is over, both maps and every counter are empty.
  lemma NothingLeaks(cfg: Config, s: State)
    requires Reachable(cfg, s) && Idle(s) && s.releasing == multiset{}
    requires forall i | i in s.marked :: !Open(s, i)
    ensures s.slots == map[] && s.held == map[]
    ensures forall k :: Load(s.loads, k) == 0
  {
    ReachableHolds(cfg, s);
    IdleHeldIsExact(cfg, s);
    assert s.held.Keys == {};
    forall job ensures job !in s.slots {
      IdleSlotsAreExact(cfg, s, job);
      assert InFlight(s, job) == {};
    }
    forall k ensures Load(s.loads, k) == 0 {
      CountZero(s.held, OnWorker(k));
    }
  }

  // A queued instance no worker handed back is owned once: by a thread, a timer or the queue.
  lemma QueuedHasOneOwner(cfg: Config, s: State, i: int)
    requires Reachable(cfg, s) && i in s.managed && i in s.rows && s.rows[i].status.Queued? && i !in s.handedBack
    ensures Owners(s, i) == 1
  {
    ReachableHolds(cfg, s);
    assert Owners(s, i) <= 1;
    if i in s.marked {
      var t :| t in s.threads && s.threads[t].Addressed? && s.threads[t].i == i;
      CountWitness(s.threads, t, Owns(i));
    } else {
      assert Open(s, i);
      assert Owners(s, i) >= 1;
    }
  }

  // Nothing is ever queued twice, armed twice or bound while it is already bound.
  lemma NeverDuplicated(cfg: Config, s: State, i: int)
    requires Reachable(cfg, s)
    ensures Owners(s, i) <= 1
    ensures forall t | CanBind(s, t) && s.threads[t].i == i ::
              i !in s.held && i !in s.marked && s.queue[i] == 0 && s.timers[i] == 0
  {
    ReachableHolds(cfg, s);
    assert Owners(s, i) <= 1;
    forall t | CanBind(s, t) && s.threads[t].i == i
      ensures i !in s.held && i !in s.marked && s.queue[i] == 0 && s.timers[i] == 0
    {
      SoleOwner(s, t);
      assert s.threads[t].Waits() && Fresh(s, s.threads[t].i);
    }
  }

  // Whoever is about to put i on the queue finds no entry of i there: a push never meets a double.
  lemma PushFindsNoEntry(cfg: Config, s: State, i: int)
    requires Reachable(cfg, s)
    requires i in s.timers || exists t :: t in s.threads && s.threads[t] == Enqueueing(i)
    ensures s.queue[i] == 0
  {
    ReachableHolds(cfg, s);
    assert Owners(s, i) <= 1;
    if i !in s.timers {
      var t :| t in s.threads && s.threads[t] == Enqueueing(i);
      SoleOwner(s, t);
    }
  }

  // The load counter of a worker against what is really bound to it.
  lemma LoadIsAccounted(cfg: Config, s: State, k: WorkerKey)
    requires Reachable(cfg, s)
    ensures Load(s.loads, k) <= Count(s.held, OnWorker(k)) + s.releasing[k]
    ensures k !in s.swept ==> Load(s.loads, k) == Count(s.held, OnWorker(k)) + s.releasing[k]
    ensures Count(s.held, OnWorker(k)) == 0 && k !in s.releasing ==> Load(s.loads, k) == 0
  {
    ReachableHolds(cfg, s);
  }

  // ----- terminal statuses -----

  predicate Forces(a: Action) { a.OfWriter? && a.wa.AStop? }

  // i is as terminal in e as in s, with the same status and result unless a force relabelled
  // it, and no further write has won it.
  predicate Absorbs(s: State, e: State, i: int, forced: bool)
    requires i in s.rows
  {
    i in e.rows && e.rows[i].Terminal() && e.wins[i] == s.wins[i] &&
    (!forced ==> e.rows[i].status == s.rows[i].status && e.rows[i].result == s.rows[i].result)
  }

  lemma DispatchAbsorbs(s: State, a: DispatchAction, i: int)
    requires DispatchEnabled(s, a) && i in s.rows && s.rows[i].Terminal()
    ensures Absorbs(s, ApplyDispatch(s, a), i, false)
  {
  }

  lemma WriterAbsorbs(s: State, a: WriterAction, i: int)
    requires WriterEnabled(s, a) && i in s.rows && s.rows[i].Terminal()
    ensures Absorbs(s, ApplyWriter(s, a), i, a.AStop?)
  {
  }

  lemma TriggerAbsorbs(cfg: Config, s: State, a: TriggerAction, i: int)
    requires TriggerEnabled(cfg, s, a) && i in s.rows && s.rows[i].Terminal()
    ensures Absorbs(s, ApplyTrigger(cfg, s, a), i, false)
  {
  }

  ghost predicate SameOutcomes(s: State, e: State) {
    e.rows == s.rows && e.wins == s.wins
  }

  lemma QueueRows(cfg: Config, s: State, a: QueueAction)
    requires QueueEnabled(cfg, s, a)
    ensures SameOutcomes(s, ApplyQueue(cfg, s, a))
  {
    match a
    case APush(t) => assert SameOutcomes(s, Push(s, t));
    case AArmTimer(t) => assert SameOutcomes(s, ArmTimer(s, t));
    case ATimerFires(t, i) => assert SameOutcomes(s, TimerFires(s, t, i));
    case APop(t, i) => assert SameOutcomes(s, Pop(s, t, i));
    case AAcquire(t) => assert SameOutcomes(s, Acquire(s, t));
    case ARefuse(t) => assert SameOutcomes(s, Refuse(s, t));
    case ARecheck(t) => assert SameOutcomes(s, Recheck(s, t));
    case ACheck(t) => assert SameOutcomes(s, Check(s, t));
  }

  lemma ReleaseAbsorbs(s: State, a: ReleaseAction, i: int)
    requires ReleaseEnabled(s, a) && i in s.rows && s.rows[i].Terminal()
    ensures Absorbs(s, ApplyRelease(s, a), i, false)
  {
  }

  // No step reopens a terminal row, and only Stop or Cancel can still relabel it.
  lemma TerminalAbsorbs(cfg: Config, s: State, a: Action, i: int)
    requires Enabled(cfg, s, a) && i in s.rows && s.rows[i].Terminal()
    ensures Absorbs(s, Apply(cfg, s, a), i, Forces(a))
  {
    match a
    case OfTrigger(ta) => TriggerAbsorbs(cfg, s, ta, i);
    case OfQueue(qa) => QueueRows(cfg, s, qa);
    case OfDispatch(da) => DispatchAbsorbs(s, da, i);
    case OfRelease(ra) => ReleaseAbsorbs(s, ra, i);
    case OfWriter(wa) => WriterAbsorbs(s, wa, i);
  }

  lemma {:induction false} TerminalForever(cfg: Config, s: State, run: seq<Action>, e: State, i: int)
    requires Runs(cfg, s, run, e) && i in s.rows && s.rows[i].Terminal()
    ensures Absorbs(s, e, i, exists a :: a in run && Forces(a))
    decreases |run|
  {
    if run != [] {
      TerminalAbsorbs(cfg, s, run[0], i);
      TerminalForever(cfg, Apply(cfg, s, run[0]), run[1..], e, i);
    }
  }

  lemma WinnerFacts(s: State, i: int)
    requires OneWinner(s) && RetriesPaid(s)
    ensures s.retried[i] + Count(s.threads, WillSchedule(i)) <= s.wins[i] <= 1
    ensures (exists t :: t in s.threads && s.threads[t].Schedules(i)) ==> s.wins[i] == 1 && s.retried[i] == 0
    ensures s.wins[i] == 1 ==> i in s.rows && s.rows[i].Terminal()
  {
    assert s.retried[i] + Count(s.threads, WillSchedule(i)) <= s.wins[i];
    if t :| t in s.threads && s.threads[t].Schedules(i) {
      CountWitness(s.threads, t, WillSchedule(i));
    }
  }

  // Over a whole lifetime one guarded write at most finishes an instance. scheduleRetry, which
  // comes later, marks it at most once, and only in a thread whose write it was.
  lemma OneTerminalWinner(cfg: Config, s: State, i: int)
    requires Reachable(cfg, s)
    ensures s.retried[i] + Count(s.threads, WillSchedule(i)) <= s.wins[i] <= 1
    ensures (exists t :: t in s.threads && s.threads[t].Schedules(i)) ==> s.wins[i] == 1 && s.retried[i] == 0
    ensures s.wins[i] == 1 ==> i in s.rows && s.rows[i].Terminal()
  {
    ReachableHolds(cfg, s);
    WinnerFacts(s, i);
  }
}
