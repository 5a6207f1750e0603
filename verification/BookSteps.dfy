/** Steps that change the slot maps, the counters, the queue or the timers. */
module BookSteps {
  import opened Counting
  import opened Instances
  import opened Slots
  import opened Dispatch
  import opened Invariants
  import opened MoveSteps

  ghost predicate SameRows(s: State, e: State) {
    e.rows == s.rows && e.prior == s.prior && e.marked == s.marked && e.handedBack == s.handedBack &&
    e.managed == s.managed && e.wins == s.wins && e.retried == s.retried
  }

  // ----- slots, queue and timers: held is untouched -----

  ghost predicate Queues(s: State, e: State, t: int, pc: Pc) {
    SameRows(s, e) && e.held == s.held && e.loads == s.loads && e.releasing == s.releasing &&
    e.swept == s.swept && e.threads == s.threads[t := pc] &&
    !PcOf(s, t).Dispatches() && !PcOf(s, t).Dropping? && !pc.Dispatches() && !pc.Dropping? && !pc.Scheduling? &&
    (forall i | i in e.queue :: i in e.managed && Fresh(e, i)) &&
    (forall i | i in e.timers :: i in e.managed && Fresh(e, i)) &&
    PcRooted(s, pc) && (pc.Waits() ==> Fresh(s, pc.i))
  }

  ghost predicate OwnersKept(s: State, e: State) {
    forall i :: Owners(e, i) <= Owners(s, i) &&
                (i in e.rows && !e.rows[i].Terminal() && i !in e.marked ==> Owners(e, i) == Owners(s, i))
  }

  // Everything such a step must satisfy for the invariant to survive it.
  ghost predicate IsBooking(cfg: Config, s: State, e: State, t: int, pc: Pc) {
    Queues(s, e, t, pc) && SlotsExact(e.slots, e.threads, e.held) && SlotsBounded(cfg, e.slots) && OwnersKept(s, e)
  }

  // What the invariant says of the slots, the queue, the timers and the one thread that steps.
  ghost predicate Booked(cfg: Config, s: State, pc: Pc) {
    SlotsExact(s.slots, s.threads, s.held) && SlotsBounded(cfg, s.slots) && Local(s, pc) &&
    (forall i | i in s.queue :: i in s.managed && Fresh(s, i)) &&
    (forall i | i in s.timers :: i in s.managed && Fresh(s, i)) &&
    (forall i | i in s.managed :: i in s.rows && JobKnown(cfg, s.rows[i]))
  }

  lemma InvBooked(cfg: Config, s: State, t: int)
    requires Inv(cfg, s)
    ensures Booked(cfg, s, PcOf(s, t))
  {
    InvLocal(cfg, s, t);
  }

  lemma QueuesKeeps(cfg: Config, s: State, e: State, t: int, pc: Pc)
    requires Inv(cfg, s) && IsBooking(cfg, s, e, t, pc)
    ensures Inv(cfg, e)
  {
    QueuesStructure(cfg, s, e, t, pc);
    QueuesFlight(s, e, t, pc);
    RetriesStayPaid(s, e, t, pc);
    forall i ensures Owners(e, i) <= 1 {
      assert Owners(s, i) <= 1;
    }
    forall i | i in e.managed && i in e.rows && !e.rows[i].Terminal() && i !in e.marked ensures Owners(e, i) >= 1 {
      assert Owners(s, i) >= 1;
    }
  }

  lemma QueuesStructure(cfg: Config, s: State, e: State, t: int, pc: Pc)
    requires Rooted(cfg, s) && WaitingIsFree(s) && Queues(s, e, t, pc)
    ensures Rooted(cfg, e) && WaitingIsFree(e)
  {
    forall u | u in e.threads ensures PcRooted(e, e.threads[u]) {
      assert u != t ==> PcRooted(s, s.threads[u]);
    }
  }

  lemma QueuesFlight(s: State, e: State, t: int, pc: Pc)
    requires InFlightIsHeld(s) && Draining(s) && QueuedIsExplained(s) && Queues(s, e, t, pc)
    ensures InFlightIsHeld(e) && Draining(e) && QueuedIsExplained(e)
  {
    forall u | u in e.threads && e.threads[u].Dispatches() ensures DispatchHeld(e, e.threads[u]) {
      assert DispatchHeld(s, s.threads[u]);
    }
    forall i | i in e.held && i in e.rows && (e.rows[i].Terminal() || i !in e.marked)
      ensures WillRelease(e.threads, i)
    {
      var u :| u in s.threads && s.threads[u].Releases(i);
      assert e.threads[u].Releases(i);
    }
    forall i | i in e.marked && i in e.rows && e.rows[i].status.Queued? && i !in e.handedBack
      ensures BeingAddressed(e.threads, i)
    {
      var u :| u in s.threads && s.threads[u].Addressed? && s.threads[u].i == i;
      assert e.threads[u].Addressed?;
    }
  }

  // A token appears exactly when a slot is taken, and disappears exactly when one is freed.
  lemma TakeExact(cfg: Config, s: State, t: int, pc: Pc, job: int)
    requires SlotsExact(s.slots, s.threads, s.held) && SlotsBounded(cfg, s.slots)
    requires PcOf(s, t).Token() == None && pc.Token() == Some(job)
    requires job in cfg && SlotOf(s.slots, job) < Limit(cfg[job].maxConcurrency)
    ensures SlotsExact(TakeSlot(s.slots, job), s.threads[t := pc], s.held)
    ensures SlotsBounded(cfg, TakeSlot(s.slots, job))
  {
    ThreadCounts(s.threads, t, pc);
    var e := TakeSlot(s.slots, job);
    forall j ensures SlotOf(e, j) == Count(s.threads[t := pc], HasToken(j)) + Count(s.held, OfJob(j)) {
      assert SlotOf(s.slots, j) == Count(s.threads, HasToken(j)) + Count(s.held, OfJob(j));
      TakeAdds(s.slots, job, j);
    }
  }

  lemma FreeExact(cfg: Config, s: State, t: int, pc: Pc, job: int)
    requires SlotsExact(s.slots, s.threads, s.held) && SlotsBounded(cfg, s.slots)
    requires PcOf(s, t).Token() == Some(job) && pc.Token() == None
    ensures SlotsExact(FreeSlot(s.slots, job), s.threads[t := pc], s.held)
    ensures SlotsBounded(cfg, FreeSlot(s.slots, job))
  {
    ThreadCounts(s.threads, t, pc);
    CountWitness(s.threads, t, HasToken(job));
    assert SlotOf(s.slots, job) == Count(s.threads, HasToken(job)) + Count(s.held, OfJob(job));
    FreeBounded(cfg, s.slots, job);
    var e := FreeSlot(s.slots, job);
    forall j ensures SlotOf(e, j) == Count(s.threads[t := pc], HasToken(j)) + Count(s.held, OfJob(j)) {
      assert SlotOf(s.slots, j) == Count(s.threads, HasToken(j)) + Count(s.held, OfJob(j));
      FreeSubtracts(s.slots, job, j);
    }
  }

  lemma FreeBounded(cfg: Config, slots: SlotCounts, job: int)
    requires SlotsBounded(cfg, slots) && SlotOf(slots, job) >= 1 && forall x | x in slots :: slots[x] > 0
    ensures SlotsBounded(cfg, FreeSlot(slots, job))
    ensures forall x | x in FreeSlot(slots, job) :: FreeSlot(slots, job)[x] > 0
  {
    forall j | j in FreeSlot(slots, job) ensures j in slots && 0 < FreeSlot(slots, job)[j] <= slots[j] {
      FreeSubtracts(slots, job, j);
    }
  }

  lemma SameExact(s: State, t: int, pc: Pc)
    requires SlotsExact(s.slots, s.threads, s.held) && PcOf(s, t).Token() == pc.Token()
    ensures SlotsExact(s.slots, s.threads[t := pc], s.held)
  {
    ThreadCounts(s.threads, t, pc);
    forall j ensures SlotOf(s.slots, j) == Count(s.threads[t := pc], HasToken(j)) + Count(s.held, OfJob(j)) {
      assert SlotOf(s.slots, j) == Count(s.threads, HasToken(j)) + Count(s.held, OfJob(j));
    }
  }

  // Ownership stays, or ends with the instance terminal or in a worker's hands.
  lemma OwnersStay(s: State, e: State, t: int, pc: Pc)
    requires e.threads == s.threads[t := pc] && e.rows == s.rows && e.marked == s.marked
    requires e.queue == s.queue && e.timers == s.timers
    requires pc.Owned() == PcOf(s, t).Owned() ||
             (pc.Owned() == None && PcOf(s, t).Owned().Some? && PcOf(s, t).i in s.rows &&
              (s.rows[PcOf(s, t).i].Terminal() || PcOf(s, t).i in s.marked))
    ensures OwnersKept(s, e)
  {
    ThreadCounts(s.threads, t, pc);
    forall i ensures Owners(e, i) + Bit(PcOf(s, t).Owned() == Some(i)) == Owners(s, i) + Bit(pc.Owned() == Some(i)) {
    }
  }

  // Ownership passes between a thread, the queue and the timers without being copied.
  lemma OwnersMove(s: State, e: State, t: int, pc: Pc)
    requires e.threads == s.threads[t := pc] && e.rows == s.rows
    requires forall i ::
      Bit(pc.Owned() == Some(i)) + e.queue[i] + e.timers[i] ==
      Bit(PcOf(s, t).Owned() == Some(i)) + s.queue[i] + s.timers[i]
    ensures OwnersKept(s, e)
  {
    ThreadCounts(s.threads, t, pc);
    forall i ensures Owners(e, i) == Owners(s, i) {
    }
  }

  lemma ClaimShape(cfg: Config, s: State, t: int, job: int, trigger: Trigger)
    requires Booked(cfg, s, PcOf(s, t)) && CanClaim(cfg, s, t, job, trigger)
    ensures Queues(s, Claim(s, t, job, trigger), t, Claiming(job, trigger))
  {
  }

  lemma ClaimBooks(cfg: Config, s: State, t: int, job: int, trigger: Trigger)
    requires Booked(cfg, s, PcOf(s, t)) && CanClaim(cfg, s, t, job, trigger)
    ensures IsBooking(cfg, s, Claim(s, t, job, trigger), t, Claiming(job, trigger))
  {
    ClaimShape(cfg, s, t, job, trigger);
    TakeExact(cfg, s, t, Claiming(job, trigger), job);
    OwnersStay(s, Claim(s, t, job, trigger), t, Claiming(job, trigger));
  }

  lemma AbandonShape(cfg: Config, s: State, t: int)
    requires Booked(cfg, s, PcOf(s, t)) && CanAbandon(s, t)
    ensures Queues(s, Abandon(s, t), t, Done)
  {
  }

  lemma AbandonBooks(cfg: Config, s: State, t: int)
    requires Booked(cfg, s, PcOf(s, t)) && CanAbandon(s, t)
    ensures IsBooking(cfg, s, Abandon(s, t), t, Done)
  {
    AbandonShape(cfg, s, t);
    FreeExact(cfg, s, t, Done, s.threads[t].job);
    OwnersStay(s, Abandon(s, t), t, Done);
  }

  lemma AcquireBooks(cfg: Config, s: State, t: int)
    requires Booked(cfg, s, PcOf(s, t)) && CanAcquire(cfg, s, t)
    ensures IsBooking(cfg, s, Acquire(s, t), t, Acquire(s, t).threads[t])
  {
    var pc := Acquired(s.threads[t].i, s.rows[s.threads[t].i].job);
    TakeExact(cfg, s, t, pc, pc.job);
    OwnersStay(s, Acquire(s, t), t, pc);
  }

  lemma CheckTerminalShape(cfg: Config, s: State, t: int)
    requires Booked(cfg, s, PcOf(s, t)) && CanCheck(s, t) && s.rows[s.threads[t].i].Terminal()
    ensures Queues(s, Check(s, t), t, Done)
  {
  }

  lemma CheckTerminalBooks(cfg: Config, s: State, t: int)
    requires Booked(cfg, s, PcOf(s, t)) && CanCheck(s, t) && s.rows[s.threads[t].i].Terminal()
    ensures IsBooking(cfg, s, Check(s, t), t, Done)
  {
    CheckTerminalShape(cfg, s, t);
    FreeExact(cfg, s, t, Done, s.threads[t].job);
    OwnersStay(s, Check(s, t), t, Done);
  }

  // Nothing but the owner of one entry changes hands.
  lemma OwnerMoveBooks(cfg: Config, s: State, e: State, t: int, pc: Pc)
    requires SlotsExact(s.slots, s.threads, s.held) && SlotsBounded(cfg, s.slots)
    requires Queues(s, e, t, pc) && e.slots == s.slots && PcOf(s, t).Token() == pc.Token()
    requires forall i ::
      Bit(pc.Owned() == Some(i)) + e.queue[i] + e.timers[i] ==
      Bit(PcOf(s, t).Owned() == Some(i)) + s.queue[i] + s.timers[i]
    ensures IsBooking(cfg, s, e, t, pc)
  {
    SameExact(s, t, pc);
    OwnersMove(s, e, t, pc);
  }

  lemma PushBooks(cfg: Config, s: State, t: int)
    requires Booked(cfg, s, PcOf(s, t)) && CanEnqueue(s, t)
    ensures IsBooking(cfg, s, Push(s, t), t, Done)
  {
    OwnerMoveBooks(cfg, s, Push(s, t), t, Done);
  }

  lemma ArmTimerBooks(cfg: Config, s: State, t: int)
    requires Booked(cfg, s, PcOf(s, t)) && CanEnqueue(s, t)
    ensures IsBooking(cfg, s, ArmTimer(s, t), t, Done)
  {
    OwnerMoveBooks(cfg, s, ArmTimer(s, t), t, Done);
  }

  lemma TimerFiresBooks(cfg: Config, s: State, t: int, i: int)
    requires Booked(cfg, s, PcOf(s, t)) && Free(s, t) && i in s.timers
    ensures IsBooking(cfg, s, TimerFires(s, t, i), t, Done)
  {
    OwnerMoveBooks(cfg, s, TimerFires(s, t, i), t, Done);
  }

  lemma PopBooks(cfg: Config, s: State, t: int, i: int)
    requires Booked(cfg, s, PcOf(s, t)) && Free(s, t) && i in s.queue
    ensures IsBooking(cfg, s, Pop(s, t, i), t, Popped(i))
  {
    OwnerMoveBooks(cfg, s, Pop(s, t, i), t, Popped(i));
  }
}
