/** The global invariant of the dispatch kernel. */
module Invariants {
  import opened Counting
  import opened Loads
  import opened Slots
  import opened Dispatch

  // slots[j] is what running threads hold unbound plus what held binds; no zero entry is kept.
  ghost predicate SlotsExact(slots: SlotCounts, threads: Threads, held: Held) {
    (forall j | j in slots :: slots[j] > 0) &&
    (forall j :: SlotOf(slots, j) == Count(threads, HasToken(j)) + Count(held, OfJob(j)))
  }

  ghost predicate SlotsBounded(cfg: Config, slots: SlotCounts) {
    forall j | j in slots :: j in cfg && slots[j] <= Limit(cfg[j].maxConcurrency)
  }

  ghost predicate OneOwner(s: State) {
    forall i :: Owners(s, i) <= 1
  }

  ghost predicate LoadsExact(loads: Loads, held: Held, releasing: multiset<WorkerKey>, swept: set<WorkerKey>) {
    (forall k | k in releasing :: k.addr != "") &&
    (forall k :: Load(loads, k) <= Count(held, OnWorker(k)) + releasing[k] &&
                 (k !in swept ==> Load(loads, k) == Count(held, OnWorker(k)) + releasing[k]))
  }

  // Every instance mentioned anywhere has a row, and agrees with it on job and app.
  ghost predicate Rooted(cfg: Config, s: State) {
    (forall i | i in s.managed :: i in s.rows && JobKnown(cfg, s.rows[i])) &&
    s.marked <= s.managed && s.prior <= s.rows.Keys &&
    (forall i | i in s.rows :: i in s.managed || i in s.prior) &&
    (forall i | i in s.queue :: i in s.managed) &&
    (forall i | i in s.timers :: i in s.managed) &&
    (forall i | i in s.held ::
       i in s.managed && s.held[i].job == s.rows[i].job && s.held[i].app == s.rows[i].app) &&
    (forall t | t in s.threads :: PcRooted(s, s.threads[t]))
  }

  ghost predicate PcRooted(s: State, pc: Pc) {
    (pc.Owned().Some? ==> pc.i in s.managed) &&
    (pc.Dropping? || pc.Scheduling? || pc.Reporting? ==> pc.i in s.rows) &&
    (pc.Created? || pc.Acquired? || pc.Checked? ==> pc.i in s.rows && pc.job == s.rows[pc.i].job) &&
    (pc.Picked? || pc.Addressed? || pc.Marked? || pc.Sent? ==> pc.addr != "")
  }

  // What waits for a slot is neither bound nor addressed to a worker.
  ghost predicate WaitingIsFree(s: State) {
    (forall t | t in s.threads && s.threads[t].Waits() :: Fresh(s, s.threads[t].i)) &&
    (forall i | i in s.queue :: Fresh(s, i)) &&
    (forall i | i in s.timers :: Fresh(s, i))
  }

  predicate Fresh(s: State, i: int) { i !in s.held && i !in s.marked }

  // An open instance no worker was ever given has an owner: nothing is orphaned.
  ghost predicate NothingOrphaned(s: State) {
    forall i | i in s.managed && i in s.rows && !s.rows[i].Terminal() && i !in s.marked :: Owners(s, i) >= 1
  }

  // Dispatched and open implies bound to a slot; so is every open instance under dispatch.
  ghost predicate InFlightIsHeld(s: State) {
    (forall i | i in s.marked && i in s.rows && !s.rows[i].Terminal() :: i in s.held) &&
    (forall t | t in s.threads && s.threads[t].Dispatches() :: DispatchHeld(s, s.threads[t]))
  }

  ghost predicate DispatchHeld(s: State, pc: Pc)
    requires pc.Dispatches()
  {
    (pc.i in s.rows && !s.rows[pc.i].Terminal() ==> pc.i in s.held) &&
    (pc.i in s.held ==> s.held[pc.i].addr == "") &&
    (pc.Bound? || pc.Picked? || pc.NoWorker? ==> pc.i !in s.marked) &&
    (pc.Addressed? || pc.Marked? || pc.Sent? ==> pc.i in s.marked)
  }

  ghost predicate WillRelease(threads: Threads, i: int) {
    exists t :: t in threads && threads[t].Releases(i)
  }

  // A binding that has lost its reason is about to be dropped by some thread.
  ghost predicate Draining(s: State) {
    (forall t | t in s.threads && s.threads[t].Dropping? && s.threads[t].i in s.rows ::
       s.rows[s.threads[t].i].Terminal()) &&
    (forall i | i in s.held && i in s.rows && (s.rows[i].Terminal() || i !in s.marked) ::
       WillRelease(s.threads, i))
  }

  ghost predicate BeingAddressed(threads: Threads, i: int) {
    exists t :: t in threads && threads[t].Addressed? && threads[t].i == i
  }

  // A dispatched row shows queued only between the two statements or after a hand-back.
  ghost predicate QueuedIsExplained(s: State) {
    forall i | i in s.marked && i in s.rows && s.rows[i].status.Queued? && i !in s.handedBack ::
      BeingAddressed(s.threads, i)
  }

  // At most one guarded write takes an instance terminal.
  ghost predicate OneWinner(s: State) {
    forall i :: s.wins[i] <= 1 && (s.wins[i] == 1 ==> i in s.rows && s.rows[i].Terminal())
  }

  ghost function WillSchedule(i: int): Pc -> bool { (pc: Pc) => pc.Schedules(i) }

  // Every retry scheduled, or still to be scheduled by some thread, has a win of its own.
  ghost predicate RetriesPaid(s: State) {
    forall i :: s.retried[i] + Count(s.threads, WillSchedule(i)) <= s.wins[i]
  }

  ghost predicate Inv(cfg: Config, s: State) {
    SlotsExact(s.slots, s.threads, s.held) && SlotsBounded(cfg, s.slots) && OneOwner(s) &&
    LoadsExact(s.loads, s.held, s.releasing, s.swept) && Rooted(cfg, s) && WaitingIsFree(s) &&
    NothingOrphaned(s) && InFlightIsHeld(s) && Draining(s) && QueuedIsExplained(s) && OneWinner(s) &&
    RetriesPaid(s)
  }

  // ----- how the counts move -----

  lemma ThreadCounts(threads: Threads, t: int, pc: Pc)
    ensures forall i :: Count(threads[t := pc], Owns(i)) + Bit(t in threads && threads[t].Owned() == Some(i))
                        == Count(threads, Owns(i)) + Bit(pc.Owned() == Some(i))
    ensures forall j :: Count(threads[t := pc], HasToken(j)) + Bit(t in threads && threads[t].Token() == Some(j))
                        == Count(threads, HasToken(j)) + Bit(pc.Token() == Some(j))
  {
    forall i { CountPut(threads, t, pc, Owns(i)); }
    forall j { CountPut(threads, t, pc, HasToken(j)); }
  }

  lemma ScheduleCounts(threads: Threads, t: int, pc: Pc)
    ensures forall i :: Count(threads[t := pc], WillSchedule(i)) + Bit(t in threads && threads[t].Schedules(i))
                        == Count(threads, WillSchedule(i)) + Bit(pc.Schedules(i))
  {
    forall i { CountPut(threads, t, pc, WillSchedule(i)); }
  }

  lemma BindCounts(held: Held, i: int, h: HeldSlot)
    ensures forall j :: Count(held[i := h], OfJob(j)) + Bit(i in held && held[i].job == j)
                        == Count(held, OfJob(j)) + Bit(h.job == j)
    ensures forall k :: Count(held[i := h], OnWorker(k)) + Bit(i in held && held[i].addr != "" && held[i].Key() == k)
                        == Count(held, OnWorker(k)) + Bit(h.addr != "" && h.Key() == k)
  {
    forall j { CountPut(held, i, h, OfJob(j)); }
    forall k { CountPut(held, i, h, OnWorker(k)); }
  }

  lemma UnbindCounts(held: Held, i: int)
    requires i in held
    ensures forall j :: Count(held - {i}, OfJob(j)) + Bit(held[i].job == j) == Count(held, OfJob(j))
    ensures forall k :: Count(held - {i}, OnWorker(k)) + Bit(held[i].addr != "" && held[i].Key() == k)
                        == Count(held, OnWorker(k))
  {
    forall j { CountDrop(held, i, OfJob(j)); }
    forall k { CountDrop(held, i, OnWorker(k)); }
  }

  // Two threads never own the same instance, and what a thread owns is in no queue or timer.
  lemma SoleOwner(s: State, t: int)
    requires OneOwner(s) && t in s.threads && s.threads[t].Owned().Some?
    ensures s.queue[s.threads[t].i] == 0 && s.timers[s.threads[t].i] == 0
    ensures forall u | u in s.threads && u != t :: s.threads[u].Owned() != s.threads[t].Owned()
  {
    var i := s.threads[t].i;
    assert Owners(s, i) <= 1;
    CountWitness(s.threads, t, Owns(i));
    forall u | u in s.threads && u != t ensures s.threads[u].Owned() != Some(i) {
      if s.threads[u].Owned() == Some(i) {
        CountTwo(s.threads, t, u, Owns(i));
      }
    }
  }
}
