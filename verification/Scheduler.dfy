/** The scheduler's sections under slotMu, on the maps the program updates in place. Each
    method is proved to carry out the step of the same name in every protocol state that
    shows the memory it found. */
module Scheduler {
  import opened Counting
  import opened Loads
  import opened Slots
  import opened WorkerReg
  import opened Dispatch

  class Scheduler {
    var slots: SlotCounts
    var held: Held
    const reg: Registry

    constructor (reg: Registry)
      ensures this.reg == reg && slots == map[] && held == map[]
    {
      this.reg := reg;
      slots, held := map[], map[];
    }

    // s is a protocol state whose shared maps are the ones in memory.
    ghost predicate Shows(s: State)
      reads this, reg
    {
      s.slots == slots && s.held == held && s.loads == reg.inflight
    }

    // Slot, binding and worker counter of i have been given back.
    twostate predicate Released(i: int)
      reads this, reg
    {
      held == old(held) - {i} &&
      slots == (if i in old(held) then FreeSlot(old(slots), old(held)[i].job) else old(slots)) &&
      reg.inflight == (if i in old(held) then ReleaseLoad(old(reg.inflight), old(held)[i].Key()) else old(reg.inflight))
    }

    // What a release leaves of i: no binding, one slot of its job less, one load of its worker less.
    twostate lemma ReleasedGivesBack(i: int)
      requires Released(i) && forall j | j in old(slots) :: old(slots)[j] > 0
      requires i in old(held) ==> SlotOf(old(slots), old(held)[i].job) > 0
      ensures i !in held
      ensures forall x | x != i :: (x in held <==> x in old(held)) && (x in held ==> held[x] == old(held)[x])
      ensures forall j :: SlotOf(slots, j) ==
                SlotOf(old(slots), j) - if i in old(held) && j == old(held)[i].job then 1 else 0
      ensures forall k :: Load(reg.inflight, k) ==
                var n := Load(old(reg.inflight), k);
                if i in old(held) && old(held)[i].addr != "" && k == old(held)[i].Key() && n > 0 then n - 1 else n
    {
      if i in old(held) {
        var h := old(held)[i];
        forall j ensures SlotOf(slots, j) == SlotOf(old(slots), j) - if j == h.job then 1 else 0 {
          FreeSubtracts(old(slots), h.job, j);
        }
        forall k ensures Load(reg.inflight, k) ==
                         if k == h.Key() && h.addr != "" && Load(old(reg.inflight), k) > 0
                         then Load(old(reg.inflight), k) - 1 else Load(old(reg.inflight), k) {
          ReleaseSubtracts(old(reg.inflight), h.Key(), k);
        }
      }
    }

    method TryAcquire(job: int, max: int) returns (ok: bool)
      modifies this`slots
      ensures ok <==> SlotOf(old(slots), job) < Limit(max)
      ensures ok <==> job !in old(slots) || old(slots)[job] < if max < 1 then 1 else max
      ensures ok ==> job in slots && slots[job] == SlotOf(old(slots), job) + 1
      ensures forall j | j != job || !ok ::
                (j in slots <==> j in old(slots)) && SlotOf(slots, j) == SlotOf(old(slots), j)
      ensures slots == if ok then TakeSlot(old(slots), job) else old(slots)
      ensures ok ==> forall s, t, trigger | old(Shows(s)) :: Shows(Claim(s, t, job, trigger))
    {
      var limit := if max < 1 then 1 else max;
      var used := if job in slots then slots[job] else 0;
      if used >= limit {
        return false;
      }
      slots := slots[job := used + 1];
      ok := true;
    }

    method ReleaseByJob(job: int)
      modifies this`slots
      ensures slots == FreeSlot(old(slots), job)
      ensures forall s, t | old(Shows(s)) && CanAbandon(s, t) && s.threads[t].job == job :: Shows(Abandon(s, t))
    {
      var used := if job in slots then slots[job] else 0;
      if used <= 1 {
        slots := slots - {job};
      } else {
        slots := slots[job := slots[job] - 1];
      }
    }

    method BindHeld(i: int, app: int, job: int)
      modifies this`held
      ensures held == old(held)[i := HeldSlot(app, job, "")]
      ensures forall s, t | old(Shows(s)) && CanBind(s, t) && s.threads[t].i == i &&
                            s.rows[i].app == app && s.threads[t].job == job :: Shows(Bind(s, t))
    {
      held := held[i := HeldSlot(app, job, "")];
    }

    // The counter moves only together with the entry, so no release can miss it.
    method BindWorkerAddr(i: int, addr: string)
      modifies this`held, reg`inflight
      ensures i !in old(held) ==> held == old(held) && reg.inflight == old(reg.inflight)
      ensures i in old(held) ==>
                held == old(held)[i := old(held)[i].(addr := addr)] &&
                reg.inflight == AcquireLoad(old(reg.inflight), WorkerKey(old(held)[i].app, addr))
      ensures forall s, t | old(Shows(s)) && CanRecord(s, t) && s.threads[t] == Sent(i, addr) :: Shows(Record(s, t))
    {
      if i in held {
        var h := held[i].(addr := addr);
        held := held[i := h];
        if addr != "" {
          reg.AcquireInflight(h.app, addr);
        }
      }
    }

    // The slotMu section of releaseByInstance.
    method DropHeld(i: int) returns (dropped: Option<HeldSlot>)
      modifies this`held, this`slots
      ensures dropped == if i in old(held) then Some(old(held)[i]) else None
      ensures held == old(held) - {i}
      ensures slots == if i in old(held) then FreeSlot(old(slots), old(held)[i].job) else old(slots)
      ensures forall s | old(Shows(s)) :: Shows(ReleaseInstance(s, i))
      ensures forall s | old(Shows(s)) :: ReleaseInstance(s, i).releasing ==
                (if dropped.Some? && dropped.value.addr != ""
                 then s.releasing + multiset{dropped.value.Key()} else s.releasing)
    {
      dropped := None;
      if i in held {
        var h := held[i];
        dropped := Some(h);
        held := held - {i};
        ReleaseByJob(h.job);
      }
      assert i !in old(held) ==> old(held) - {i} == old(held);
    }

    // Both sections run without interference: slot, binding and counter go back together.
    method ReleaseByInstance(i: int)
      modifies this`held, this`slots, reg`inflight
      ensures Released(i)
    {
      var dropped := DropHeld(i);
      if dropped.Some? && dropped.value.addr != "" {
        reg.ReleaseInflight(dropped.value.app, dropped.value.addr);
      }
    }
  }
}
