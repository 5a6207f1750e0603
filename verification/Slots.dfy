/** The scheduler's two slot maps: slots counts what a job occupies, held remembers which
    instance occupies a slot and, once sent, on which worker. */
module Slots {
  import opened Loads

  datatype HeldSlot = HeldSlot(app: int, job: int, addr: string)
  {
    function Key(): WorkerKey { WorkerKey(app, addr) }
  }

  type SlotCounts = map<int, nat>
  type Held = map<int, HeldSlot>

  function Limit(max: int): nat { if max < 1 then 1 else max }

  function SlotOf(slots: SlotCounts, job: int): nat {
    if job in slots then slots[job] else 0
  }

  function TakeSlot(slots: SlotCounts, job: int): SlotCounts {
    slots[job := SlotOf(slots, job) + 1]
  }

  function FreeSlot(slots: SlotCounts, job: int): SlotCounts {
    if SlotOf(slots, job) <= 1 then slots - {job} else slots[job := slots[job] - 1]
  }

  lemma TakeAdds(slots: SlotCounts, job: int, j: int)
    ensures SlotOf(TakeSlot(slots, job), j) == SlotOf(slots, j) + if j == job then 1 else 0
  {
  }

  // Freeing is an exact decrement wherever there is something to free; an empty entry is dropped.
  lemma FreeSubtracts(slots: SlotCounts, job: int, j: int)
    requires forall x | x in slots :: slots[x] > 0
    requires SlotOf(slots, job) >= 1
    ensures SlotOf(FreeSlot(slots, job), j) == SlotOf(slots, j) - if j == job then 1 else 0
    ensures j in FreeSlot(slots, job) ==> j in slots && 0 < FreeSlot(slots, job)[j] <= slots[j]
  {
  }
}
