/** One round of RunManualDispatcher: pop the next item, ask for a slot of its job, and put the
    item back with its priority read anew when there is none. */
module ManualDispatcher {
  import opened Counting
  import opened Slots
  import opened Ranks
  import opened ManualQueue
  import opened InstanceStore
  import opened Scheduler

  class ManualDispatcher {
    const queue: ManualQueue
    const st: InstanceStore
    const sch: Scheduler
    const limits: map<int, int> // MaxConcurrency of each job

    constructor (queue: ManualQueue, st: InstanceStore, sch: Scheduler, limits: map<int, int>)
      ensures this.queue == queue && this.st == st && this.sch == sch && this.limits == limits
    {
      this.queue, this.st, this.sch, this.limits := queue, st, sch, limits;
    }

    // A refused item is dropped if its row is finished, else goes back with the stored priority.
    method Return(item: ManualItem)
      requires queue.Valid() && item.ins !in queue.index && item.turn <= queue.pqSeq
      requires item !in queue.repr && forall x | x in queue.repr :: x.turn != item.turn
      modifies queue`pq, queue`repr, queue`index, queue.repr`pqIdx, item
      ensures queue.Valid()
      ensures item.ins in st.rows && st.rows[item.ins].status.Terminal() ==> queue.Contents() == old(queue.Contents())
      ensures !(item.ins in st.rows && st.rows[item.ins].status.Terminal()) ==>
                var priority := if item.ins in st.rows then st.rows[item.ins].priority else old(item.priority);
                queue.Contents() == old(queue.Contents())[item.ins := Ranks.Rank(priority, item.turn)]
    {
      var priority := item.priority;
      if item.ins in st.rows {
        if st.rows[item.ins].status.Terminal() {
          return;
        }
        priority := st.rows[item.ins].priority;
      }
      queue.Requeue(item, priority);
    }

    /** The first of the queue leaves it with a slot, leaves it for good because it is finished, or
        stays in place with nothing changed but its priority. */
    method NextRound() returns (popped: Option<ManualItem>, acquired: bool)
      requires queue.Valid() && forall x | x in queue.repr :: x.job in limits
      modifies queue`pq, queue`repr, queue`index, queue.repr, sch`slots
      ensures queue.Valid()
      ensures popped.None? <==> old(queue.Contents()) == map[]
      ensures popped.None? ==> !acquired && queue.Contents() == map[] && sch.slots == old(sch.slots)
      ensures popped.Some? ==>
                First(old(queue.Contents()), popped.value.ins) &&
                sch.slots == if acquired then TakeSlot(old(sch.slots), popped.value.job) else old(sch.slots)
      ensures popped.Some? ==>
                popped.value.ins in old(queue.Contents()) && popped.value.job in limits &&
                (acquired <==> SlotOf(old(sch.slots), popped.value.job) <
                               if limits[popped.value.job] < 1 then 1 else limits[popped.value.job])
      ensures popped.Some? &&
              (acquired || (popped.value.ins in st.rows && st.rows[popped.value.ins].status.Terminal())) ==>
                queue.Contents() == old(queue.Contents()) - {popped.value.ins}
      ensures popped.Some? && !acquired &&
              !(popped.value.ins in st.rows && st.rows[popped.value.ins].status.Terminal()) ==>
                var i := popped.value.ins;
                var r := old(queue.Contents())[i];
                queue.Contents() ==
                old(queue.Contents())[i := Ranks.Rank(if i in st.rows then st.rows[i].priority else r.priority, r.turn)]
    {
      acquired := false;
      popped := queue.PopPending();
      if popped.None? {
        return;
      }
      var item := popped.value;
      acquired := sch.TryAcquire(item.job, limits[item.job]);
      if acquired {
        return;
      }
      Return(item);
      ghost var i := item.ins;
      ghost var r := old(queue.Contents())[i];
      PutBack(old(queue.Contents()), i, Ranks.Rank(if i in st.rows then st.rows[i].priority else r.priority, r.turn));
    }
  }

  lemma PutBack(m: PrioritySet, i: int, r: Rank)
    requires i in m
    ensures (m - {i})[i := r] == m[i := r]
  {
  }
}
