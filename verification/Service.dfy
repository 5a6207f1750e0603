/** internal/dservice/instance.go: the operations on one instance, each run without
    interference. Dispatch.dfy takes the same operations apart into their steps. */
module Service {
  import opened Counting
  import opened Instances
  import opened InstanceStore
  import opened Outbox
  import opened Scheduler
  import opened ManualQueue
  import Ranks

  datatype Outcome = Done | NotFound | NotRetryable | NoJob | NotQueued

  class InstanceService {
    const st: InstanceStore
    const sch: Scheduler
    const queue: ManualQueue
    const callbacks: bool
    const urls: Urls

    constructor (st: InstanceStore, sch: Scheduler, queue: ManualQueue, callbacks: bool, urls: Urls)
      ensures this.st == st && this.sch == sch && this.queue == queue
      ensures this.callbacks == callbacks && this.urls == urls
    {
      this.st, this.sch, this.queue, this.callbacks, this.urls := st, sch, queue, callbacks, urls;
    }

    // The closure for an instance whose row reads as seen.
    function StatusCallback(seen: Row, status: Status): Builder {
      if !callbacks || seen.status.Terminal() || seen.status == status then NoBuilder
      else Builds(status, UrlOf(urls, seen.job))
    }

    // Releases whenever the reported status is terminal, even if the guard refused the write.
    method ReportStatus(i: int, status: Status, result: string, now: int)
      requires st.Valid()
      modifies st`rows, st`outbox, sch`held, sch`slots, sch.reg`inflight
      ensures st.Valid()
      ensures i !in old(st.rows) ==> st.View() == old(st.View())
      ensures i in old(st.rows) && callbacks ==>
                st.View() == Do(urls, old(st.View()), Report(i, status, result, old(st.rows)[i].status), now)
      ensures i in old(st.rows) && !callbacks ==>
                st.View() == UpdateResultDb(old(st.View()), i, status, result, NoBuilder, now)
      ensures if i in old(st.rows) && status.Terminal() then sch.Released(i)
              else sch.held == old(sch.held) && sch.slots == old(sch.slots) && sch.reg.inflight == old(sch.reg.inflight)
      // the same, column by column
      ensures i in old(st.rows) && old(st.rows)[i].status.Terminal() ==> st.View() == old(st.View())
      ensures i in old(st.rows) && !old(st.rows)[i].status.Terminal() ==>
                var r := old(st.rows)[i];
                var heard := callbacks && r.status != status && r.job in urls && urls[r.job] != "";
                st.rows == old(st.rows)[i := r.(status := status, result := if result == "" then r.result else result,
                                                end := if status.Terminal() then Some(now) else r.end,
                                                addr := if status == Queued then "" else r.addr,
                                                start := if status == Queued then None else r.start)] &&
                st.outbox == old(st.outbox) + if heard then [Notice(i, status, urls[r.job], st.rows[i])] else []
    {
      if i !in st.rows {
        return;
      }
      var b := StatusCallback(st.rows[i], status);
      var _ := st.UpdateResultWithCallback(i, status, result, b, now);
      if status.Terminal() {
        sch.ReleaseByInstance(i);
      }
    }

    // Stop and Cancel: no guard, and the slot goes back even when there is no such row.
    method Force(i: int, status: Status, reason: string, now: int)
      requires st.Valid() && (status.Stopped? || status.Canceled?)
      modifies st`rows, st`outbox, sch`held, sch`slots, sch.reg`inflight
      ensures st.Valid() && sch.Released(i)
      ensures i !in old(st.rows) ==> st.View() == old(st.View())
      ensures i in old(st.rows) && callbacks ==>
                st.View() == Do(urls, old(st.View()), Outbox.Force(i, status, reason, old(st.rows)[i].status), now)
      ensures i in old(st.rows) && !callbacks ==>
                st.View() == SetStatusDb(old(st.View()), i, status, reason, NoBuilder, now)
      // the same, column by column
      ensures i in old(st.rows) ==>
                var r := old(st.rows)[i];
                var heard := callbacks && !r.status.Terminal() && r.job in urls && urls[r.job] != "";
                st.rows == old(st.rows)[i := r.(status := status, result := if reason == "" then r.result else reason,
                                                end := Some(now))] &&
                st.outbox == old(st.outbox) + if heard then [Notice(i, status, urls[r.job], st.rows[i])] else []
    {
      var b := if i in st.rows then StatusCallback(st.rows[i], status) else NoBuilder;
      var _ := st.SetStatusWithCallback(i, status, reason, b, now);
      sch.ReleaseByInstance(i);
    }

    // retryCount is None when the job of the instance is gone.
    method Retry(i: int, retryCount: Option<int>, now: int) returns (outcome: Outcome)
      requires st.Valid()
      modifies st`rows
      ensures st.Valid()
      ensures outcome == (if i !in old(st.rows) then NotFound
                          else if !old(st.rows)[i].status.Retryable() then NotRetryable
                          else if retryCount.None? then NoJob
                          else if old(st.rows)[i].retryIndex >= retryCount.value then NotRetryable
                          else Done)
      ensures st.rows == if outcome == Done
                         then old(st.rows)[i := old(st.rows)[i].(nextRetry := Some(now))] else old(st.rows)
    {
      if i !in st.rows {
        return NotFound;
      }
      if !st.rows[i].status.Retryable() {
        return NotRetryable;
      }
      if retryCount.None? {
        return NoJob;
      }
      if retryCount.value <= 0 || st.rows[i].retryIndex >= retryCount.value {
        return NotRetryable;
      }
      st.SetNextRetryTime(i, now);
      outcome := Done;
    }

    // The row first, guarded by its status; then the heap, if the instance is still in it.
    method SetPriority(i: int, priority: int) returns (outcome: Outcome)
      requires st.Valid() && queue.Valid()
      modifies st`rows, queue`pq, queue.repr
      ensures st.Valid() && queue.Valid()
      ensures outcome == (if i !in old(st.rows) then NotFound
                          else if old(st.rows)[i].status.Queued? then Done else NotQueued)
      ensures st.rows == if outcome == Done
                         then old(st.rows)[i := old(st.rows)[i].(priority := priority)] else old(st.rows)
      ensures queue.Contents() ==
              if outcome == Done && i in old(queue.Contents())
              then old(queue.Contents())[i := Ranks.Rank(priority, old(queue.Contents())[i].turn)]
              else old(queue.Contents())
    {
      if i !in st.rows {
        return NotFound;
      }
      if st.rows[i].status != Queued {
        return NotQueued;
      }
      var matched := st.UpdatePriority(i, priority);
      if matched > 0 {
        var _ := queue.UpdateQueuedPriority(i, priority);
      }
      outcome := Done;
    }
  }
}
