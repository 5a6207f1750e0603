/** The retry pump as the program runs it: loops and branches over the store and the slots.
    RetryChain.dfy lets other threads in between its statements. */
module RetryPump {
  import opened Counting
  import opened Instances
  import opened Slots
  import opened InstanceStore
  import opened Scheduler
  import opened RetryChain

  datatype JobCfg = JobCfg(app: int, maxConcurrency: int, retryCount: int, url: string)

  ghost function LimitsOf(jobs: map<int, JobCfg>): Limits {
    map j | j in jobs :: jobs[j].retryCount
  }

  class RetryPump {
    const st: InstanceStore
    const sch: Scheduler
    const jobs: map<int, JobCfg>

    constructor (st: InstanceStore, sch: Scheduler, jobs: map<int, JobCfg>)
      ensures this.st == st && this.sch == sch && this.jobs == jobs
    {
      this.st, this.sch, this.jobs := st, sch, jobs;
    }

    // ins is the caller's copy of the row; wait is the interval of Backoff.dfy.
    method ScheduleRetry(i: int, ins: Row, wait: int, now: int)
      requires st.Valid()
      modifies st`rows
      ensures st.Valid()
      ensures st.rows == if i in old(st.rows) && MayRetry(LimitsOf(jobs), ins)
                         then Marked(old(st.rows), i, Some(now + wait)) else old(st.rows)
      ensures st.rows == if i in old(st.rows) && ins.job in jobs && ins.retryIndex < jobs[ins.job].retryCount
                         then old(st.rows)[i := old(st.rows)[i].(nextRetry := Some(now + wait))] else old(st.rows)
    {
      if ins.job !in jobs {
        return;
      }
      var retryCount := jobs[ins.job].retryCount;
      if retryCount <= 0 || ins.retryIndex >= retryCount {
        return;
      }
      st.SetNextRetryTime(i, now + wait);
    }

    predicate HasFree(slots: SlotCounts, job: int)
      requires job in jobs
    {
      SlotOf(slots, job) < Limit(jobs[job].maxConcurrency)
    }

    // Skips an existing retry, defers when the job is full, else creates and binds the retry.
    method RetryInstance(i: int, now: int) returns (created: Option<int>)
      requires st.Valid() && i in st.rows && st.rows[i].job in jobs && st.rows[i].root >= 0
      modifies st, sch`slots, sch`held
      ensures st.Valid()
      ensures RowsRetried(old(st.rows), st.rows, i, created, HasFree(old(sch.slots), old(st.rows)[i].job), now)
      ensures HasRetry(old(st.rows), i) ==> created.None? && st.rows == old(st.rows)
      ensures var r := old(st.rows)[i];
              !HasRetry(old(st.rows), i) && SlotOf(old(sch.slots), r.job) >= Limit(jobs[r.job].maxConcurrency) ==>
                created.None? && st.rows == old(st.rows)[i := r.(nextRetry := Some(now + 1_000_000_000))]
      ensures var r := old(st.rows)[i];
              !HasRetry(old(st.rows), i) && SlotOf(old(sch.slots), r.job) < Limit(jobs[r.job].maxConcurrency) ==>
                created.Some? && created.value > 0 && created.value !in old(st.rows) &&
                st.rows == old(st.rows)[created.value :=
                  Row(r.job, r.app, Trigger.Retry, r.priority, Queued, "", "", None, None,
                      r.retryIndex + 1, if r.root == 0 then i else r.root, None, now)]
      ensures created.None? ==> sch.slots == old(sch.slots) && sch.held == old(sch.held)
      ensures created.Some? ==>
                var job := old(st.rows)[i].job;
                sch.slots == TakeSlot(old(sch.slots), job) &&
                sch.held == old(sch.held)[created.value := HeldSlot(jobs[job].app, job, "")]
    {
      var r := st.rows[i];
      var job := jobs[r.job];
      created := None;
      var found := st.ExistsRetryChild(RootOf(i, r), r.retryIndex + 1);
      AskedOfStore(st.rows, i, RootOf(i, r), r.retryIndex + 1);
      if found {
        return;
      }
      var ok := sch.TryAcquire(r.job, job.maxConcurrency);
      if !ok {
        st.SetNextRetryTime(i, now + 1_000_000_000);
        return;
      }
      var id := st.CreateWithCallback(RetryRow(i, r, now), Builds(Queued, job.url));
      sch.BindHeld(id, job.app, r.job);
      created := Some(id);
    }

    // One scan: every listed instance that may retry has a retry, or its job is full and the mark is set again.
    method RetryOnce(due: seq<int>, now: int)
      requires st.Valid() && Chained(LimitsOf(jobs), st.rows)
      requires forall i | i in due :: i in st.rows && st.rows[i].status.Retryable() && st.rows[i].nextRetry.Some?
      requires forall k, l | 0 <= k < l < |due| :: due[k] != due[l]
      modifies st, sch`slots, sch`held
      ensures st.Valid() && Chained(LimitsOf(jobs), st.rows)
      ensures forall i | i in old(st.rows) && i !in due :: i in st.rows && st.rows[i] == old(st.rows)[i]
      ensures forall i | i in due :: Answered(old(st.rows), st.rows, sch.slots, i, now)
    {
      for n := 0 to |due|
        invariant st.Valid() && Chained(LimitsOf(jobs), st.rows) && Scanned(old(st.rows), st.rows, due[..n], now)
      {
        assert due[n] in due && due[n] !in due[..n];
        ghost var mid, slots := st.rows, sch.slots;
        OneDue(due[n], now);
        assert due[..n + 1] == due[..n] + [due[n]];
        ScansOn(old(st.rows), mid, slots, st.rows, due[..n], due[n], now);
      }
      assert due[..|due|] == due;
    }

    // The first entries of the list have been answered, no other row has changed.
    ghost predicate Scanned(rows: Rows, e: Rows, done: seq<int>, now: int)
      reads sch
    {
      (forall i | i in rows && i !in done :: i in e && e[i] == rows[i]) &&
      forall i | i in done :: Answered(rows, e, sch.slots, i, now)
    }

    lemma ScansOn(rows: Rows, mid: Rows, slots: SlotCounts, e: Rows, done: seq<int>, i: int, now: int)
      requires i !in done && i in mid && i in rows && mid[i] == rows[i]
      requires forall x | x in rows && x !in done :: x in mid && mid[x] == rows[x]
      requires forall x | x in done :: Answered(rows, mid, slots, x, now)
      requires forall x | x in mid :: x in e && (x != i ==> e[x] == mid[x])
      requires forall x | x in mid && HasRetry(mid, x) :: x in e && HasRetry(e, x)
      requires forall j :: SlotOf(slots, j) <= SlotOf(sch.slots, j)
      requires Answered(mid, e, sch.slots, i, now)
      ensures Scanned(rows, e, done + [i], now)
    {
      forall x | x in done ensures Answered(rows, e, sch.slots, x, now) {
        StaysAnswered(rows, mid, slots, e, sch.slots, x, now);
      }
    }

    // i's mark is gone because its retry is there or none is left; or it is due in a second, the job being full.
    ghost predicate Answered(rows: Rows, e: Rows, slots: SlotCounts, i: int, now: int) {
      i in rows && i in e && e[i] == rows[i].(nextRetry := e[i].nextRetry) &&
      (e[i].nextRetry.None? ==>
         HasRetry(e, i) || rows[i].job !in jobs || rows[i].retryIndex >= jobs[rows[i].job].retryCount) &&
      (e[i].nextRetry.Some? ==>
         e[i].nextRetry == Some(now + 1_000_000_000) && rows[i].job in jobs &&
         rows[i].retryIndex < jobs[rows[i].job].retryCount && !HasFree(slots, rows[i].job))
    }

    lemma StaysAnswered(rows: Rows, mid: Rows, slots: SlotCounts, e: Rows, taken: SlotCounts, i: int, now: int)
      requires Answered(rows, mid, slots, i, now) && i in e && e[i] == mid[i]
      requires HasRetry(mid, i) ==> HasRetry(e, i)
      requires forall j :: SlotOf(slots, j) <= SlotOf(taken, j)
      ensures Answered(rows, e, taken, i, now)
    {
    }

    // Other rows, retries and taken slots stay.
    twostate predicate Grown(i: int)
      reads st, sch
    {
      (forall x | x in old(st.rows) :: x in st.rows && (x != i ==> st.rows[x] == old(st.rows)[x])) &&
      (forall x | x in old(st.rows) && HasRetry(old(st.rows), x) :: x in st.rows && HasRetry(st.rows, x)) &&
      forall j :: SlotOf(old(sch.slots), j) <= SlotOf(sch.slots, j)
    }

    // The body of that loop: take the mark, check the limit, retry.
    method OneDue(i: int, now: int)
      requires st.Valid() && Chained(LimitsOf(jobs), st.rows) && i in st.rows && st.rows[i].nextRetry.Some?
      modifies st, sch`slots, sch`held
      ensures st.Valid() && Chained(LimitsOf(jobs), st.rows) && Grown(i)
      ensures Answered(old(st.rows), st.rows, sch.slots, i, now)
    {
      ghost var limits := LimitsOf(jobs);
      var ins := st.rows[i];
      var got := st.ClearNextRetryTime(i);
      SameChainsKeep(limits, old(st.rows), st.rows);
      if !got || ins.job !in jobs || ins.retryIndex >= jobs[ins.job].retryCount {
        return;
      }
      assert Follows(limits, st.rows, i);
      RetryDue(i, now);
    }

    // RetryInstance on a row whose mark is taken, in the terms of a scan.
    method RetryDue(i: int, now: int)
      requires st.Valid() && Chained(LimitsOf(jobs), st.rows) && i in st.rows && st.rows[i].root >= 0
      requires st.rows[i].nextRetry.None? && MayRetry(LimitsOf(jobs), st.rows[i])
      modifies st, sch`slots, sch`held
      ensures st.Valid() && Chained(LimitsOf(jobs), st.rows) && Grown(i)
      ensures Answered(old(st.rows), st.rows, sch.slots, i, now)
    {
      ghost var mid, job := st.rows, st.rows[i].job;
      ghost var free := HasFree(sch.slots, job);
      var created := RetryInstance(i, now);
      RowsRetriedKeeps(LimitsOf(jobs), mid, st.rows, i, created, free, now);
      if created.Some? {
        forall j ensures SlotOf(old(sch.slots), j) <= SlotOf(sch.slots, j) {
          TakeAdds(old(sch.slots), job, j);
        }
      }
    }
  }

  // What one call of RetryInstance does to the rows.
  ghost predicate RowsRetried(rows: Rows, e: Rows, i: int, created: Option<int>, free: bool, now: int)
    requires i in rows
  {
    if HasRetry(rows, i) then created.None? && e == rows
    else if !free then created.None? && e == Marked(rows, i, Some(now + 1_000_000_000))
    else
      created.Some? && created.value > 0 && created.value !in rows &&
      e == rows[created.value := RetryRow(i, rows[i], now)]
  }

  lemma RowsRetriedKeeps(limits: Limits, rows: Rows, e: Rows, i: int, created: Option<int>, free: bool, now: int)
    requires Chained(limits, rows) && i in rows && MayRetry(limits, rows[i])
    requires RowsRetried(rows, e, i, created, free, now)
    ensures forall x | x in rows :: x in e && (x != i ==> e[x] == rows[x])
    ensures e[i] == rows[i].(nextRetry := e[i].nextRetry) && (created.Some? ==> HasRetry(e, i))
    ensures Chained(limits, e)
    ensures forall x | x in rows && HasRetry(rows, x) :: x in e && HasRetry(e, x)
  {
    if created.Some? {
      CreateKeeps(limits, rows, i, created.value, now);
      forall x | x in rows && HasRetry(rows, x) ensures HasRetry(e, x) {
        GrowKeepsRetry(rows, created.value, e[created.value], x);
      }
    } else {
      SameChainsKeep(limits, rows, e);
    }
  }
}
