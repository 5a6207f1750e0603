/** Start-up: RecoverStaleActive, then RecoverQueued, on whatever rows the last process left
    behind. The answers of the two queries are parameters that satisfy their WHERE clauses. */
module Recovery {
  import opened Counting
  import opened Instances
  import opened Ranks
  import opened ManualQueue
  import opened InstanceStore
  import opened RetryChain
  import opened RetryPump
  import Dispatch

  const ACTIVE_LIMIT := 500
  const QUEUED_LIMIT := 5000

  ghost predicate Distinct(list: seq<int>) {
    forall x :: multiset(list)[x] <= 1
  }

  // ListGeneralizedActive with a cut-off.
  predicate Stale(rows: Rows, olderThan: int, i: int) {
    i in rows && rows[i].status.Active() && (rows[i].start.Some? ==> rows[i].start.value < olderThan)
  }

  ghost predicate StaleAnswer(rows: Rows, olderThan: int, list: seq<int>) {
    Distinct(list) && |list| <= ACTIVE_LIMIT && (forall i | i in list :: Stale(rows, olderThan, i)) &&
    (|list| < ACTIVE_LIMIT ==> forall i | Stale(rows, olderThan, i) :: i in list)
  }

  ghost predicate QueuedAnswer(rows: Rows, list: seq<int>) {
    Distinct(list) && |list| <= QUEUED_LIMIT && (forall i | i in list :: i in rows && rows[i].status.Queued?) &&
    (|list| < QUEUED_LIMIT ==> forall i | i in rows && rows[i].status.Queued? :: i in list)
  }

  // A grace that is not configured counts as ten minutes.
  function Grace(grace: int): int { if grace <= 0 then 600_000_000_000 else grace }

  const REASON := "服务重启前未完成"

  // A stale row fails and, if it may, is marked for a retry.
  function FailedOver(limits: Limits, r: Row, wait: int, now: int): Row {
    var f := Reported(r, Failed, REASON, now);
    if MayRetry(limits, r) then f.(nextRetry := Some(now + wait)) else f
  }

  // Every listed row fails over; every other row is as it was.
  ghost predicate AllFailedOver(limits: Limits, rows: Rows, e: Rows, list: seq<int>, wait: int, now: int) {
    e.Keys == rows.Keys &&
    forall i | i in rows :: e[i] == if i in list then FailedOver(limits, rows[i], wait, now) else rows[i]
  }

  // The order RecoverQueued sorts by.
  predicate Sooner(rows: Rows, a: int, b: int) {
    a in rows && b in rows &&
    (rows[a].priority > rows[b].priority || (rows[a].priority == rows[b].priority && rows[a].created < rows[b].created))
  }

  ghost predicate InOrder(rows: Rows, list: seq<int>) {
    forall k, l | 0 <= k < l < |list| :: !Sooner(rows, list[l], list[k])
  }

  // JobStore.Get of the instance's app and job.
  predicate JobExists(jobs: map<int, JobCfg>, r: Row) {
    r.job in jobs && jobs[r.job].app == r.app
  }

  // sort.Slice: any permutation in order would do.
  method SortQueued(rows: Rows, list: seq<int>) returns (sorted: seq<int>)
    requires forall i | i in list :: i in rows
    ensures multiset(sorted) == multiset(list) && InOrder(rows, sorted)
  {
    sorted := [];
    for n := 0 to |list|
      invariant multiset(sorted) == multiset(list[..n]) && InOrder(rows, sorted)
    {
      assert list[..n + 1] == list[..n] + [list[n]];
      InsertPermutes(rows, sorted, list[n]);
      InsertSorts(rows, sorted, list[n]);
      sorted := Insert(rows, sorted, list[n]);
    }
    assert list[..|list|] == list;
  }

  function Insert(rows: Rows, sorted: seq<int>, x: int): seq<int> {
    if sorted == [] || Sooner(rows, x, sorted[0]) then [x] + sorted
    else [sorted[0]] + Insert(rows, sorted[1..], x)
  }

  lemma {:induction false} InsertPermutes(rows: Rows, sorted: seq<int>, x: int)
    ensures multiset(Insert(rows, sorted, x)) == multiset(sorted) + multiset{x}
  {
    if sorted != [] && !Sooner(rows, x, sorted[0]) {
      assert sorted == [sorted[0]] + sorted[1..];
      InsertPermutes(rows, sorted[1..], x);
    }
  }

  lemma {:induction false} InsertSorts(rows: Rows, sorted: seq<int>, x: int)
    requires InOrder(rows, sorted) && x in rows
    ensures InOrder(rows, Insert(rows, sorted, x))
    ensures forall y | y in Insert(rows, sorted, x) :: y == x || y in sorted
  {
    if sorted == [] || Sooner(rows, x, sorted[0]) {
      ConsSorts(rows, x, sorted);
    } else {
      var first, rest := sorted[0], sorted[1..];
      InsertSorts(rows, rest, x);
      ConsSorts(rows, first, Insert(rows, rest, x));
    }
  }

  lemma ConsSorts(rows: Rows, x: int, rest: seq<int>)
    requires InOrder(rows, rest) && forall y | y in rest :: !Sooner(rows, y, x)
    ensures InOrder(rows, [x] + rest)
  {
  }

  lemma DistinctTail(list: seq<int>, n: nat)
    requires Distinct(list) && n < |list|
    ensures list[n] !in list[..n]
  {
    var x := list[n];
    var head, tail := multiset(list[..n]), multiset(list[n + 1..]);
    assert list == list[..n] + [x] + list[n + 1..];
    assert multiset(list) == head + multiset{x} + tail;
    assert multiset(list)[x] == head[x] + 1 + tail[x];
    assert x !in head;
  }

  class Startup {
    const st: InstanceStore
    const pump: RetryPump
    const queue: ManualQueue
    const jobs: map<int, JobCfg>

    constructor (st: InstanceStore, pump: RetryPump, queue: ManualQueue)
      requires pump.st == st
      ensures this.st == st && this.pump == pump && this.queue == queue && jobs == pump.jobs
    {
      this.st, this.pump, this.queue, jobs := st, pump, queue, pump.jobs;
    }

    // Each listed row fails over; every other row is as it was.
    method RecoverStaleActive(list: seq<int>, grace: int, wait: int, now: int)
      requires st.Valid() && pump.st == st && StaleAnswer(st.rows, now - Grace(grace), list)
      modifies st`rows, st`outbox
      ensures st.Valid() && AllFailedOver(LimitsOf(pump.jobs), old(st.rows), st.rows, list, wait, now)
      // the same, spelled out: ten minutes when no grace is configured, and what a listed row becomes
      ensures forall i | i in old(st.rows) && i !in list :: i in st.rows && st.rows[i] == old(st.rows)[i]
      ensures forall i | i in list ::
                i in old(st.rows) && i in st.rows && old(st.rows)[i].status in {WaitingReceive, Running} &&
                (old(st.rows)[i].start.Some? ==>
                   old(st.rows)[i].start.value < now - if grace <= 0 then 600_000_000_000 else grace)
      ensures forall i | i in list ::
                i in old(st.rows) && i in st.rows &&
                var r, e := old(st.rows)[i], st.rows[i];
                e == r.(status := Failed, result := REASON, end := Some(now), nextRetry := e.nextRetry) &&
                e.nextRetry == if r.job in pump.jobs && r.retryIndex < pump.jobs[r.job].retryCount
                               then Some(now + wait) else r.nextRetry
      ensures |list| < 500 ==>
                forall i | i in st.rows && st.rows[i].status in {WaitingReceive, Running} ::
                  st.rows[i].start.Some? &&
                  st.rows[i].start.value >= now - if grace <= 0 then 600_000_000_000 else grace
    {
      ghost var limits := LimitsOf(pump.jobs);
      for n := 0 to |list|
        invariant st.Valid() && AllFailedOver(limits, old(st.rows), st.rows, list[..n], wait, now)
      {
        var i := list[n];
        DistinctTail(list, n);
        assert list[..n + 1] == list[..n] + [i] && Stale(old(st.rows), now - Grace(grace), i);
        FailOver(i, wait, now);
      }
      assert list[..|list|] == list;
    }

    // The body of that loop; a row finished meanwhile is left alone.
    method FailOver(i: int, wait: int, now: int)
      requires st.Valid() && pump.st == st && i in st.rows
      modifies st`rows, st`outbox
      ensures st.Valid()
      ensures st.rows == if old(st.rows)[i].Terminal() then old(st.rows)
                         else old(st.rows)[i := FailedOver(LimitsOf(pump.jobs), old(st.rows)[i], wait, now)]
      ensures !old(st.rows)[i].Terminal() ==>
                var r := old(st.rows)[i];
                var again := r.job in pump.jobs && r.retryIndex < pump.jobs[r.job].retryCount;
                st.rows == old(st.rows)[i := r.(status := Failed, result := REASON, end := Some(now),
                                                nextRetry := if again then Some(now + wait) else r.nextRetry)]
      ensures !old(st.rows)[i].Terminal() ==>
                var r := old(st.rows)[i];
                var heard := r.job in pump.jobs && pump.jobs[r.job].url != "";
                var latest := st.rows[i].(nextRetry := r.nextRetry);
                st.outbox == old(st.outbox) +
                             if heard then [Notice(i, Failed, pump.jobs[r.job].url, latest)] else []
    {
      var ins := st.rows[i];
      var url := if ins.job in pump.jobs then pump.jobs[ins.job].url else "";
      var matched := st.UpdateResultWithCallback(i, Failed, REASON, Builds(Failed, url), now);
      if matched == 0 {
        return;
      }
      pump.ScheduleRetry(i, ins, wait, now);
    }

    method Load(i: int)
      requires queue.Valid() && i in st.rows && (JobExists(jobs, st.rows[i]) ==> i !in queue.Contents())
      modifies queue, queue.repr`pqIdx
      ensures queue.Valid() && fresh(queue.repr - old(queue.repr))
      ensures queue.pqSeq == old(queue.pqSeq) + if JobExists(jobs, st.rows[i]) then 1 else 0
      ensures queue.Contents() == if JobExists(jobs, st.rows[i])
                                  then old(queue.Contents())[i := Rank(st.rows[i].priority, queue.pqSeq)]
                                  else old(queue.Contents())
    {
      var r := st.rows[i];
      if r.job in jobs && jobs[r.job].app == r.app {
        assert i !in queue.Contents();
        queue.PushPending(i, r.job, r.priority);
      }
    }

    // The body of RecoverQueued's loop: an instance without its job is skipped.
    method LoadNext(sorted: seq<int>, n: nat)
      requires queue.Valid() && n < |sorted| && sorted[n] in st.rows && sorted[n] !in sorted[..n]
      requires Loaded(st.rows, jobs, sorted[..n], queue.Contents(), queue.pqSeq)
      modifies queue, queue.repr`pqIdx
      ensures queue.Valid() && fresh(queue.repr - old(queue.repr))
      ensures Loaded(st.rows, jobs, sorted[..n + 1], queue.Contents(), queue.pqSeq)
    {
      LoadMore(st.rows, jobs, sorted, n, queue.Contents(), queue.pqSeq);
      Load(sorted[n]);
    }

    // Every queued instance whose job exists is queued once, in the order of the sort.
    method RecoverQueued(list: seq<int>)
      requires st.Valid() && queue.Valid() && queue.Contents() == map[] && QueuedAnswer(st.rows, list)
      modifies queue, queue.repr`pqIdx
      ensures queue.Valid() && Recovered(st.rows, jobs, list, queue.Contents())
      // the same, spelled out
      ensures forall i :: i in queue.Contents() <==>
                i in list && i in st.rows && st.rows[i].job in jobs && jobs[st.rows[i].job].app == st.rows[i].app
      ensures forall i | i in queue.Contents() :: queue.Contents()[i].priority == st.rows[i].priority
      ensures forall i, j | i in queue.Contents() && j in queue.Contents() &&
                            st.rows[i].priority == st.rows[j].priority && st.rows[i].created < st.rows[j].created ::
                queue.Contents()[i].turn < queue.Contents()[j].turn
    {
      var sorted := SortQueued(st.rows, list);
      SortedDistinct(list, sorted);
      for n := 0 to |sorted|
        invariant queue.Valid() && fresh(queue.repr - old(queue.repr))
        invariant Loaded(st.rows, jobs, sorted[..n], queue.Contents(), queue.pqSeq)
      {
        DistinctTail(sorted, n);
        assert sorted[n] in sorted;
        LoadNext(sorted, n);
      }
      assert sorted[..|sorted|] == sorted;
      LoadedRecovers(st.rows, jobs, list, sorted, queue.Contents(), queue.pqSeq);
    }

    // The order of main.go: fail over first, then queue; both queries read what the crash left.
    method Recover(stale: seq<int>, queued: seq<int>, grace: int, wait: int, now: int)
      requires st.Valid() && pump.st == st && queue.Valid() && queue.Contents() == map[]
      requires StaleAnswer(st.rows, now - Grace(grace), stale) && QueuedAnswer(st.rows, queued)
      modifies st`rows, st`outbox, queue, queue.repr`pqIdx
      ensures st.Valid() && queue.Valid()
      ensures AllFailedOver(LimitsOf(pump.jobs), old(st.rows), st.rows, stale, wait, now)
      ensures QueuedAnswer(st.rows, queued) && Recovered(st.rows, jobs, queued, queue.Contents())
      ensures forall i | i in stale :: i in old(st.rows) && i in st.rows && st.rows[i].status == Failed
      ensures forall i | i in old(st.rows) && i !in stale :: i in st.rows && st.rows[i] == old(st.rows)[i]
      ensures forall i :: i in queue.Contents() <==>
                i in queued && i in st.rows && st.rows[i].job in jobs && jobs[st.rows[i].job].app == st.rows[i].app
    {
      RecoverStaleActive(stale, grace, wait, now);
      SameQueued(LimitsOf(pump.jobs), old(st.rows), st.rows, stale, queued, now - Grace(grace), wait, now);
      RecoverQueued(queued);
    }
  }

  // Queued rows are no business of the first pass.
  lemma SameQueued(
    limits: Limits, rows: Rows, e: Rows, stale: seq<int>, list: seq<int>, olderThan: int, wait: int, now: int)
    requires StaleAnswer(rows, olderThan, stale) && QueuedAnswer(rows, list)
    requires AllFailedOver(limits, rows, e, stale, wait, now)
    ensures QueuedAnswer(e, list)
  {
    StaleAreGone(limits, rows, e, stale, olderThan, wait, now);
  }

  // The prefix of the sorted list has been pushed, each entry after the ones before it.
  ghost predicate Loaded(rows: Rows, jobs: map<int, JobCfg>, done: seq<int>, m: PrioritySet, last: nat) {
    (forall i | i in done :: i in rows) &&
    (forall i :: i in m <==> i in done && JobExists(jobs, rows[i])) &&
    (forall i | i in m :: m[i].priority == rows[i].priority && m[i].turn <= last) &&
    forall k, l | 0 <= k < l < |done| && done[k] in m && done[l] in m :: m[done[k]].turn < m[done[l]].turn
  }

  lemma LoadMore(rows: Rows, jobs: map<int, JobCfg>, sorted: seq<int>, n: nat, m: PrioritySet, last: nat)
    requires n < |sorted| && Loaded(rows, jobs, sorted[..n], m, last) && sorted[n] !in sorted[..n] && sorted[n] in rows
    ensures var i := sorted[n];
            if JobExists(jobs, rows[i])
            then i !in m && Loaded(rows, jobs, sorted[..n + 1], m[i := Rank(rows[i].priority, last + 1)], last + 1)
            else Loaded(rows, jobs, sorted[..n + 1], m, last)
  {
    var before, after := sorted[..n], sorted[..n + 1];
    assert after == before + [sorted[n]];
    forall k | 0 <= k < n ensures after[k] == before[k] && before[k] in before {
    }
  }

  lemma SortedDistinct(list: seq<int>, sorted: seq<int>)
    requires Distinct(list) && multiset(sorted) == multiset(list)
    ensures Distinct(sorted) && forall x :: x in sorted <==> x in list
  {
    forall x ensures x in sorted <==> x in list {
      assert x in multiset(sorted) <==> x in multiset(list);
    }
  }

  /** m holds the listed instances whose job exists, with their stored priority, so that one
      that goes out before another has the higher priority or was created no later. */
  ghost predicate Recovered(rows: Rows, jobs: map<int, JobCfg>, list: seq<int>, m: PrioritySet) {
    (forall i | i in list :: i in rows) &&
    (forall i :: i in m <==> i in list && JobExists(jobs, rows[i])) &&
    (forall i | i in m :: m[i].priority == rows[i].priority) &&
    forall i, j | i in m && j in m && Before(m[i], m[j]) :: !Sooner(rows, j, i)
  }

  lemma LoadedRecovers(rows: Rows, jobs: map<int, JobCfg>, list: seq<int>, sorted: seq<int>, m: PrioritySet, last: nat)
    requires Loaded(rows, jobs, sorted, m, last) && InOrder(rows, sorted)
    requires forall x :: x in sorted <==> x in list
    ensures Recovered(rows, jobs, list, m)
  {
    forall k, l | 0 <= k < l < |sorted| && sorted[k] in m && sorted[l] in m
      ensures !Before(m[sorted[l]], m[sorted[k]])
    {
      assert !Sooner(rows, sorted[l], sorted[k]);
    }
    forall i, j | i in m && j in m && Before(m[i], m[j]) ensures !Sooner(rows, j, i) {
      var k :| 0 <= k < |sorted| && sorted[k] == i;
      var l :| 0 <= l < |sorted| && sorted[l] == j;
      assert k < l;
      assert !Sooner(rows, sorted[l], sorted[k]);
    }
  }

  // Draining the recovered queue yields each instance once, by priority and then by age.
  lemma RecoveredOrder(rows: Rows, jobs: map<int, JobCfg>, list: seq<int>, m: PrioritySet, order: seq<int>)
    requires QueuedAnswer(rows, list) && Recovered(rows, jobs, list, m) && Drains(m, order)
    ensures InOrder(rows, order)
    ensures forall k, l | 0 <= k < l < |order| :: order[k] != order[l]
    ensures |list| < 5000 ==>
              forall i :: i in order <==> i in rows && rows[i].status.Queued? && JobExists(jobs, rows[i])
  {
    DrainsIffSorted(m, order);
    forall k, l | 0 <= k < l < |order| ensures order[k] != order[l] && !Sooner(rows, order[l], order[k]) {
      assert order[k] in m && order[l] in m && Before(m[order[k]], m[order[l]]);
    }
  }

  // No terminal row changes; with the scan below its limit no active row is left older than the grace.
  lemma StaleAreGone(limits: Limits, rows: Rows, e: Rows, list: seq<int>, olderThan: int, wait: int, now: int)
    requires StaleAnswer(rows, olderThan, list) && AllFailedOver(limits, rows, e, list, wait, now)
    ensures forall i | i in rows && rows[i].Terminal() :: e[i] == rows[i]
    ensures forall i | i in rows && e[i] != rows[i] :: Stale(rows, olderThan, i) && e[i].status == Failed
    ensures forall i | i in rows && e[i] != rows[i] && MayRetry(limits, rows[i]) :: e[i].nextRetry == Some(now + wait)
    ensures |list| < ACTIVE_LIMIT ==> forall i :: !Stale(e, olderThan, i)
    ensures forall i | i in rows :: e[i].status.Queued? <==> rows[i].status.Queued?
  {
    forall i | i in list ensures Stale(rows, olderThan, i) {
    }
  }

  // A process that starts from these rows and this queue starts in an initial protocol state.
  lemma StartsLifetime(cfg: Dispatch.Config, jobs: map<int, JobCfg>, rows: Rows, list: seq<int>, m: PrioritySet)
    requires QueuedAnswer(rows, list) && Recovered(rows, jobs, list, m)
    requires forall j | j in jobs :: j in cfg && cfg[j].app == jobs[j].app
    ensures Dispatch.Init(cfg, Dispatch.State(
              rows, map[], map[], map[], multiset{}, multiset(m.Keys), multiset{}, map[],
              rows.Keys, {}, {}, m.Keys, {}, multiset{}, multiset{}))
  {
  }
}
