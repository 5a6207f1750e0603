/** Dispatching one instance and finishing a reaped one, as the program runs them, each
    without interference. Dispatch.dfy lets other threads in between their statements. */
module Dispatcher {
  import opened Counting
  import opened Instances
  import opened Loads
  import opened Slots
  import opened WorkerReg
  import opened InstanceStore
  import opened Scheduler
  import opened RetryChain
  import opened RetryPump

  datatype Outcome = Sent | Failure | NoWorker

  // A job that has the instance's tag filter and the options the dispatcher reads.
  datatype Target = Target(app: int, job: int, tag: string, url: string)

  const NO_MATCH := "无可用 worker(tag 不匹配或全部离线)"

  class Dispatcher {
    const st: InstanceStore
    const sch: Scheduler
    const pump: RetryPump

    constructor (st: InstanceStore, sch: Scheduler, pump: RetryPump)
      requires pump.st == st && pump.sch == sch
      ensures this.st == st && this.sch == sch && this.pump == pump
    {
      this.st, this.sch, this.pump := st, sch, pump;
    }

    ghost predicate Wired()
      reads this
    {
      pump.st == st && pump.sch == sch
    }

    // The failed row, marked for a retry when this very write failed it and a retry is left.
    ghost function FailedRow(r: Row, reason: string, wait: int, now: int): Row {
      var f := DispatchFailed(r, reason, now);
      if !r.Terminal() && MayRetry(LimitsOf(pump.jobs), r) then f.(nextRetry := Some(now + wait)) else f
    }

    // A row that was marked for addr and then failed, or was terminal before it could be marked.
    ghost function UnsentRow(r: Row, addr: string, failure: Option<string>, wait: int, now: int): Row {
      FailedRow(Dispatched(Addressed(r, addr, now)), if failure.Some? then failure.value else "", wait, now)
    }

    // ins is the dispatcher's copy of the row, taken when it created or queued the instance.
    method FailDispatch(i: int, ins: Row, url: string, reason: string, wait: int, now: int)
      requires Wired() && st.Valid() && i in st.rows
      requires ins.job == st.rows[i].job && ins.retryIndex == st.rows[i].retryIndex
      modifies st`rows, st`outbox, sch`held, sch`slots, sch.reg`inflight
      ensures st.Valid() && sch.Released(i)
      ensures st.rows == old(st.rows)[i := FailedRow(old(st.rows)[i], reason, wait, now)]
      ensures !old(st.rows)[i].Terminal() ==>
                var r := old(st.rows)[i];
                var again := ins.job in pump.jobs && ins.retryIndex < pump.jobs[ins.job].retryCount;
                st.rows == old(st.rows)[i := r.(status := Failed, addr := "", start := None, end := Some(now),
                                                result := if reason == "" then r.result else reason,
                                                nextRetry := if again then Some(now + wait) else r.nextRetry)]
      ensures old(st.rows)[i].Terminal() ==> st.View() == old(st.View())
      ensures !old(st.rows)[i].Terminal() ==>
                var latest := st.rows[i].(nextRetry := old(st.rows)[i].nextRetry);
                st.outbox == old(st.outbox) + if url != "" then [Notice(i, Failed, url, latest)] else []
    {
      var matched := st.FailDispatchWithCallback(i, reason, Builds(Failed, url), now);
      sch.ReleaseByInstance(i);
      if matched > 0 {
        pump.ScheduleRetry(i, ins, wait, now);
      }
      assert old(st.rows)[i := old(st.rows)[i]] == old(st.rows);
    }

    // The second half of dispatchToWorker: mark, send (failure is Send's error), record. A row that
    // is terminal by then is not sent.
    method SendTo(i: int, ins: Row, target: Target, addr: string, failure: Option<string>, wait: int, now: int)
      returns (sent: bool)
      requires Wired() && st.Valid() && i in st.rows && addr != ""
      requires ins.job == st.rows[i].job && ins.retryIndex == st.rows[i].retryIndex
      requires i in sch.held && sch.held[i] == HeldSlot(target.app, target.job, "")
      modifies st`rows, st`outbox, sch`held, sch`slots, sch.reg`inflight
      ensures st.Valid() && (sent <==> failure.None? && !old(st.rows)[i].Terminal())
      ensures sent ==>
                st.rows == old(st.rows)[i := Dispatched(Addressed(old(st.rows)[i], addr, now))] &&
                sch.held == old(sch.held)[i := HeldSlot(target.app, target.job, addr)] && sch.slots == old(sch.slots) &&
                sch.reg.inflight == AcquireLoad(old(sch.reg.inflight), WorkerKey(target.app, addr))
      ensures !sent ==>
                sch.Released(i) &&
                st.rows == old(st.rows)[i := UnsentRow(old(st.rows)[i], addr, failure, wait, now)]
      // the same, column by column
      ensures sent ==>
                var r := old(st.rows)[i];
                st.rows == old(st.rows)[i := r.(addr := addr, start := Some(now), status := WaitingReceive)]
      ensures !sent && !old(st.rows)[i].Terminal() ==>
                var r := old(st.rows)[i];
                var again := ins.job in pump.jobs && ins.retryIndex < pump.jobs[ins.job].retryCount;
                failure.Some? &&
                st.rows == old(st.rows)[i := r.(status := Failed, addr := "", start := None, end := Some(now),
                                                result := if failure.value == "" then r.result else failure.value,
                                                nextRetry := if again then Some(now + wait) else r.nextRetry)]
      ensures old(st.rows)[i].Terminal() ==>
                st.rows == old(st.rows)[i := old(st.rows)[i].(addr := addr, start := Some(now))]
      ensures old(st.rows)[i].Terminal() || target.url == "" ==> st.outbox == old(st.outbox)
      ensures !old(st.rows)[i].Terminal() && target.url != "" ==>
                var r := old(st.rows)[i];
                var latest := st.rows[i].(nextRetry := r.nextRetry);
                var waiting := r.(addr := addr, start := Some(now), status := WaitingReceive);
                st.outbox == old(st.outbox) + [Notice(i, WaitingReceive, target.url, waiting)] +
                             if sent then [] else [Notice(i, Failed, target.url, latest)]
    {
      var matched := st.MarkDispatchedWithCallback(i, addr, Builds(WaitingReceive, target.url), now);
      if matched == 0 {
        sch.ReleaseByInstance(i);
        return false;
      }
      if failure.Some? {
        FailDispatch(i, ins, target.url, failure.value, wait, now);
        return false;
      }
      sch.BindWorkerAddr(i, addr);
      sent := true;
    }

    // NoWorker leaves everything alone; otherwise the addressee is a best match, or there is none.
    method DispatchToWorker(i: int, ins: Row, target: Target, failure: Option<string>, wait: int, now: int)
      returns (outcome: Outcome, addr: string)
      requires Wired() && st.Valid() && Filed(sch.reg.workers) && i in st.rows
      requires ins.job == st.rows[i].job && ins.retryIndex == st.rows[i].retryIndex
      requires i in sch.held && sch.held[i] == HeldSlot(target.app, target.job, "")
      modifies st`rows, st`outbox, sch`held, sch`slots, sch.reg`inflight
      ensures st.Valid()
      ensures outcome.NoWorker? <==> !AnyOnline(sch.reg.workers, sch.reg.timeout, target.app, now)
      ensures addr == "" <==> NoMatch(sch.reg.workers, sch.reg.timeout, target.app, target.tag, now)
      ensures addr != "" ==>
                IsBest(sch.reg.workers, old(sch.reg.inflight), sch.reg.timeout, target.app, target.tag, addr, now)
      ensures addr != "" ==> (outcome.Sent? <==> failure.None? && !old(st.rows)[i].Terminal())
      ensures outcome.NoWorker? ==>
                st.View() == old(st.View()) && sch.held == old(sch.held) && sch.slots == old(sch.slots) &&
                sch.reg.inflight == old(sch.reg.inflight)
      ensures outcome.Sent? ==>
                st.rows == old(st.rows)[i := Dispatched(Addressed(old(st.rows)[i], addr, now))] &&
                sch.held == old(sch.held)[i := HeldSlot(target.app, target.job, addr)] && sch.slots == old(sch.slots) &&
                sch.reg.inflight == AcquireLoad(old(sch.reg.inflight), WorkerKey(target.app, addr))
      ensures outcome.Failure? ==>
                sch.Released(i) &&
                st.rows == old(st.rows)[i := if addr == ""
                                             then FailedRow(old(st.rows)[i], NO_MATCH, wait, now)
                                             else UnsentRow(old(st.rows)[i], addr, failure, wait, now)]
      // the same, spelled out
      ensures outcome.NoWorker? <==>
              target.app in sch.reg.workers ==>
                forall a | a in sch.reg.workers[target.app] ::
                  now - sch.reg.workers[target.app][a].lastHeartbeat > sch.reg.timeout
      ensures addr == "" && target.app in sch.reg.workers ==>
                forall a | a in sch.reg.workers[target.app] ::
                  var w := sch.reg.workers[target.app][a];
                  now - w.lastHeartbeat > sch.reg.timeout ||
                  !(w.acceptNotTagJob || target.tag in w.tags || (target.tag == "" && w.tags == []))
      ensures addr != "" ==>
                target.app in sch.reg.workers && addr in sch.reg.workers[target.app] &&
                var w := sch.reg.workers[target.app][addr];
                now - w.lastHeartbeat <= sch.reg.timeout &&
                (w.acceptNotTagJob || target.tag in w.tags || (target.tag == "" && w.tags == []))
      ensures addr != "" ==>
                forall a | a in sch.reg.workers[target.app] ::
                  var w := sch.reg.workers[target.app][a];
                  now - w.lastHeartbeat <= sch.reg.timeout &&
                  (w.acceptNotTagJob || target.tag in w.tags || (target.tag == "" && w.tags == [])) ==>
                    Load(old(sch.reg.inflight), WorkerKey(target.app, addr)) <=
                    Load(old(sch.reg.inflight), WorkerKey(target.app, a)) &&
                    (Load(old(sch.reg.inflight), WorkerKey(target.app, addr)) ==
                     Load(old(sch.reg.inflight), WorkerKey(target.app, a)) ==>
                       sch.reg.workers[target.app][addr].score >= w.score)
      // and of the row, column by column
      ensures outcome.Sent? ==>
                addr != "" && st.rows == old(st.rows)[i := old(st.rows)[i].(addr := addr, start := Some(now),
                                                                            status := WaitingReceive)]
      ensures outcome.Failure? && !old(st.rows)[i].Terminal() ==>
                var r := old(st.rows)[i];
                var reason := if addr == "" then NO_MATCH else if failure.Some? then failure.value else "";
                var again := ins.job in pump.jobs && ins.retryIndex < pump.jobs[ins.job].retryCount;
                st.rows == old(st.rows)[i := r.(status := Failed, addr := "", start := None, end := Some(now),
                                                result := if reason == "" then r.result else reason,
                                                nextRetry := if again then Some(now + wait) else r.nextRetry)]
      ensures outcome.Failure? && old(st.rows)[i].Terminal() ==>
                st.rows == if addr == "" then old(st.rows)
                           else old(st.rows)[i := old(st.rows)[i].(addr := addr, start := Some(now))]
      ensures old(st.rows)[i].Terminal() ==> st.outbox == old(st.outbox)
    {
      var best := sch.reg.PickFull(target.app, target.tag, now);
      addr := "";
      if best.None? {
        var online := sch.reg.HasOnlineWorker(target.app, now);
        if !online {
          return NoWorker, "";
        }
        FailDispatch(i, ins, target.url, NO_MATCH, wait, now);
        return Failure, "";
      }
      addr := best.value.addr;
      assert OnlineAt(sch.reg.workers, sch.reg.timeout, WorkerKey(target.app, addr), now);
      var sent := SendTo(i, ins, target, addr, failure, wait, now);
      outcome := if sent then Sent else Failure;
    }

    // Only the write that ends the instance releases it and asks for its retry.
    method FinalizeReaped(i: int, ins: Row, status: Status, url: string, reason: string, wait: int, now: int)
      requires Wired() && st.Valid() && i in st.rows && status.Retryable()
      requires ins.job == st.rows[i].job && ins.retryIndex == st.rows[i].retryIndex
      modifies st`rows, st`outbox, sch`held, sch`slots, sch.reg`inflight
      ensures st.Valid()
      ensures old(st.rows)[i].Terminal() ==>
                st.View() == old(st.View()) && sch.held == old(sch.held) && sch.slots == old(sch.slots) &&
                sch.reg.inflight == old(sch.reg.inflight)
      ensures !old(st.rows)[i].Terminal() ==>
                var r := Reported(old(st.rows)[i], status, reason, now);
                sch.Released(i) &&
                var e := if MayRetry(LimitsOf(pump.jobs), r) then r.(nextRetry := Some(now + wait)) else r;
                st.rows == old(st.rows)[i := e]
      ensures !old(st.rows)[i].Terminal() ==>
                var r := old(st.rows)[i];
                var again := ins.job in pump.jobs && ins.retryIndex < pump.jobs[ins.job].retryCount;
                st.rows == old(st.rows)[i := r.(status := status, end := Some(now),
                                                result := if reason == "" then r.result else reason,
                                                nextRetry := if again then Some(now + wait) else r.nextRetry)]
      ensures !old(st.rows)[i].Terminal() ==>
                var latest := st.rows[i].(nextRetry := old(st.rows)[i].nextRetry);
                st.outbox == old(st.outbox) + if url != "" then [Notice(i, status, url, latest)] else []
    {
      var matched := st.UpdateResultWithCallback(i, status, reason, Builds(status, url), now);
      if matched == 0 {
        return;
      }
      sch.ReleaseByInstance(i);
      pump.ScheduleRetry(i, ins, wait, now);
    }
  }

  ghost predicate AnyOnline(ws: Workers, timeout: int, app: int, now: int) {
    exists a :: OnlineAt(ws, timeout, WorkerKey(app, a), now)
  }

  ghost predicate NoMatch(ws: Workers, timeout: int, app: int, tag: string, now: int) {
    forall a | OnlineAt(ws, timeout, WorkerKey(app, a), now) :: !MatchTag(tag, ws[app][a])
  }

  // addr is online, matches the tag, and no online match is better.
  ghost predicate IsBest(ws: Workers, loads: Loads, timeout: int, app: int, tag: string, addr: string, now: int) {
    OnlineAt(ws, timeout, WorkerKey(app, addr), now) && MatchTag(tag, ws[app][addr]) &&
    forall a | OnlineAt(ws, timeout, WorkerKey(app, a), now) && MatchTag(tag, ws[app][a]) ::
      AtLeastAsGood(loads, app, ws[app][addr], ws[app][a])
  }
}
