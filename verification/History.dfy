/** What the history fields of the protocol record, read off rows and steps: the theorems of
    Safety.dfy speak of these fields, so their meaning is fixed here, step by step. */
module History {
  import opened Counting
  import opened Instances
  import opened Loads
  import opened Dispatch
  import opened Safety

  // The guarded write of this step, if it is one, took i from an open status to a terminal one.
  predicate Ends(s: State, e: State, a: Action, i: int) {
    i in s.rows && i in e.rows && !s.rows[i].Terminal() && e.rows[i].Terminal() && !Forces(a)
  }

  ghost predicate MarksExactly(s: State, e: State, a: Action) {
    forall i :: i in e.marked <==>
      i in s.marked ||
      (a.OfDispatch? && (a.da.AAddress? || a.da.AMarkTx?) && a.da.t in s.threads && s.threads[a.da.t].Picked? &&
       s.threads[a.da.t].i == i)
  }

  ghost predicate HandsBackExactly(s: State, e: State, a: Action) {
    forall i :: i in e.handedBack <==>
      i in s.handedBack ||
      (a.OfWriter? && a.wa.AWriteReport? && a.wa.t in s.threads && s.threads[a.wa.t] == Reporting(i, Queued) &&
       i in s.rows && !s.rows[i].Terminal())
  }

  ghost predicate RetriesExactly(s: State, e: State, a: Action) {
    forall i :: e.retried[i] == s.retried[i] +
      Bit(a.OfRelease? && a.ra.ASchedule? && a.ra.at.Some? && a.ra.t in s.threads &&
          s.threads[a.ra.t] == Scheduling(i))
  }

  /** Marked are the instances a step addressed to a worker, handed back those reported queued
      while open, managed those created, swept the swept keys; wins counts exactly the writes
      other than stop and cancel that end an instance, retried exactly the retries scheduled. */
  ghost predicate Recorded(s: State, e: State, a: Action) {
    MarksExactly(s, e, a) && HandsBackExactly(s, e, a) && RetriesExactly(s, e, a) && e.prior == s.prior &&
    (forall i :: i in e.managed <==> i in s.managed || (i in e.rows && i !in s.rows)) &&
    (forall k :: k in e.swept <==> k in s.swept || a == OfRelease(ASweep(k))) &&
    forall i :: e.wins[i] == s.wins[i] + Bit(Ends(s, e, a, i))
  }

  // The step touches no history and no row's status.
  ghost predicate Silent(s: State, e: State) {
    e.rows == s.rows && e.marked == s.marked && e.handedBack == s.handedBack && e.managed == s.managed &&
    e.swept == s.swept && e.wins == s.wins && e.retried == s.retried && e.prior == s.prior
  }

  lemma SilentRecords(s: State, e: State, a: Action)
    requires Silent(s, e)
    requires a.OfQueue? || (a.OfDispatch? && !a.da.AAddress? && !a.da.AMarkTx?)
    ensures Recorded(s, e, a)
  {
  }

  lemma QueueIsSilent(cfg: Config, s: State, a: QueueAction)
    requires QueueEnabled(cfg, s, a)
    ensures Silent(s, ApplyQueue(cfg, s, a))
  {
    match a
    case APush(t) => assert Silent(s, Push(s, t));
    case AArmTimer(t) => assert Silent(s, ArmTimer(s, t));
    case ATimerFires(t, i) => assert Silent(s, TimerFires(s, t, i));
    case APop(t, i) => assert Silent(s, Pop(s, t, i));
    case _ => ClaimIsSilent(cfg, s, a);
  }

  lemma ClaimIsSilent(cfg: Config, s: State, a: QueueAction)
    requires QueueEnabled(cfg, s, a) && (a.AAcquire? || a.ARefuse? || a.ARecheck? || a.ACheck?)
    ensures Silent(s, ApplyQueue(cfg, s, a))
  {
    match a
    case AAcquire(t) => assert Silent(s, Acquire(s, t));
    case ARefuse(t) => assert Silent(s, Refuse(s, t));
    case ARecheck(t) => assert Silent(s, Recheck(s, t));
    case ACheck(t) => assert Silent(s, Check(s, t));
  }

  lemma QueueRecords(cfg: Config, s: State, a: QueueAction)
    requires QueueEnabled(cfg, s, a)
    ensures Recorded(s, ApplyQueue(cfg, s, a), OfQueue(a))
  {
    QueueIsSilent(cfg, s, a);
    SilentRecords(s, ApplyQueue(cfg, s, a), OfQueue(a));
  }

  lemma TriggerRecords(cfg: Config, s: State, a: TriggerAction)
    requires TriggerEnabled(cfg, s, a)
    ensures Recorded(s, ApplyTrigger(cfg, s, a), OfTrigger(a))
  {
  }

  lemma SilentDispatch(s: State, a: DispatchAction)
    requires DispatchEnabled(s, a) && !a.AAddress? && !a.AMark? && !a.AMarkTx? && !a.AFail?
    ensures Silent(s, ApplyDispatch(s, a))
  {
  }

  lemma AddressRecords(s: State, t: int, now: int)
    requires CanAddress(s, t)
    ensures Recorded(s, Address(s, t, now), OfDispatch(AAddress(t, now)))
    ensures Recorded(s, MarkTx(s, t, now), OfDispatch(AMarkTx(t, now)))
  {
  }

  lemma MarkRecords(s: State, t: int)
    requires CanMark(s, t)
    ensures Recorded(s, Mark(s, t), OfDispatch(AMark(t)))
  {
  }

  lemma FailRecords(s: State, t: int, reason: string, now: int)
    requires CanFail(s, t)
    ensures Recorded(s, Fail(s, t, reason, now), OfDispatch(AFail(t, reason, now)))
  {
  }

  lemma DispatchRecords(s: State, a: DispatchAction)
    requires DispatchEnabled(s, a)
    ensures Recorded(s, ApplyDispatch(s, a), OfDispatch(a))
  {
    match a
    case AAddress(t, now) => AddressRecords(s, t, now);
    case AMarkTx(t, now) => AddressRecords(s, t, now);
    case AMark(t) => MarkRecords(s, t);
    case AFail(t, reason, now) => FailRecords(s, t, reason, now);
    case _ =>
      SilentDispatch(s, a);
      SilentRecords(s, ApplyDispatch(s, a), OfDispatch(a));
  }

  lemma ScheduleRecords(s: State, t: int, at: Option<int>)
    requires CanSchedule(s, t)
    ensures Recorded(s, Schedule(s, t, at), OfRelease(ASchedule(t, at)))
  {
  }

  lemma DropRecords(s: State, t: int)
    requires CanDrop(s, t)
    ensures Recorded(s, Drop(s, t), OfRelease(ADrop(t)))
  {
  }

  lemma ReleaseRecords(s: State, a: ReleaseAction)
    requires ReleaseEnabled(s, a)
    ensures Recorded(s, ApplyRelease(s, a), OfRelease(a))
  {
    match a
    case ADrop(t) => DropRecords(s, t);
    case ASchedule(t, at) => ScheduleRecords(s, t, at);
    case _ =>
  }

  lemma WriterRecords(s: State, a: WriterAction)
    requires WriterEnabled(s, a)
    ensures Recorded(s, ApplyWriter(s, a), OfWriter(a))
  {
    match a
    case AWriteReport(t, result, now) => ReportRecords(s, t, result, now);
    case AReap(t, i, status, reason, now) => ReapRecords(s, t, i, status, reason, now);
    case _ =>
  }

  lemma ReportRecords(s: State, t: int, result: string, now: int)
    requires CanWriteReport(s, t)
    ensures Recorded(s, WriteReport(s, t, result, now), OfWriter(AWriteReport(t, result, now)))
  {
  }

  lemma ReapRecords(s: State, t: int, i: int, status: Status, reason: string, now: int)
    requires CanReap(s, t, i, status)
    ensures Recorded(s, Reap(s, t, i, status, reason, now), OfWriter(AReap(t, i, status, reason, now)))
  {
  }

  lemma HistoryIsExact(cfg: Config, s: State, a: Action)
    requires Enabled(cfg, s, a)
    ensures Recorded(s, Apply(cfg, s, a), a)
  {
    match a
    case OfTrigger(ta) => TriggerRecords(cfg, s, ta);
    case OfQueue(qa) => QueueRecords(cfg, s, qa);
    case OfDispatch(da) => DispatchRecords(s, da);
    case OfRelease(ra) => ReleaseRecords(s, ra);
    case OfWriter(wa) => WriterRecords(s, wa);
  }

  // t goes on to schedule the retry of i: it releases i, and then marks it.
  ghost predicate GoesOnToRetry(e: State, t: int, i: int) {
    CanDrop(e, t) && i in e.rows && CanSchedule(Drop(e, t), t) &&
    forall at :: Schedule(Drop(e, t), t, Some(at)).rows == e.rows[i := e.rows[i].(nextRetry := Some(at))]
  }

  lemma DropsToRetry(e: State, t: int, i: int, retry: bool)
    requires t in e.threads && e.threads[t] == Dropping(i, retry) && i in e.rows
    ensures GoesOnToRetry(e, t, i) <==> retry
  {
  }

  // Exactly a dispatch failure that ends the instance goes on to schedule its retry,
  lemma FailureGoesOn(s: State, t: int, reason: string, now: int)
    requires CanFail(s, t)
    ensures var e, i := Fail(s, t, reason, now), s.threads[t].i;
            GoesOnToRetry(e, t, i) <==> !s.rows[i].Terminal() && e.rows[i].status == Failed
  {
    DropsToRetry(Fail(s, t, reason, now), t, s.threads[t].i, !s.rows[s.threads[t].i].Terminal());
  }

  // and exactly a reap that does,
  lemma ReapGoesOn(s: State, t: int, i: int, status: Status, reason: string, now: int)
    requires CanReap(s, t, i, status)
    ensures var e := Reap(s, t, i, status, reason, now);
            GoesOnToRetry(e, t, i) <==> !s.rows[i].Terminal() && e.rows[i].status == status
  {
    if !s.rows[i].Terminal() {
      DropsToRetry(Reap(s, t, i, status, reason, now), t, i, true);
    }
  }

  // but no report of a worker.
  lemma ReportGoesOnNowhere(s: State, t: int, result: string, now: int)
    requires CanWriteReport(s, t)
    ensures !GoesOnToRetry(WriteReport(s, t, result, now), t, s.threads[t].i)
  {
    if s.threads[t].status.Terminal() {
      DropsToRetry(WriteReport(s, t, result, now), t, s.threads[t].i, false);
    }
  }
}
