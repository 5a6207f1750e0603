/** Every activity of the dispatch kernel can go on, and ends after a bounded number of its
    own steps, however the other threads interleave. */
module Progress {
  import opened Counting
  import opened Instances
  import opened Loads
  import opened Dispatch
  import opened MoveSteps
  import opened Safety

  // The thread that carries out a step; the registry's own sections have none.
  function Actor(a: Action): Option<int> {
    match a
    case OfTrigger(ta) => Some(ta.t)
    case OfQueue(qa) => Some(qa.t)
    case OfDispatch(da) => Some(da.t)
    case OfRelease(ra) => if ra.ADrop? || ra.ASchedule? then Some(ra.t) else None
    case OfWriter(wa) => Some(wa.t)
  }

  // The steps an activity can still take.
  function Rank(pc: Pc): nat {
    match pc
    case Done => 0
    case Enqueueing(_) => 1
    case Scheduling(_) => 1
    case Sent(_, _) => 1
    case Dropping(_, _) => 2
    case Rechecking(_) => 2
    case Failing(_) => 3
    case Reporting(_, _) => 3
    case NoWorker(_) => 3
    case Marked(_, _) => 4
    case Addressed(_, _) => 5
    case Picked(_, _) => 6
    case Bound(_) => 7
    case Created(_, _) => 8
    case Checked(_, _) => 8
    case Claiming(_, _) => 9
    case Acquired(_, _) => 9
    case Popped(_) => 10
  }

  // What a thread at pc does next when nothing better offers.
  function Default(cfg: Config, s: State, t: int): Action
    requires t in s.threads && !s.threads[t].Done?
  {
    match s.threads[t]
    case Claiming(_, _) => OfTrigger(AAbandon(t))
    case Created(_, _) => OfDispatch(ABind(t))
    case Enqueueing(_) => OfQueue(APush(t))
    case Popped(_) => OfQueue(if CanAcquire(cfg, s, t) then AAcquire(t) else ARefuse(t))
    case Rechecking(_) => OfQueue(ARecheck(t))
    case Acquired(_, _) => OfQueue(ACheck(t))
    case Checked(_, _) => OfDispatch(ABind(t))
    case Bound(_) => OfDispatch(APickNone(t))
    case Picked(_, _) => OfDispatch(AAddress(t, 0))
    case Addressed(_, _) => OfDispatch(AMark(t))
    case Marked(_, _) => OfDispatch(ASendOk(t))
    case Sent(_, _) => OfDispatch(ARecord(t))
    case Failing(_) => OfDispatch(AFail(t, "", 0))
    case NoWorker(_) => OfDispatch(AYield(t))
    case Dropping(_, _) => OfRelease(ADrop(t))
    case Scheduling(_) => OfRelease(ASchedule(t, None))
    case Reporting(_, _) => OfWriter(AWriteReport(t, "", 0))
  }

  // No thread is ever stuck.
  lemma NextStepEnabled(cfg: Config, s: State, t: int)
    requires Reachable(cfg, s) && t in s.threads && !s.threads[t].Done?
    ensures Enabled(cfg, s, Default(cfg, s, t)) && Actor(Default(cfg, s, t)) == Some(t)
  {
    ReachableHolds(cfg, s);
    InvLocal(cfg, s, t);
    LocalStepEnabled(cfg, s, t);
  }

  lemma LocalStepEnabled(cfg: Config, s: State, t: int)
    requires t in s.threads && !s.threads[t].Done? && Local(s, s.threads[t])
    ensures Enabled(cfg, s, Default(cfg, s, t)) && Actor(Default(cfg, s, t)) == Some(t)
  {
  }

  /** Nothing is assumed of the surroundings. A delayed trigger may arm a timer, the registry may
      answer with any worker or none, and sending may fail, whenever a thread has come that far; */
  lemma OutcomesAreFree(cfg: Config, s: State, t: int, addr: string)
    requires t in s.threads && addr != ""
    ensures s.threads[t].Enqueueing? ==> Enabled(cfg, s, OfQueue(AArmTimer(t))) && Enabled(cfg, s, OfQueue(APush(t)))
    ensures s.threads[t].Bound? ==>
              Enabled(cfg, s, OfDispatch(APick(t, addr))) && Enabled(cfg, s, OfDispatch(APickNone(t))) &&
              Enabled(cfg, s, OfDispatch(APickMismatch(t)))
    ensures s.threads[t].Marked? ==>
              Enabled(cfg, s, OfDispatch(ASendOk(t))) && Enabled(cfg, s, OfDispatch(ASendFails(t)))
  {
  }

  // and a timer, the consumer, an administrator, the reaper and a sweep may act at any moment.
  lemma OthersAreFree(cfg: Config, s: State, t: int, i: int, k: WorkerKey, reason: string, now: int)
    requires t !in s.threads || s.threads[t].Done?
    ensures i in s.timers ==> Enabled(cfg, s, OfQueue(ATimerFires(t, i)))
    ensures i in s.queue ==> Enabled(cfg, s, OfQueue(APop(t, i)))
    ensures i in s.rows ==> Enabled(cfg, s, OfWriter(AStop(t, i, Stopped, now)))
    ensures i in s.rows ==> Enabled(cfg, s, OfWriter(AStop(t, i, Canceled, now)))
    ensures i in s.rows ==> Enabled(cfg, s, OfWriter(AReap(t, i, Failed, reason, now)))
    ensures i in s.rows ==> Enabled(cfg, s, OfWriter(AReap(t, i, Timeout, reason, now)))
    ensures i in s.rows ==> forall status :: Enabled(cfg, s, OfWriter(AReportUnchecked(t, i, status)))
    ensures i in s.rows && s.rows[i].addr != "" ==>
              forall status :: Enabled(cfg, s, OfWriter(AReport(t, i, s.rows[i].addr, status)))
    ensures Enabled(cfg, s, OfRelease(ASweep(k)))
    ensures k in s.releasing ==> Enabled(cfg, s, OfRelease(ARegistryRelease(k)))
  {
  }

  // t moves, nobody else does, and an activity of t comes closer to its end.
  ghost predicate Advances(s: State, e: State, t: int) {
    t in e.threads && e.threads == s.threads[t := e.threads[t]] &&
    (!PcOf(s, t).Done? ==> Rank(e.threads[t]) < Rank(PcOf(s, t)))
  }

  lemma MoveAdvances(s: State, e: State, t: int, pc: Pc)
    requires e.threads == s.threads[t := pc] && (!PcOf(s, t).Done? ==> Rank(pc) < Rank(PcOf(s, t)))
    ensures Advances(s, e, t)
  {
  }

  lemma EarlyAdvances(s: State, a: DispatchAction)
    requires DispatchEnabled(s, a) && (a.ABind? || a.AAddress? || a.AMark? || a.AMarkTx?)
    ensures Advances(s, ApplyDispatch(s, a), a.t)
  {
  }

  lemma LateAdvances(s: State, a: DispatchAction)
    requires DispatchEnabled(s, a) && !a.ABind? && !a.AAddress? && !a.AMark? && !a.AMarkTx?
    ensures Advances(s, ApplyDispatch(s, a), a.t)
  {
    var i := s.threads[a.t].i;
    match a
    case APick(t, addr) => MoveAdvances(s, Pick(s, t, addr), t, Picked(i, addr));
    case APickNone(t) => MoveAdvances(s, PickNone(s, t), t, NoWorker(i));
    case APickMismatch(t) => MoveAdvances(s, PickMismatch(s, t), t, Failing(i));
    case _ => LastAdvances(s, a);
  }

  lemma LastAdvances(s: State, a: DispatchAction)
    requires DispatchEnabled(s, a) && (a.ASendOk? || a.ASendFails? || a.ARecord? || a.AFail? || a.AYield?)
    ensures Advances(s, ApplyDispatch(s, a), a.t)
  {
    var pc := s.threads[a.t];
    match a
    case ASendOk(t) => MoveAdvances(s, SendOk(s, t), t, Sent(pc.i, pc.addr));
    case ASendFails(t) => MoveAdvances(s, SendFails(s, t), t, Failing(pc.i));
    case ARecord(t) => RecordAdvances(s, t);
    case AFail(t, reason, now) => FailAdvances(s, t, reason, now);
    case AYield(t) => YieldAdvances(s, t);
  }

  lemma RecordAdvances(s: State, t: int)
    requires CanRecord(s, t)
    ensures Advances(s, Record(s, t), t)
  {
  }

  lemma FailAdvances(s: State, t: int, reason: string, now: int)
    requires CanFail(s, t)
    ensures Advances(s, Fail(s, t, reason, now), t)
  {
  }

  lemma YieldAdvances(s: State, t: int)
    requires CanYield(s, t)
    ensures Advances(s, Yield(s, t), t)
  {
  }

  lemma QueueAdvances(cfg: Config, s: State, a: QueueAction)
    requires QueueEnabled(cfg, s, a)
    ensures Advances(s, ApplyQueue(cfg, s, a), a.t)
  {
    match a
    case APush(t) => MoveAdvances(s, Push(s, t), t, Done);
    case AArmTimer(t) => MoveAdvances(s, ArmTimer(s, t), t, Done);
    case ATimerFires(t, i) => MoveAdvances(s, TimerFires(s, t, i), t, Done);
    case APop(t, i) => MoveAdvances(s, Pop(s, t, i), t, Popped(i));
    case _ => ClaimAdvances(cfg, s, a);
  }

  lemma ClaimAdvances(cfg: Config, s: State, a: QueueAction)
    requires QueueEnabled(cfg, s, a) && (a.AAcquire? || a.ARefuse? || a.ARecheck? || a.ACheck?)
    ensures Advances(s, ApplyQueue(cfg, s, a), a.t)
  {
    match a
    case AAcquire(t) => MoveAdvances(s, Acquire(s, t), t, Acquire(s, t).threads[t]);
    case ARefuse(t) => MoveAdvances(s, Refuse(s, t), t, Rechecking(s.threads[t].i));
    case ARecheck(t) => MoveAdvances(s, Recheck(s, t), t, Recheck(s, t).threads[t]);
    case ACheck(t) => MoveAdvances(s, Check(s, t), t, Check(s, t).threads[t]);
  }

  lemma TriggerAdvances(cfg: Config, s: State, a: TriggerAction)
    requires TriggerEnabled(cfg, s, a)
    ensures Advances(s, ApplyTrigger(cfg, s, a), a.t)
  {
  }

  lemma WriterAdvances(s: State, a: WriterAction)
    requires WriterEnabled(s, a)
    ensures Advances(s, ApplyWriter(s, a), a.t)
  {
  }

  lemma DropAdvances(s: State, t: int)
    requires CanDrop(s, t)
    ensures Advances(s, Drop(s, t), t)
  {
  }

  lemma ScheduleAdvances(s: State, t: int, at: Option<int>)
    requires CanSchedule(s, t)
    ensures Advances(s, Schedule(s, t, at), t)
  {
  }

  lemma ReleaseAdvances(s: State, a: ReleaseAction)
    requires ReleaseEnabled(s, a)
    ensures if a.ADrop? || a.ASchedule? then Advances(s, ApplyRelease(s, a), a.t)
            else ApplyRelease(s, a).threads == s.threads
  {
    match a
    case ADrop(t) => DropAdvances(s, t);
    case ASchedule(t, at) => ScheduleAdvances(s, t, at);
    case _ =>
  }

  lemma StepAdvances(cfg: Config, s: State, a: Action)
    requires Enabled(cfg, s, a)
    ensures if Actor(a).Some? then Advances(s, Apply(cfg, s, a), Actor(a).value)
            else Apply(cfg, s, a).threads == s.threads
  {
    match a
    case OfTrigger(ta) => TriggerAdvances(cfg, s, ta);
    case OfQueue(qa) => QueueAdvances(cfg, s, qa);
    case OfDispatch(da) =>
      if da.ABind? || da.AAddress? || da.AMark? || da.AMarkTx? {
        EarlyAdvances(s, da);
      } else {
        LateAdvances(s, da);
      }
    case OfRelease(ra) => ReleaseAdvances(s, ra);
    case OfWriter(wa) => WriterAdvances(s, wa);
  }

  // Requeueing and binding an instance look at its row first, and let go of it exactly if it is
  // finished: a finished instance is not queued again,
  lemma FinishedIsNotRequeued(cfg: Config, s: State, a: QueueAction)
    requires QueueEnabled(cfg, s, a) && (a.ARecheck? || a.ACheck?)
    ensures ApplyQueue(cfg, s, a).threads[a.t].Owned() ==
            if s.rows[s.threads[a.t].i].Terminal() then None else Some(s.threads[a.t].i)
  {
  }

  // and so does marking it: a finished instance is not sent.
  lemma FinishedIsNotSent(s: State, a: DispatchAction)
    requires DispatchEnabled(s, a) && (a.AMark? || a.AMarkTx?)
    ensures ApplyDispatch(s, a).threads[a.t].Owned() ==
            if s.rows[s.threads[a.t].i].Terminal() then None else Some(s.threads[a.t].i)
  {
  }

  // t starts no new activity during the run.
  ghost predicate OneActivity(cfg: Config, s: State, run: seq<Action>, t: int)
    decreases |run|
  {
    run == [] ||
    (Enabled(cfg, s, run[0]) && (Actor(run[0]) == Some(t) ==> !PcOf(s, t).Done?) &&
     OneActivity(cfg, Apply(cfg, s, run[0]), run[1..], t))
  }

  function OwnSteps(run: seq<Action>, t: int): nat
    decreases |run|
  {
    if run == [] then 0 else Bit(Actor(run[0]) == Some(t)) + OwnSteps(run[1..], t)
  }

  /** Whatever the other threads do in between, an activity is over after at most ten steps
      of its own, and a thread that has taken all it can take is done. */
  lemma {:induction false} ActivityEnds(cfg: Config, s: State, run: seq<Action>, e: State, t: int)
    requires Runs(cfg, s, run, e) && OneActivity(cfg, s, run, t)
    ensures OwnSteps(run, t) + Rank(PcOf(e, t)) <= Rank(PcOf(s, t)) <= 10
    decreases |run|
  {
    if run != [] {
      StepAdvances(cfg, s, run[0]);
      ActivityEnds(cfg, Apply(cfg, s, run[0]), run[1..], e, t);
    }
  }
}
