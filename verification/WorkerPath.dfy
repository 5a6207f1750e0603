/** When the rows alone show what occupies a slot. The /worker handler refuses a report from a
    worker the row is not bound to; the /server handler does not look. Being active, and not just
    having been marked, implies occupying a slot in every state of a run exactly as long as no
    report makes an instance active that was never dispatched. */
module WorkerPath {
  import opened Counting
  import opened Instances
  import opened Slots
  import opened Dispatch
  import opened Invariants
  import opened MoveSteps
  import opened Safety

  predicate Shown(r: Row) { r.addr != "" || r.status.Active() }

  // Rows an earlier lifetime left with an address or in an active status.
  ghost function Inherited(s: State): set<int> {
    set i | i in s.rows && Shown(s.rows[i])
  }

  // All other rows get an address, and an active status, only by being dispatched.
  ghost predicate RowsExplained(s: State, kept: set<int>) {
    forall i | i in s.rows && i !in kept && Shown(s.rows[i]) :: i in s.marked
  }

  // The step writes a report that makes an open instance active that was neither dispatched in
  // this lifetime nor inherited.
  predicate Activates(s: State, kept: set<int>, a: Action) {
    a.OfWriter? && a.wa.AWriteReport? && CanWriteReport(s, a.wa.t) &&
    var pc := s.threads[a.wa.t];
    pc.status.Active() && pc.i !in s.marked && pc.i !in kept && !s.rows[pc.i].Terminal()
  }

  // The row of i either did not become addressed or active, or i is marked afterwards.
  predicate Explains(s: State, e: State, kept: set<int>, i: int) {
    i in e.rows && i !in kept && Shown(e.rows[i]) ==> i in e.marked || (i in s.rows && Shown(s.rows[i]))
  }

  ghost predicate Explained(s: State, e: State, kept: set<int>) {
    s.marked <= e.marked && forall i :: Explains(s, e, kept, i)
  }

  // t moves on without reporting and without writing a row.
  ghost predicate Quiet(s: State, e: State, t: int) {
    e.rows == s.rows && e.marked == s.marked &&
    t in e.threads && !e.threads[t].Reporting? &&
    forall u | u in e.threads && u != t :: u in s.threads && e.threads[u] == s.threads[u]
  }

  lemma AddressExplains(s: State, t: int, now: int, kept: set<int>)
    requires CanAddress(s, t)
    ensures Explained(s, Address(s, t, now), kept)
  {
  }

  lemma MarkExplains(s: State, t: int, kept: set<int>)
    requires CanMark(s, t) && s.threads[t].i in s.marked
    ensures Explained(s, Mark(s, t), kept)
  {
  }

  lemma FailExplains(s: State, t: int, reason: string, now: int, kept: set<int>)
    requires CanFail(s, t)
    ensures Explained(s, Fail(s, t, reason, now), kept)
  {
  }

  lemma DispatchQuiet(s: State, a: DispatchAction)
    requires DispatchEnabled(s, a) && !a.AAddress? && !a.AMark? && !a.AMarkTx? && !a.AFail?
    ensures Quiet(s, ApplyDispatch(s, a), a.t)
  {
    var e := ApplyDispatch(s, a);
    GotoQuiet(s, e, a.t, e.threads[a.t]);
  }

  lemma DispatchExplained(s: State, a: DispatchAction, kept: set<int>)
    requires DispatchEnabled(s, a) && Local(s, s.threads[a.t])
    ensures Explained(s, ApplyDispatch(s, a), kept)
  {
    match a
    case AAddress(t, now) => AddressExplains(s, t, now, kept);
    case AMark(t) => MarkExplains(s, t, kept);
    case AMarkTx(t, now) =>
      AddressExplains(s, t, now, kept);
      MarkExplains(Address(s, t, now), t, kept);
    case AFail(t, reason, now) => FailExplains(s, t, reason, now, kept);
    case _ =>
      DispatchQuiet(s, a);
      QuietExplains(s, ApplyDispatch(s, a), a.t, kept);
  }

  lemma QuietExplains(s: State, e: State, t: int, kept: set<int>)
    requires Quiet(s, e, t)
    ensures Explained(s, e, kept)
  {
    forall i ensures Explains(s, e, kept, i) {
    }
  }

  lemma WriterExplained(s: State, a: WriterAction, kept: set<int>)
    requires WriterEnabled(s, a) && RowsExplained(s, kept) && !Activates(s, kept, OfWriter(a))
    ensures Explained(s, ApplyWriter(s, a), kept)
  {
  }

  lemma TriggerExplained(cfg: Config, s: State, a: TriggerAction, kept: set<int>)
    requires TriggerEnabled(cfg, s, a)
    ensures Explained(s, ApplyTrigger(cfg, s, a), kept)
  {
  }

  lemma ReleaseExplained(s: State, a: ReleaseAction, kept: set<int>)
    requires ReleaseEnabled(s, a)
    ensures Explained(s, ApplyRelease(s, a), kept)
  {
  }

  lemma QueueQuiet(cfg: Config, s: State, a: QueueAction)
    requires QueueEnabled(cfg, s, a)
    ensures Quiet(s, ApplyQueue(cfg, s, a), a.t)
  {
    match a
    case APush(t) => GotoQuiet(s, Push(s, t), t, Done);
    case AArmTimer(t) => GotoQuiet(s, ArmTimer(s, t), t, Done);
    case ATimerFires(t, i) => GotoQuiet(s, TimerFires(s, t, i), t, Done);
    case APop(t, i) => GotoQuiet(s, Pop(s, t, i), t, Popped(i));
    case _ => ClaimQuiet(cfg, s, a);
  }

  lemma ClaimQuiet(cfg: Config, s: State, a: QueueAction)
    requires QueueEnabled(cfg, s, a) && (a.AAcquire? || a.ARefuse? || a.ARecheck? || a.ACheck?)
    ensures Quiet(s, ApplyQueue(cfg, s, a), a.t)
  {
    match a
    case AAcquire(t) => GotoQuiet(s, Acquire(s, t), t, Acquire(s, t).threads[t]);
    case ARefuse(t) => GotoQuiet(s, Refuse(s, t), t, Rechecking(s.threads[t].i));
    case ARecheck(t) => GotoQuiet(s, Recheck(s, t), t, Recheck(s, t).threads[t]);
    case ACheck(t) => GotoQuiet(s, Check(s, t), t, Check(s, t).threads[t]);
  }

  lemma GotoQuiet(s: State, e: State, t: int, pc: Pc)
    requires e.rows == s.rows && e.marked == s.marked
    requires e.threads == s.threads[t := pc] && !pc.Reporting?
    ensures Quiet(s, e, t)
  {
  }

  lemma StepIsExplained(cfg: Config, s: State, a: Action, kept: set<int>)
    requires Enabled(cfg, s, a) && RowsExplained(s, kept) && !Activates(s, kept, a)
    requires a.OfDispatch? ==> Local(s, PcOf(s, a.da.t))
    ensures Explained(s, Apply(cfg, s, a), kept)
  {
    match a {
      case OfTrigger(ta) => TriggerExplained(cfg, s, ta, kept);
      case OfQueue(qa) =>
        QueueQuiet(cfg, s, qa);
        QuietExplains(s, ApplyQueue(cfg, s, qa), qa.t, kept);
      case OfDispatch(da) => DispatchExplained(s, da, kept);
      case OfRelease(ra) => ReleaseExplained(s, ra, kept);
      case OfWriter(wa) => WriterExplained(s, wa, kept);
    }
  }

  lemma ExplainedKeeps(s: State, e: State, kept: set<int>)
    requires RowsExplained(s, kept) && Explained(s, e, kept)
    ensures RowsExplained(e, kept)
  {
    forall i | i in e.rows && i !in kept && Shown(e.rows[i]) ensures i in e.marked {
      assert Explains(s, e, kept, i);
    }
  }

  lemma StepExplained(cfg: Config, s: State, a: Action, kept: set<int>)
    requires Inv(cfg, s) && Enabled(cfg, s, a) && RowsExplained(s, kept) && !Activates(s, kept, a)
    ensures RowsExplained(Apply(cfg, s, a), kept)
  {
    if a.OfDispatch? {
      InvLocal(cfg, s, a.da.t);
    }
    StepIsExplained(cfg, s, a, kept);
    ExplainedKeeps(s, Apply(cfg, s, a), kept);
  }

  // Exactly which report writes break it: those that make an open, unmarked row active.
  lemma ReportBreaksIff(s: State, kept: set<int>, t: int, result: string, now: int)
    requires RowsExplained(s, kept) && CanWriteReport(s, t)
    ensures RowsExplained(WriteReport(s, t, result, now), kept) <==>
            !Activates(s, kept, OfWriter(AWriteReport(t, result, now)))
  {
    var i := s.threads[t].i;
    var e := WriteReport(s, t, result, now);
    assert forall x | x in s.rows && x != i :: e.rows[x] == s.rows[x];
    assert e.rows.Keys == s.rows.Keys;
  }

  // ----- runs -----

  // No report of the run makes an instance active that was never dispatched.
  ghost predicate NoneActivated(cfg: Config, s: State, kept: set<int>, run: seq<Action>)
    decreases |run|
  {
    run == [] ||
    (Enabled(cfg, s, run[0]) && !Activates(s, kept, run[0]) &&
     NoneActivated(cfg, Apply(cfg, s, run[0]), kept, run[1..]))
  }

  // Every state of the run shows what occupies a slot.
  ghost predicate AlwaysExplained(cfg: Config, s: State, kept: set<int>, run: seq<Action>)
    decreases |run|
  {
    RowsExplained(s, kept) &&
    (run == [] || (Enabled(cfg, s, run[0]) && AlwaysExplained(cfg, Apply(cfg, s, run[0]), kept, run[1..])))
  }

  lemma {:induction false} RunExplainedIff(cfg: Config, s: State, kept: set<int>, run: seq<Action>, e: State)
    requires Inv(cfg, s) && RowsExplained(s, kept) && Runs(cfg, s, run, e)
    ensures AlwaysExplained(cfg, s, kept, run) <==> NoneActivated(cfg, s, kept, run)
    ensures NoneActivated(cfg, s, kept, run) ==> Inv(cfg, e) && RowsExplained(e, kept)
    decreases |run|
  {
    if run != [] {
      var a := run[0];
      StepKeeps(cfg, s, a);
      if Activates(s, kept, a) {
        ReportBreaksIff(s, kept, a.wa.t, a.wa.result, a.wa.now);
      } else {
        StepExplained(cfg, s, a, kept);
        RunExplainedIff(cfg, Apply(cfg, s, a), kept, run[1..], e);
      }
    }
  }

  // s is reached from a start whose inherited rows are kept, by a run that activates nothing undispatched.
  ghost predicate ReachableByWorkers(cfg: Config, s: State, kept: set<int>) {
    exists s0, run ::
      Init(cfg, s0) && kept == Inherited(s0) && Runs(cfg, s0, run, s) && NoneActivated(cfg, s0, kept, run)
  }

  lemma InitExplained(cfg: Config, s: State)
    requires Init(cfg, s)
    ensures RowsExplained(s, Inherited(s))
  {
  }

  lemma ReachableExplained(cfg: Config, s: State, kept: set<int>)
    requires ReachableByWorkers(cfg, s, kept)
    ensures Reachable(cfg, s) && RowsExplained(s, kept)
  {
    var s0, run :|
      Init(cfg, s0) && kept == Inherited(s0) && Runs(cfg, s0, run, s) && NoneActivated(cfg, s0, kept, run);
    InitHolds(cfg, s0);
    InitExplained(cfg, s0);
    RunExplainedIff(cfg, s0, kept, run, s);
  }

  // ----- what the address check is good for -----

  // An unchecked report of an active status is about an instance dispatched or inherited.
  predicate Permitted(s: State, kept: set<int>, a: Action) {
    a.OfWriter? && a.wa.AReportUnchecked? && a.wa.status.Active() ==> a.wa.i in s.marked || a.wa.i in kept
  }

  ghost predicate AllPermitted(cfg: Config, s: State, kept: set<int>, run: seq<Action>)
    decreases |run|
  {
    run == [] ||
    (Enabled(cfg, s, run[0]) && Permitted(s, kept, run[0]) && AllPermitted(cfg, Apply(cfg, s, run[0]), kept, run[1..]))
  }

  // The same of the reports that have passed their handler.
  ghost predicate ReportsTraced(s: State, kept: set<int>) {
    forall t | t in s.threads && s.threads[t].Reporting? && s.threads[t].status.Active() ::
      s.threads[t].i in s.marked || s.threads[t].i in kept
  }

  // Nobody but a handler starts to report.
  ghost predicate NoNewReport(s: State, e: State) {
    s.marked <= e.marked &&
    forall t | t in e.threads && e.threads[t].Reporting? :: t in s.threads && s.threads[t] == e.threads[t]
  }

  lemma DispatchReportsNothing(s: State, a: DispatchAction)
    requires DispatchEnabled(s, a)
    ensures NoNewReport(s, ApplyDispatch(s, a))
  {
  }

  lemma TriggerReportsNothing(cfg: Config, s: State, a: TriggerAction)
    requires TriggerEnabled(cfg, s, a)
    ensures NoNewReport(s, ApplyTrigger(cfg, s, a))
  {
  }

  lemma ReleaseReportsNothing(s: State, a: ReleaseAction)
    requires ReleaseEnabled(s, a)
    ensures NoNewReport(s, ApplyRelease(s, a))
  {
  }

  lemma WriterTraces(s: State, a: WriterAction, kept: set<int>)
    requires WriterEnabled(s, a) && RowsExplained(s, kept) && ReportsTraced(s, kept) && Permitted(s, kept, OfWriter(a))
    ensures ReportsTraced(ApplyWriter(s, a), kept)
  {
  }

  lemma StepTraces(cfg: Config, s: State, a: Action, kept: set<int>)
    requires Enabled(cfg, s, a) && RowsExplained(s, kept) && ReportsTraced(s, kept) && Permitted(s, kept, a)
    ensures ReportsTraced(Apply(cfg, s, a), kept) && !Activates(s, kept, a)
  {
    match a {
      case OfTrigger(ta) => TriggerReportsNothing(cfg, s, ta);
      case OfQueue(qa) => QueueQuiet(cfg, s, qa);
      case OfDispatch(da) => DispatchReportsNothing(s, da);
      case OfRelease(ra) => ReleaseReportsNothing(s, ra);
      case OfWriter(wa) => WriterTraces(s, wa, kept);
    }
  }

  // A worker the row is bound to has been given the instance: what passes the check activates nothing.
  lemma {:induction false} PermittedActivatesNone(cfg: Config, s: State, kept: set<int>, run: seq<Action>, e: State)
    requires Inv(cfg, s) && RowsExplained(s, kept) && ReportsTraced(s, kept)
    requires Runs(cfg, s, run, e) && AllPermitted(cfg, s, kept, run)
    ensures NoneActivated(cfg, s, kept, run)
    decreases |run|
  {
    if run != [] {
      StepKeeps(cfg, s, run[0]);
      StepTraces(cfg, s, run[0], kept);
      StepExplained(cfg, s, run[0], kept);
      PermittedActivatesNone(cfg, Apply(cfg, s, run[0]), kept, run[1..], e);
    }
  }

  // ----- main results -----

  // Instances whose row shows waiting_receive or running, recovered ones included, but for the inherited.
  ghost function ActiveNow(s: State, kept: set<int>, job: int): set<int> {
    set i | i in s.rows && i !in kept && s.rows[i].status.Active() && s.rows[i].job == job
  }

  // Read off the rows alone: active implies held, so the limit bounds what the table shows.
  lemma ActiveIsBounded(cfg: Config, s: State, kept: set<int>, job: int)
    requires ReachableByWorkers(cfg, s, kept) && job in cfg
    ensures forall i | i in ActiveNow(s, kept, job) :: i in s.held && s.held[i].job == job
    ensures |ActiveNow(s, kept, job)| <= Limit(cfg[job].maxConcurrency)
  {
    ReachableExplained(cfg, s, kept);
    forall i | i in ActiveNow(s, kept, job) ensures i in InFlight(s, job) {
      assert i in s.rows && i !in kept && Shown(s.rows[i]);
    }
    SubsetSize(ActiveNow(s, kept, job), InFlight(s, job));
    ConcurrencyBounded(cfg, s, job);
    forall i | i in ActiveNow(s, kept, job) ensures i in s.held && s.held[i].job == job {
      DispatchedIsHeld(cfg, s, i);
    }
  }

  /** In every state of a run from the start all rows that are active or addressed, but for the
      inherited, were dispatched, exactly when no report of the run activates one that was not. */
  lemma ExplainedIff(cfg: Config, s: State, run: seq<Action>, e: State)
    requires Init(cfg, s) && Runs(cfg, s, run, e)
    ensures AlwaysExplained(cfg, s, Inherited(s), run) <==> NoneActivated(cfg, s, Inherited(s), run)
  {
    InitHolds(cfg, s);
    InitExplained(cfg, s);
    RunExplainedIff(cfg, s, Inherited(s), run, e);
  }

  // The address check of the /worker handler is enough, with unchecked reports as permitted.
  lemma CheckSuffices(cfg: Config, s: State, run: seq<Action>, e: State)
    requires Init(cfg, s) && Runs(cfg, s, run, e) && AllPermitted(cfg, s, Inherited(s), run)
    ensures ReachableByWorkers(cfg, e, Inherited(s))
  {
    InitHolds(cfg, s);
    InitExplained(cfg, s);
    PermittedActivatesNone(cfg, s, Inherited(s), run, e);
  }

  // The dispatcher never marks a row that is already active.
  lemma NeverRedispatched(cfg: Config, s: State, kept: set<int>, t: int)
    requires ReachableByWorkers(cfg, s, kept) && CanAddress(s, t) && s.threads[t].i !in kept
    ensures !s.rows[s.threads[t].i].status.Active()
  {
    ReachableExplained(cfg, s, kept);
    ReachableHolds(cfg, s);
    InvLocal(cfg, s, t);
  }
}
