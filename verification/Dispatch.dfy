/** The dispatch kernel as a state machine. One step is one atomic section of the program:
    a database statement or transaction, a section under slotMu, one under the registry lock,
    one under pqMu. A thread is a program counter; the sections of different threads
    interleave freely. */
module Dispatch {
  import opened Counting
  import opened Instances
  import opened Loads
  import opened Slots

  datatype Job = Job(app: int, maxConcurrency: int)
  type Config = map<int, Job>

  // What a thread does next. i is the instance it works on.
  datatype Pc =
    | Done
    | Claiming(job: int, trigger: Trigger) // slot taken, instance not created yet
    | Created(i: int, job: int)            // instance created, slot not bound
    | Enqueueing(i: int)                   // about to push i, or to arm its timer
    | Popped(i: int)                       // taken off the manual queue, no slot
    | Rechecking(i: int)                   // no slot: re-read the row before requeueing
    | Acquired(i: int, job: int)           // slot taken, row not re-read
    | Checked(i: int, job: int)            // row seen non-terminal, slot not bound
    | Bound(i: int)                        // bindHeld done, about to pick a worker
    | Picked(i: int, addr: string)
    | Addressed(i: int, addr: string)      // between the two statements of MarkDispatched
    | Marked(i: int, addr: string)         // waiting_receive written, about to send
    | Sent(i: int, addr: string)           // about to record the worker in held
    | Failing(i: int)                      // about to write the dispatch failure
    | NoWorker(i: int)                     // about to give the slot back
    | Dropping(i: int, retry: bool)        // terminal status written, about to release
    | Scheduling(i: int)                   // won and released, about to schedule the retry
    | Reporting(i: int, status: Status)    // report accepted by the handler, not written
  {
    // The instance this thread is responsible for moving forward.
    function Owned(): Option<int> {
      match this
      case Done | Claiming(_, _) | Dropping(_, _) | Scheduling(_) | Reporting(_, _) => None
      case _ => Some(i)
    }

    // The job for which this thread holds a slot not yet bound to an instance.
    function Token(): Option<int> {
      match this
      case Claiming(job, _) => Some(job)
      case Created(_, job) => Some(job)
      case Acquired(_, job) => Some(job)
      case Checked(_, job) => Some(job)
      case _ => None
    }

    // Owns an instance that is not bound to a slot.
    predicate Waits() {
      Created? || Enqueueing? || Popped? || Rechecking? || Acquired? || Checked?
    }

    // Owns an instance whose slot has been bound by this thread.
    predicate Dispatches() {
      Bound? || Picked? || Addressed? || Marked? || Sent? || Failing? || NoWorker?
    }

    // On its way to scheduleRetry for x.
    predicate Schedules(x: int) {
      ((Dropping? && retry) || Scheduling?) && i == x
    }

    // Certain to release i if i's row is terminal.
    predicate Releases(x: int) {
      (Dropping? || Bound? || Picked? || Addressed? || NoWorker? || Failing?) && i == x
    }
  }

  type Threads = map<int, Pc>

  /** The last six fields are history, read by no step's guard: instances addressed to a
      worker in this process lifetime, instances some worker handed back by reporting queued,
      instances created or recovered in this lifetime, worker keys ever swept, guarded writes
      that took an instance terminal, and automatic retries scheduled. prior is the set of rows
      left by earlier lifetimes. */
  datatype State = State(
    rows: Rows,
    slots: SlotCounts,
    held: Held,
    loads: Loads,
    releasing: multiset<WorkerKey>, // releases past slotMu, not yet in the registry
    queue: multiset<int>,
    timers: multiset<int>,
    threads: Threads,
    prior: set<int>,
    marked: set<int>, handedBack: set<int>, managed: set<int>, swept: set<WorkerKey>,
    wins: multiset<int>, retried: multiset<int>)

  // ----- counting threads and held entries -----

  ghost function Owns(i: int): Pc -> bool { (pc: Pc) => pc.Owned() == Some(i) }
  ghost function HasToken(j: int): Pc -> bool { (pc: Pc) => pc.Token() == Some(j) }
  ghost function OfJob(j: int): HeldSlot -> bool { (h: HeldSlot) => h.job == j }
  ghost function OnWorker(k: WorkerKey): HeldSlot -> bool { (h: HeldSlot) => h.addr != "" && h.Key() == k }

  // In how many places i is owned: threads, queue entries, pending timers.
  ghost function Owners(s: State, i: int): nat {
    Count(s.threads, Owns(i)) + s.queue[i] + s.timers[i]
  }

  ghost predicate Idle(s: State) {
    forall t | t in s.threads :: s.threads[t].Done?
  }

  // ----- steps -----

  predicate Free(s: State, t: int) { t !in s.threads || s.threads[t].Done? }

  function Goto(s: State, t: int, pc: Pc): State { s.(threads := s.threads[t := pc]) }

  // tryAcquire, then a new thread for an automatic or retried trigger.
  predicate CanClaim(cfg: Config, s: State, t: int, job: int, trigger: Trigger) {
    Free(s, t) && job in cfg && !trigger.Manual? &&
    SlotOf(s.slots, job) < Limit(if trigger.Auto? then 1 else cfg[job].maxConcurrency)
  }

  function Claim(s: State, t: int, job: int, trigger: Trigger): State {
    Goto(s.(slots := TakeSlot(s.slots, job)), t, Claiming(job, trigger))
  }

  // releaseByJob before any instance exists: cursor lost, outside the window, insert failed.
  predicate CanAbandon(s: State, t: int) { t in s.threads && s.threads[t].Claiming? }

  function Abandon(s: State, t: int): State
    requires CanAbandon(s, t)
  {
    Goto(s.(slots := FreeSlot(s.slots, s.threads[t].job)), t, Done)
  }

  predicate NewRowFor(cfg: Config, s: State, i: int, r: Row) {
    i !in s.rows && r.job in cfg && r.app == cfg[r.job].app && r.status.Queued? && r.addr == ""
  }

  predicate CanCreate(cfg: Config, s: State, t: int, i: int, r: Row) {
    t in s.threads && s.threads[t].Claiming? && NewRowFor(cfg, s, i, r) &&
    r.job == s.threads[t].job && r.trigger == s.threads[t].trigger
  }

  function Create(s: State, t: int, i: int, r: Row): State {
    Goto(s.(rows := s.rows[i := r], managed := s.managed + {i}), t, Created(i, r.job))
  }

  // SubmitManualDelayed: the row is inserted before the queue or the timer knows of it.
  predicate CanSubmit(cfg: Config, s: State, t: int, i: int, r: Row) {
    Free(s, t) && NewRowFor(cfg, s, i, r) && r.trigger.Manual?
  }

  function Submit(s: State, t: int, i: int, r: Row): State {
    Goto(s.(rows := s.rows[i := r], managed := s.managed + {i}), t, Enqueueing(i))
  }

  predicate CanEnqueue(s: State, t: int) { t in s.threads && s.threads[t].Enqueueing? }

  function Push(s: State, t: int): State
    requires CanEnqueue(s, t)
  {
    Goto(s.(queue := s.queue + multiset{s.threads[t].i}), t, Done)
  }

  function ArmTimer(s: State, t: int): State
    requires CanEnqueue(s, t)
  {
    Goto(s.(timers := s.timers + multiset{s.threads[t].i}), t, Done)
  }

  // The timer's own goroutine t pushes the item.
  function TimerFires(s: State, t: int, i: int): State {
    Goto(s.(timers := s.timers - multiset{i}, queue := s.queue + multiset{i}), t, Done)
  }

  function Pop(s: State, t: int, i: int): State {
    Goto(s.(queue := s.queue - multiset{i}), t, Popped(i))
  }

  predicate CanAcquire(cfg: Config, s: State, t: int) {
    t in s.threads && s.threads[t].Popped? && s.threads[t].i in s.rows &&
    var job := s.rows[s.threads[t].i].job;
    job in cfg && SlotOf(s.slots, job) < Limit(cfg[job].maxConcurrency)
  }

  function Acquire(s: State, t: int): State
    requires t in s.threads && s.threads[t].Popped? && s.threads[t].i in s.rows
  {
    var i := s.threads[t].i;
    Goto(s.(slots := TakeSlot(s.slots, s.rows[i].job)), t, Acquired(i, s.rows[i].job))
  }

  // tryAcquire refused: the item is re-read, then pushed again.
  predicate CanRefuse(cfg: Config, s: State, t: int) {
    t in s.threads && s.threads[t].Popped? && !CanAcquire(cfg, s, t)
  }

  function Refuse(s: State, t: int): State
    requires t in s.threads && s.threads[t].Popped?
  {
    Goto(s, t, Rechecking(s.threads[t].i))
  }

  predicate CanRecheck(s: State, t: int) {
    t in s.threads && s.threads[t].Rechecking? && s.threads[t].i in s.rows
  }

  function Recheck(s: State, t: int): State
    requires CanRecheck(s, t)
  {
    var i := s.threads[t].i;
    Goto(s, t, if s.rows[i].Terminal() then Done else Enqueueing(i))
  }

  // runManualHeld's check of the row before binding the slot.
  predicate CanCheck(s: State, t: int) {
    t in s.threads && s.threads[t].Acquired? && s.threads[t].i in s.rows
  }

  function Check(s: State, t: int): State
    requires CanCheck(s, t)
  {
    var pc := s.threads[t];
    if s.rows[pc.i].Terminal()
    then Goto(s.(slots := FreeSlot(s.slots, pc.job)), t, Done)
    else Goto(s, t, Checked(pc.i, pc.job))
  }

  predicate CanBind(s: State, t: int) {
    t in s.threads && (s.threads[t].Created? || s.threads[t].Checked?) && s.threads[t].i in s.rows
  }

  function Bind(s: State, t: int): State
    requires CanBind(s, t)
  {
    var pc := s.threads[t];
    Goto(s.(held := s.held[pc.i := HeldSlot(s.rows[pc.i].app, pc.job, "")]), t, Bound(pc.i))
  }

  predicate CanPick(s: State, t: int) { t in s.threads && s.threads[t].Bound? }

  // PickWorker, and on failure HasOnlineWorker: the outcome is the registry's.
  function Pick(s: State, t: int, addr: string): State
    requires CanPick(s, t)
  {
    Goto(s, t, Picked(s.threads[t].i, addr))
  }

  function PickNone(s: State, t: int): State
    requires CanPick(s, t)
  {
    Goto(s, t, NoWorker(s.threads[t].i))
  }

  function PickMismatch(s: State, t: int): State
    requires CanPick(s, t)
  {
    Goto(s, t, Failing(s.threads[t].i))
  }

  predicate CanAddress(s: State, t: int) {
    t in s.threads && s.threads[t].Picked? && s.threads[t].i in s.rows && s.threads[t].addr != ""
  }

  // MarkDispatched, first statement.
  function Address(s: State, t: int, now: int): State
    requires CanAddress(s, t)
  {
    var pc := s.threads[t];
    Goto(s.(rows := s.rows[pc.i := Instances.Addressed(s.rows[pc.i], pc.addr, now)], marked := s.marked + {pc.i}),
         t, Addressed(pc.i, pc.addr))
  }

  predicate CanMark(s: State, t: int) {
    t in s.threads && s.threads[t].Addressed? && s.threads[t].i in s.rows
  }

  // MarkDispatched, second statement, and the branch on the rows it affected.
  function Mark(s: State, t: int): State
    requires CanMark(s, t)
  {
    var pc := s.threads[t];
    Goto(s.(rows := s.rows[pc.i := Dispatched(s.rows[pc.i])]), t,
         if s.rows[pc.i].Terminal() then Dropping(pc.i, false) else Marked(pc.i, pc.addr))
  }

  // MarkDispatchedWithCallback runs both statements in one transaction.
  function MarkTx(s: State, t: int, now: int): State
    requires CanAddress(s, t)
  {
    Mark(Address(s, t, now), t)
  }

  predicate CanSend(s: State, t: int) { t in s.threads && s.threads[t].Marked? }

  function SendOk(s: State, t: int): State
    requires CanSend(s, t)
  {
    Goto(s, t, Sent(s.threads[t].i, s.threads[t].addr))
  }

  function SendFails(s: State, t: int): State
    requires CanSend(s, t)
  {
    Goto(s, t, Failing(s.threads[t].i))
  }

  predicate CanRecord(s: State, t: int) { t in s.threads && s.threads[t].Sent? }

  // bindWorkerAddr: the address and the counter change in one slotMu section.
  function Record(s: State, t: int): State
    requires CanRecord(s, t)
  {
    var pc := s.threads[t];
    if pc.i !in s.held then Goto(s, t, Done)
    else
      var h := s.held[pc.i].(addr := pc.addr);
      Goto(s.(held := s.held[pc.i := h], loads := AcquireLoad(s.loads, h.Key())), t, Done)
  }

  predicate CanFail(s: State, t: int) {
    t in s.threads && s.threads[t].Failing? && s.threads[t].i in s.rows
  }

  function Won(s: State, i: int, won: bool): multiset<int> {
    if won then s.wins + multiset{i} else s.wins
  }

  // failDispatch: the guarded write; only a write that took effect goes on to schedule a retry.
  function Fail(s: State, t: int, reason: string, now: int): State
    requires CanFail(s, t)
  {
    var i := s.threads[t].i;
    var won := !s.rows[i].Terminal();
    Goto(s.(rows := s.rows[i := DispatchFailed(s.rows[i], reason, now)],
            wins := Won(s, i, won)),
         t, Dropping(i, won))
  }

  // The slotMu section of releaseByInstance.
  function ReleaseInstance(s: State, i: int): State {
    if i !in s.held then s
    else
      var h := s.held[i];
      s.(held := s.held - {i}, slots := FreeSlot(s.slots, h.job),
         releasing := if h.addr != "" then s.releasing + multiset{h.Key()} else s.releasing)
  }

  predicate CanYield(s: State, t: int) { t in s.threads && s.threads[t].NoWorker? }

  function Yield(s: State, t: int): State
    requires CanYield(s, t)
  {
    var i := s.threads[t].i;
    Goto(ReleaseInstance(s, i), t, Rechecking(i))
  }

  predicate CanDrop(s: State, t: int) { t in s.threads && s.threads[t].Dropping? }

  function Drop(s: State, t: int): State
    requires CanDrop(s, t)
  {
    var pc := s.threads[t];
    Goto(ReleaseInstance(s, pc.i), t, if pc.retry then Scheduling(pc.i) else Done)
  }

  predicate CanSchedule(s: State, t: int) {
    t in s.threads && s.threads[t].Scheduling? && s.threads[t].i in s.rows
  }

  // scheduleRetry, after the release: at is absent when the job has no retry left.
  function Schedule(s: State, t: int, at: Option<int>): State
    requires CanSchedule(s, t)
  {
    var i := s.threads[t].i;
    if at.None? then Goto(s, t, Done)
    else Goto(s.(rows := s.rows[i := s.rows[i].(nextRetry := at)], retried := s.retried + multiset{i}), t, Done)
  }

  // The registry section of releaseByInstance.
  function RegistryRelease(s: State, k: WorkerKey): State {
    s.(releasing := s.releasing - multiset{k}, loads := ReleaseLoad(s.loads, k))
  }

  function Sweep(s: State, k: WorkerKey): State {
    s.(loads := DeleteLoad(s.loads, k), swept := s.swept + {k})
  }

  // The /worker status handler: the reporting worker must be the bound one.
  predicate CanReport(s: State, t: int, i: int, from: string) {
    Free(s, t) && i in s.rows && from != "" && s.rows[i].addr == from
  }

  // The /server status handler checks no address.
  predicate CanReportUnchecked(s: State, t: int, i: int) { Free(s, t) && i in s.rows }

  function Report(s: State, t: int, i: int, status: Status): State {
    Goto(s, t, Reporting(i, status))
  }

  predicate CanWriteReport(s: State, t: int) {
    t in s.threads && s.threads[t].Reporting? && s.threads[t].i in s.rows
  }

  // ReportStatus: the guarded write, then a release whenever the reported status is terminal.
  function WriteReport(s: State, t: int, result: string, now: int): State
    requires CanWriteReport(s, t)
  {
    var pc := s.threads[t];
    var open := !s.rows[pc.i].Terminal();
    Goto(s.(rows := s.rows[pc.i := Reported(s.rows[pc.i], pc.status, result, now)],
            handedBack := if open && pc.status.Queued? then s.handedBack + {pc.i} else s.handedBack,
            wins := Won(s, pc.i, open && pc.status.Terminal())),
         t, if pc.status.Terminal() then Dropping(pc.i, false) else Done)
  }

  // Stop and Cancel: the write is not guarded.
  predicate CanStop(s: State, t: int, i: int, status: Status) {
    Free(s, t) && i in s.rows && (status.Stopped? || status.Canceled?)
  }

  function Stop(s: State, t: int, i: int, status: Status, now: int): State
    requires i in s.rows
  {
    var reason := if status.Stopped? then "OpenAPI stop" else "OpenAPI cancel";
    Goto(s.(rows := s.rows[i := Forced(s.rows[i], status, reason, now)]), t, Dropping(i, false))
  }

  // finalizeReaped: nothing follows a write that affected no row.
  predicate CanReap(s: State, t: int, i: int, status: Status) {
    Free(s, t) && i in s.rows && status.Retryable()
  }

  function Reap(s: State, t: int, i: int, status: Status, reason: string, now: int): State
    requires i in s.rows
  {
    var won := !s.rows[i].Terminal();
    Goto(s.(rows := s.rows[i := Reported(s.rows[i], status, reason, now)],
            wins := Won(s, i, won)),
         t, if won then Dropping(i, true) else Done)
  }

  // Writes of columns the protocol does not read: the priority, and next_retry_time as the manual
  // Retry and the retry pump write it.
  predicate CanTouch(s: State, t: int, i: int, r: Row) {
    Free(s, t) && i in s.rows && r == s.rows[i].(priority := r.priority, nextRetry := r.nextRetry)
  }

  function Touch(s: State, t: int, i: int, r: Row): State { Goto(s.(rows := s.rows[i := r]), t, Done) }

  // ----- one step, one run -----

  datatype TriggerAction =
    | AClaim(t: int, job: int, trigger: Trigger) | AAbandon(t: int)
    | ACreate(t: int, i: int, r: Row) | ASubmit(t: int, i: int, r: Row)
  datatype QueueAction =
    | APush(t: int) | AArmTimer(t: int) | ATimerFires(t: int, i: int) | APop(t: int, i: int)
    | AAcquire(t: int) | ARefuse(t: int) | ARecheck(t: int) | ACheck(t: int)
  datatype DispatchAction =
    | ABind(t: int) | APick(t: int, addr: string) | APickNone(t: int) | APickMismatch(t: int)
    | AAddress(t: int, now: int) | AMark(t: int) | AMarkTx(t: int, now: int)
    | ASendOk(t: int) | ASendFails(t: int) | ARecord(t: int)
    | AFail(t: int, reason: string, now: int) | AYield(t: int)
  datatype ReleaseAction =
    | ADrop(t: int) | ASchedule(t: int, at: Option<int>) | ARegistryRelease(k: WorkerKey) | ASweep(k: WorkerKey)
  datatype WriterAction =
    | AReport(t: int, i: int, from: string, status: Status)
    | AReportUnchecked(t: int, i: int, status: Status)
    | AWriteReport(t: int, result: string, now: int)
    | AStop(t: int, i: int, status: Status, now: int)
    | AReap(t: int, i: int, status: Status, reason: string, now: int)
    | ATouch(t: int, i: int, r: Row)
  datatype Action =
    | OfTrigger(ta: TriggerAction) | OfQueue(qa: QueueAction) | OfDispatch(da: DispatchAction)
    | OfRelease(ra: ReleaseAction) | OfWriter(wa: WriterAction)

  predicate TriggerEnabled(cfg: Config, s: State, a: TriggerAction) {
    match a
    case AClaim(t, job, trigger) => CanClaim(cfg, s, t, job, trigger)
    case AAbandon(t) => CanAbandon(s, t)
    case ACreate(t, i, r) => CanCreate(cfg, s, t, i, r)
    case ASubmit(t, i, r) => CanSubmit(cfg, s, t, i, r)
  }

  function ApplyTrigger(cfg: Config, s: State, a: TriggerAction): State
    requires TriggerEnabled(cfg, s, a)
  {
    match a
    case AClaim(t, job, trigger) => Claim(s, t, job, trigger)
    case AAbandon(t) => Abandon(s, t)
    case ACreate(t, i, r) => Create(s, t, i, r)
    case ASubmit(t, i, r) => Submit(s, t, i, r)
  }

  predicate QueueEnabled(cfg: Config, s: State, a: QueueAction) {
    match a
    case APush(t) => CanEnqueue(s, t)
    case AArmTimer(t) => CanEnqueue(s, t)
    case ATimerFires(t, i) => Free(s, t) && i in s.timers
    case APop(t, i) => Free(s, t) && i in s.queue
    case AAcquire(t) => CanAcquire(cfg, s, t)
    case ARefuse(t) => CanRefuse(cfg, s, t)
    case ARecheck(t) => CanRecheck(s, t)
    case ACheck(t) => CanCheck(s, t)
  }

  function ApplyQueue(cfg: Config, s: State, a: QueueAction): State
    requires QueueEnabled(cfg, s, a)
  {
    match a
    case APush(t) => Push(s, t)
    case AArmTimer(t) => ArmTimer(s, t)
    case ATimerFires(t, i) => TimerFires(s, t, i)
    case APop(t, i) => Pop(s, t, i)
    case AAcquire(t) => Acquire(s, t)
    case ARefuse(t) => Refuse(s, t)
    case ARecheck(t) => Recheck(s, t)
    case ACheck(t) => Check(s, t)
  }

  predicate DispatchEnabled(s: State, a: DispatchAction) {
    match a
    case ABind(t) => CanBind(s, t)
    case APick(t, addr) => CanPick(s, t) && addr != ""
    case APickNone(t) => CanPick(s, t)
    case APickMismatch(t) => CanPick(s, t)
    case AAddress(t, _) => CanAddress(s, t)
    case AMark(t) => CanMark(s, t)
    case AMarkTx(t, _) => CanAddress(s, t)
    case ASendOk(t) => CanSend(s, t)
    case ASendFails(t) => CanSend(s, t)
    case ARecord(t) => CanRecord(s, t)
    case AFail(t, _, _) => CanFail(s, t)
    case AYield(t) => CanYield(s, t)
  }

  function ApplyDispatch(s: State, a: DispatchAction): State
    requires DispatchEnabled(s, a)
  {
    match a
    case ABind(t) => Bind(s, t)
    case APick(t, addr) => Pick(s, t, addr)
    case APickNone(t) => PickNone(s, t)
    case APickMismatch(t) => PickMismatch(s, t)
    case AAddress(t, now) => Address(s, t, now)
    case AMark(t) => Mark(s, t)
    case AMarkTx(t, now) => MarkTx(s, t, now)
    case ASendOk(t) => SendOk(s, t)
    case ASendFails(t) => SendFails(s, t)
    case ARecord(t) => Record(s, t)
    case AFail(t, reason, now) => Fail(s, t, reason, now)
    case AYield(t) => Yield(s, t)
  }

  predicate ReleaseEnabled(s: State, a: ReleaseAction) {
    match a
    case ADrop(t) => CanDrop(s, t)
    case ASchedule(t, _) => CanSchedule(s, t)
    case ARegistryRelease(k) => k in s.releasing
    case ASweep(_) => true
  }

  function ApplyRelease(s: State, a: ReleaseAction): State
    requires ReleaseEnabled(s, a)
  {
    match a
    case ADrop(t) => Drop(s, t)
    case ASchedule(t, at) => Schedule(s, t, at)
    case ARegistryRelease(k) => RegistryRelease(s, k)
    case ASweep(k) => Sweep(s, k)
  }

  predicate WriterEnabled(s: State, a: WriterAction) {
    match a
    case AReport(t, i, from, _) => CanReport(s, t, i, from)
    case AReportUnchecked(t, i, _) => CanReportUnchecked(s, t, i)
    case AWriteReport(t, _, _) => CanWriteReport(s, t)
    case AStop(t, i, status, _) => CanStop(s, t, i, status)
    case AReap(t, i, status, _, _) => CanReap(s, t, i, status)
    case ATouch(t, i, r) => CanTouch(s, t, i, r)
  }

  function ApplyWriter(s: State, a: WriterAction): State
    requires WriterEnabled(s, a)
  {
    match a
    case AReport(t, i, _, status) => Report(s, t, i, status)
    case AReportUnchecked(t, i, status) => Report(s, t, i, status)
    case AWriteReport(t, result, now) => WriteReport(s, t, result, now)
    case AStop(t, i, status, now) => Stop(s, t, i, status, now)
    case AReap(t, i, status, reason, now) => Reap(s, t, i, status, reason, now)
    case ATouch(t, i, r) => Touch(s, t, i, r)
  }

  predicate Enabled(cfg: Config, s: State, a: Action) {
    match a
    case OfTrigger(ta) => TriggerEnabled(cfg, s, ta)
    case OfQueue(qa) => QueueEnabled(cfg, s, qa)
    case OfDispatch(da) => DispatchEnabled(s, da)
    case OfRelease(ra) => ReleaseEnabled(s, ra)
    case OfWriter(wa) => WriterEnabled(s, wa)
  }

  function Apply(cfg: Config, s: State, a: Action): State
    requires Enabled(cfg, s, a)
  {
    match a
    case OfTrigger(ta) => ApplyTrigger(cfg, s, ta)
    case OfQueue(qa) => ApplyQueue(cfg, s, qa)
    case OfDispatch(da) => ApplyDispatch(s, da)
    case OfRelease(ra) => ApplyRelease(s, ra)
    case OfWriter(wa) => ApplyWriter(s, wa)
  }

  // Memory is empty at start-up but for the queue RecoverQueued filled, whose jobs exist.
  ghost predicate Init(cfg: Config, s: State) {
    s.slots == map[] && s.held == map[] && s.loads == map[] && s.threads == map[] &&
    s.releasing == multiset{} && s.timers == multiset{} &&
    s.marked == {} && s.handedBack == {} && s.swept == {} &&
    s.wins == multiset{} && s.retried == multiset{} &&
    s.prior == s.rows.Keys &&
    (forall i :: s.queue[i] <= 1 && (s.queue[i] == 1 <==> i in s.managed)) &&
    (forall i | i in s.managed :: i in s.rows && s.rows[i].status.Queued? && JobKnown(cfg, s.rows[i]))
  }

  predicate JobKnown(cfg: Config, r: Row) { r.job in cfg && r.app == cfg[r.job].app }

  ghost predicate Runs(cfg: Config, s: State, run: seq<Action>, e: State)
    decreases |run|
  {
    if run == [] then e == s
    else Enabled(cfg, s, run[0]) && Runs(cfg, Apply(cfg, s, run[0]), run[1..], e)
  }

  ghost predicate Reachable(cfg: Config, s: State) {
    exists s0, run :: Init(cfg, s0) && Runs(cfg, s0, run, s)
  }
}
