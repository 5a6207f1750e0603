# Verification of the tp-job dispatch kernel

tp-job is a job scheduler: it claims due jobs, creates instances, hands them to registered
workers, follows the workers' status reports, transfers failed instances, retries them, and
delivers a callback for every status change. This project models the kernel that does so and
proves what has to hold under every interleaving of its goroutines.

## What is modelled

**The dispatch protocol** (`Dispatch.dfy`, `Invariants.dfy`, `MoveSteps.dfy`, `BookSteps.dfy`,
`HeldSteps.dfy`, `Safety.dfy`, `History.dfy`, `Addressee.dfy`, `WorkerPath.dfy`, `Progress.dfy`,
`Scenario.dfy`). A state machine whose steps are
the atomic sections of the program: one database statement or transaction, one section under
`slotMu`, one under the registry lock, one under `pqMu`. Any number of dispatching threads, worker
reports, stops and cancels, reaper writes, timers, registry releases and sweeps interleave. The
two statements of `MarkDispatched` and the two sections of `releaseByInstance` are separate steps.
Sending and the choice of a worker are nondeterministic. The global invariant is proved by induction
over runs; the results of `Safety.dfy`, `Addressee.dfy`, `WorkerPath.dfy` and `Progress.dfy` hold in every
reachable state. `History.dfy` fixes what the recorded history means, and `Scenario.dfy` that the states exist.

**The objects the steps run on** (`Scheduler.dfy`, `WorkerReg.dfy`, `InstanceStore.dfy`,
`ManualQueue.dfy`, `ManualDispatcher.dfy`, `Dispatcher.dfy`, `Service.dfy`, `RetryPump.dfy`, `Recovery.dfy`,
`CallbackPump.dfy`, `LoginLimiter.dfy`, and `JobRow` in `Claims.dfy` with `DueJob.dfy`). Classes whose methods update maps,
sequences and heap items in place as the program does. The methods of `Scheduler` and the pushes and
pops of `ManualQueue` and the claim of `JobRow` are proved to carry out the protocol step they stand for in every protocol
state that shows the memory they found.

**Whole-run properties of single parts**: the pointer heap against a priority set (`Ranks.dfy`,
`ManualQueue.dfy`), retry chains (`RetryChain.dfy`), cursor claims (`Claims.dfy`,
`ClaimRuns.dfy`), the callback outbox against status histories (`Outbox.dfy`, and over runs of the
dispatch protocol in `OutboxRuns.dfy`), bounded delivery (`CallbackPump.dfy`), start-up recovery
(`Recovery.dfy`), several lifetimes with crashes between them (`Lifetimes.dfy`), registry sweeps
(`WorkerReg.dfy`) and the login limiter
(`LoginLimiter.dfy`, `LoginBounds.dfy`, `LoginOrder.dfy`).

**Arithmetic on int64 nanoseconds** with explicit wrap-around (`Int64.dfy`, `Backoff.dfy`, `RetryDelays.dfy`, `SchedTime.dfy`).

### Assumptions

- Job configuration is fixed except for the schedule columns followed in `Claims.dfy`.
- The clock does not run backwards; in the login limiter, which reads it before it takes its lock, the times
  read may enter in any order.
- Database calls succeed, except where a result says otherwise, and rows affected are rows matched
  (SQLite's count).
- A process lifetime starts with empty memory but for the queue that `RecoverQueued` filled.
- Identifiers count up and are not reused; rows of instances are not deleted.
- The cron engines are an oracle. Where a result needs it, the oracle's answer lies after the time asked about.

### Results that are conditions

Some things the documentation says hold only under a condition; the condition is proved.

- Callbacks are not simply the status history: `Outbox.AgreementIffFaithful` says exactly which calls
  keep the agreement, `Outbox.AtomicIsFaithful` that an uninterrupted call fails only when it relabels an
  instance already finished or marks one already waiting. The dispatcher does not do the second to an
  instance that was neither inherited nor made active by an unchecked report before its dispatch
  (`WorkerPath.NeverRedispatched`; `OutboxRuns.OutboxIsHistory` builds on the same argument).
  `Outbox.RacingReportsRepeat` and `Outbox.LateStopIsUnannounced` show an interrupted call and a relabelling
  lose an agreement that held.
- A cursor value is claimed at most once, and never for a disabled job, as long as no administrator's update
  writes a cursor and window under which it could fire again or wrongly. `ClaimRuns.UpdateIsSafeIff` decides that
  for one update by what is stored, fired and pending when it is written (`Harmless`); a cursor still ahead of the
  clock is enough. `ClaimRuns.SlowUpdateFiresTwice` and `ClaimRuns.RacingUpdatesFireDisabled` are runs where
  neither holds.
- Retries survive every crash but one that finds a mark taken and not yet answered
  (`RetryChain.CrashLosesNothingIff`); what such a crash loses is lost for good (`RetryChain.LostForGood`), and
  it happens (`RetryChain.CrashLosesRetry`).
- The link between active rows and slots holds in every state of a run exactly when no report of the run makes an
  open row active that was never dispatched (`WorkerPath.ExplainedIff`, `WorkerPath.ReportBreaksIff` for one
  write). The address check of the `/worker` handler prevents such a report (`WorkerPath.CheckSuffices`); with
  two that come through the `/server` handler the bound on active rows fails (`Scenario.UncheckedReportsEscape`).
- `NextByKind` accepts numbers whose product wraps: `SchedTime.AcceptedIff` decides acceptance and
  `SchedTime.WrapsFromLeast` gives the least number accepted with another meaning.
- The doubling loop of `retryBackoff` gives the capped doubling for every interval and index exactly when the
  cap is at most 2^62 + 512 ns (`RetryDelays.HonouredIff`); `RetryDelays.LargeCapFails` falls short
  with settings of which no product of seconds wraps.

- The login limiter reads the clock before it takes its lock, and so does its reaper. That the reaper is never
  noticed, that a window admits its first `max` attempts, and that no interval of one window length admits more
  than twice `max` hold under bounds on the lag between clock and lock, which are exact:
  `LoginLimiter.InvisibleIff`, `LoginBounds.WindowAdmitsMaxIff`, `LoginOrder.AtMostTwiceIff`.
  `LoginLimiter.OvertakenIsAdmitted`, `LoginOrder.StragglersPass` and `LoginOrder.OverrunPasses` are the runs
  that fail beyond them.

## Model

| member | source | states |
|---|---|---|
| `Safety.StepKeeps` | internal/dispatch/scheduler.go:231-317 | every enabled step of every thread keeps the global invariant: exact slots, one owner, exact loads, dispatched implies held, draining, one winner |
| `Safety.ReachableHolds` | internal/dispatch/scheduler.go:31-78 | the invariant holds in every state reachable from start-up, under every interleaving |
| `Safety.DispatchedIsHeld` | internal/dispatch/scheduler.go:664-670 | an instance dispatched in this lifetime and not terminal occupies a slot of its own job |
| `Safety.ConcurrencyBounded` | internal/dispatch/scheduler.go:630-641 | a job never has more than max(1, MaxConcurrency) dispatched open instances, whatever the interleaving |
| `Safety.AutoIsSerial` | internal/dispatch/scheduler.go:217-228 | an automatic trigger gets its slot only while no instance of its job is in flight |
| `Safety.SlotsConserved` | internal/dispatch/scheduler.go:643-653 | slots[j] equals tokens taken and not yet bound plus held entries of j, and no zero entry is kept |
| `Safety.IdleHeldIsExact` | internal/dispatch/scheduler.go:694-713 | with no thread mid-operation held is exactly the dispatched, non-terminal instances |
| `Safety.IdleSlotsAreExact` | internal/dispatch/scheduler.go:643-713 | with no thread mid-operation slots[j] is the number of instances of j in flight |
| `Safety.NothingLeaks` | internal/dispatch/scheduler.go:694-713 | once everything dispatched is terminal and no thread is active, slots, held and all worker counters are empty |
| `Safety.QueuedHasOneOwner` | internal/dispatch/scheduler.go:373-425 | a queued instance no worker handed back is owned by exactly one thread, timer or queue entry |
| `Safety.NeverDuplicated` | internal/dispatch/scheduler.go:480-507 | no instance is queued or armed twice, and none is bound while held, marked, queued or armed |
| `Safety.PushFindsNoEntry` | internal/dispatch/scheduler.go:417-425 | whoever is about to push an instance finds no queue entry for it |
| `Safety.LoadIsAccounted` | internal/dispatch/scheduler.go:672-713 | a worker's counter never exceeds held entries bound to it plus releases under way; equal unless it was swept; so every bind/release race ends at zero |
| `Safety.TerminalAbsorbs` | internal/repository/instance.go:349-380 | no step makes a terminal row non-terminal, and only stop or cancel can still change its status or result |
| `Safety.TerminalForever` | internal/domain/instance.go:22-29 | the same over any run |
| `Safety.OneTerminalWinner` | internal/dispatch/scheduler.go:822-836 | at most one guarded write takes an instance terminal; retries marked plus threads about to mark one never exceed it, so only its winner's thread ever schedules the retry, once |
| `History.HistoryIsExact` | internal/dispatch/scheduler.go:822-836 | every step moves the recorded history as its rows say: a win is exactly a write other than stop or cancel that ends an open instance, a retry exactly one scheduled, dispatched exactly what was addressed |
| `History.FailureGoesOn` | internal/dispatch/scheduler.go:1162-1177 | a dispatch failure goes on to release and mark the instance for a retry iff its write ended it |
| `History.ReapGoesOn` | internal/dispatch/scheduler.go:822-836 | a reap goes on so iff its write ended the instance |
| `History.ReportGoesOnNowhere` | internal/dservice/instance.go:40-73 | a worker's report never does |
| `Addressee.AddressedIsHeard` | internal/protocol/worker/handler.go:74-88 | once the row is addressed, the address check accepts a report of that worker and of no other |
| `Addressee.RecordedIsHeard` | internal/protocol/worker/handler.go:74-88 | in every reachable state the check accepts the worker recorded for an open instance not handed back, and no other |
| `Instances.TerminalIffEnded` | internal/domain/instance.go:22-29 | terminal are exactly the six ended statuses, retryable failed and timeout, active waiting_receive and running |
| `WorkerPath.ActiveIsBounded` | internal/protocol/worker/handler.go:74-88 | while no report makes an instance active that was never dispatched, every waiting_receive or running row not inherited from an earlier lifetime is held, and a job has at most its limit of them |
| `WorkerPath.ExplainedIff` | internal/dservice/instance.go:40-73 | in every state of a run all active or addressed rows that were not inherited were dispatched in this lifetime, iff no report write of the run makes an open, never dispatched, not inherited row active |
| `WorkerPath.CheckSuffices` | internal/protocol/worker/handler.go:74-88 | a report that passes the address check never does so: runs whose unchecked active reports concern dispatched or inherited instances satisfy the condition |
| `WorkerPath.ReportBreaksIff` | internal/dservice/instance.go:40-73 | a report write ends that link between rows and slots iff it makes an open, never dispatched, not inherited row active |
| `WorkerPath.NeverRedispatched` | internal/dispatch/scheduler.go:1106-1142 | the dispatcher never marks a row that is already waiting_receive or running |
| `Progress.NextStepEnabled` | internal/dispatch/scheduler.go:1106-1159 | in every reachable state every unfinished activity has an enabled next step: no thread is stuck |
| `Progress.StepAdvances` | internal/dispatch/scheduler.go:231-317 | a step moves only its own thread and brings that thread's activity closer to its end |
| `Progress.ActivityEnds` | internal/dispatch/scheduler.go:231-317 | whatever the other threads do, an activity takes at most ten steps of its own |
| `Progress.FinishedIsNotRequeued` | internal/dispatch/scheduler.go:449-468 | requeueing and binding look at the row and let go of the instance iff it is finished |
| `Progress.FinishedIsNotSent` | internal/dispatch/scheduler.go:1116-1125 | marking lets go of the instance iff it is finished: nothing finished is sent |
| `Progress.OutcomesAreFree` | internal/dispatch/scheduler.go:1106-1142 | the registry may answer with any worker or none, and sending may fail, whenever a thread has come that far |
| `Progress.OthersAreFree` | internal/dispatch/scheduler.go:231-317 | timers, the queue consumer, stop, cancel, reaper, reports and sweeps may act at any moment |
| `Scenario.DispatchHappens` | internal/dispatch/scheduler.go:231-317 | a cold start reaches an instance in flight: the limit of a serial job is attained |
| `Scenario.LimitIsAttained` | internal/dispatch/scheduler.go:630-641 | every number of instances in flight up to the limit is reached |
| `Scenario.RetryHappens` | internal/dispatch/scheduler.go:1162-1177 | a cold start reaches a failed dispatch that gave its slot back and is marked for a retry |
| `Scenario.LifeHappens` | internal/dispatch/scheduler.go:231-317 | a cold start reaches an instance dispatched, reported and released, with nothing left in memory |
| `Scenario.UncheckedReportsEscape` | internal/protocol/powerjob/handler.go:102 | without the address check two reports put two active rows on a serial job that holds no slot |
| `Scheduler.Scheduler.TryAcquire` | internal/dispatch/scheduler.go:630-641 | takes a slot iff fewer than max(1, max) are taken; carries out the protocol's claim |
| `Scheduler.Scheduler.ReleaseByJob` | internal/dispatch/scheduler.go:643-653 | gives one slot of the job back, dropping an empty entry; carries out the protocol's step |
| `Scheduler.Scheduler.BindHeld` | internal/dispatch/scheduler.go:664-670 | records app and job of the instance with no address |
| `Scheduler.Scheduler.BindWorkerAddr` | internal/dispatch/scheduler.go:681-692 | address and worker counter change together, and only if the instance is still held |
| `Scheduler.Scheduler.DropHeld` | internal/dispatch/scheduler.go:695-706 | the slotMu section: entry and slot go together, at most once |
| `Scheduler.Scheduler.ReleaseByInstance` | internal/dispatch/scheduler.go:695-713 | entry, slot and worker counter are given back; nothing happens the second time |
| `Scheduler.Scheduler.ReleasedGivesBack` | internal/dispatch/scheduler.go:695-713 | after a release the instance is not bound, its job has exactly one slot less, its worker exactly one instance less, all else as before |
| `Slots.FreeSubtracts` | internal/dispatch/scheduler.go:646-650 | the branch for a count of at most one is an exact decrement wherever a slot is taken |
| `Loads.ReleaseSubtracts` | internal/workerreg/registry.go:220-235 | a release is a decrement floored at zero and touches no other worker |
| `Loads.DeleteClears` | internal/workerreg/registry.go:240-249 | deleting an entry zeroes that worker and no other |
| `WorkerReg.Registry.Heartbeat` | internal/workerreg/registry.go:59-81 | the entry of that worker is as reported and heard from now, so online until the timeout; every other is untouched; an empty app or address changes nothing |
| `WorkerReg.Registry.OnlineLocked` | internal/workerreg/registry.go:83-99 | returns exactly the online workers, in any map order |
| `WorkerReg.Registry.HasOnlineWorker` | internal/workerreg/registry.go:101-105 | true iff some worker of the app is online |
| `WorkerReg.Registry.PickFull` | internal/workerreg/registry.go:132-168 | fails iff no online worker matches; else an online match, least loaded and then highest scored |
| `WorkerReg.Registry.IsOnline` | internal/workerreg/registry.go:171-183 | true iff registered and heard from within the timeout |
| `WorkerReg.Registry.AcquireInflight` | internal/workerreg/registry.go:203-214 | adds one to that worker's counter, nothing for an empty address |
| `WorkerReg.Registry.ReleaseInflight` | internal/workerreg/registry.go:220-235 | subtracts one, removing an entry that reaches zero |
| `WorkerReg.Registry.DeleteInflightLocked` | internal/workerreg/registry.go:240-249 | removes the worker's entry and an app left empty |
| `WorkerReg.Registry.Sweep` | internal/workerreg/registry.go:264-283 | removes exactly the expired workers with their counters and returns how many |
| `WorkerReg.SweepsAreInvisible` | internal/workerreg/registry.go:264-283 | sweeps at any moments never change who is online, then or later |
| `Dispatcher.Dispatcher.FailDispatch` | internal/dispatch/scheduler.go:1162-1177 | an open row becomes failed with the reason, no worker, no start and an end, one notice, and a retry mark iff the job has a retry left; a terminal one stays; the slot goes back either way |
| `Dispatcher.Dispatcher.SendTo` | internal/dispatch/scheduler.go:1116-1141 | an open row that was posted has the address, a start and waiting_receive and is counted at its worker; a failed post fails it as above; a terminal row is never sent |
| `Dispatcher.Dispatcher.DispatchToWorker` | internal/dispatch/scheduler.go:1106-1142 | nothing changes iff no worker of the app is online; none that matches the tag fails the row and marks its retry; else it goes to an online match, least loaded and then highest scored |
| `Dispatcher.Dispatcher.FinalizeReaped` | internal/dispatch/scheduler.go:822-836 | only the write that ends the instance releases it, sends one notice and, if a retry is left, marks it |
| `InstanceStore.InstanceStore.CreateWithCallback` | internal/repository/instance.go:291-306 | inserts the row under a fresh identifier together with its notice |
| `InstanceStore.InstanceStore.MarkDispatchedWithCallback` | internal/repository/instance.go:310-344 | an existing row gets address and start in any case, waiting_receive and its notice iff it was open; nothing else changes |
| `InstanceStore.InstanceStore.UpdateResultWithCallback` | internal/repository/instance.go:349-380 | guarded write of status and result with its notice; reporting queued unbinds the worker |
| `InstanceStore.InstanceStore.FailDispatchWithCallback` | internal/repository/instance.go:390-423 | guarded failure that clears the worker binding, with its notice |
| `InstanceStore.InstanceStore.SetStatusWithCallback` | internal/repository/instance.go:426-458 | unguarded write with its notice; reports no row when no closure was given |
| `InstanceStore.InstanceStore.SetNextRetryTime` | internal/repository/instance.go:176-179 | sets the retry mark of an existing row |
| `InstanceStore.InstanceStore.ClearNextRetryTime` | internal/repository/instance.go:181-186 | succeeds iff the mark was set, and clears it |
| `InstanceStore.InstanceStore.UpdatePriority` | internal/repository/instance.go:190-195 | changes the priority iff the row is queued |
| `InstanceStore.InstanceStore.ExistsRetryChild` | internal/repository/instance.go:462-471 | true iff a row has that root and retry index, both positive |
| `Service.InstanceService.ReportStatus` | internal/dservice/instance.go:40-73 | guarded write; releases iff the row exists and the reported status is terminal |
| `Service.InstanceService.Force` | internal/dservice/instance.go:150-179 | stop and cancel: unguarded write, release in any case |
| `Service.InstanceService.Retry` | internal/dservice/instance.go:183-199 | marks a failed or timed-out instance with retries left; otherwise says why not |
| `Service.InstanceService.SetPriority` | internal/dservice/instance.go:209-225 | changes row and heap together, only while the row is queued; turn kept |
| `Outbox.AgreementIffFaithful` | internal/repository/instance.go:291-458 | agreement of callback rows and status history survives a call iff the call is faithful or the job has no callback_url |
| `Outbox.AtomicIsFaithful` | internal/dservice/instance.go:108-124 | an uninterrupted call is faithful iff it neither relabels a finished instance nor marks a waiting one |
| `Outbox.ChangeIsNotified` | internal/repository/instance.go:271-306 | a proper call that changes a status adds one notice with that status, the job's callback_url and the row as written; one that does not adds nothing |
| `Outbox.OrderlyRunIsHistory` | internal/repository/instance.go:271-306 | after any sequence of uninterrupted calls without relabelling and remarking the callback rows are the status history in id order, at most the last terminal |
| `OutboxRuns.StepIsCall` | internal/repository/instance.go:291-458 | every step of the dispatch protocol changes the rows as one such call does, or not at all |
| `OutboxRuns.OutboxIsHistory` | internal/repository/instance.go:271-306 | so in every such run of the protocol the callback rows of an instance are its status history from creation on, at most the last terminal; that no waiting row is marked again is proved from the protocol |
| `OutboxRuns.FailOverKeepsLedger` | internal/dispatch/scheduler.go:608-621 | the fail-over of one row at start-up keeps callback rows and history in agreement, so the next lifetime starts as the theorem asks |
| `Outbox.SnapshotsInEveryRun` | internal/repository/instance.go:273-276 | in every run each payload shows the row with the status of its own event |
| `Outbox.NoEventNoNotice` | internal/dservice/instance.go:112-119 | a report that is rejected or repeats the status adds nothing |
| `Outbox.RacingReportsRepeat` | internal/dservice/instance.go:44-55 | trigger, dispatch and two reports that read before either writes: the outbox agrees up to the second, which announces the same change twice |
| `Outbox.LateStopIsUnannounced` | internal/dservice/instance.go:88-91 | trigger, dispatch, success and then a stop: the outbox agrees up to the stop, which changes the status without a notice |
| `Ranks.DrainsIffSorted` | internal/dispatch/scheduler.go:335-340 | popping until empty yields each entry once by priority, then turn, and any such order is that one |
| `Ranks.FirstExists` | internal/dispatch/scheduler.go:335-340 | with distinct turns exactly one entry goes next |
| `Ranks.RootIsFirst` | internal/dispatch/scheduler.go:328-331 | in a heap nothing goes before the root |
| `ManualQueue.ManualQueue.Swap` | internal/dispatch/scheduler.go:341-345 | exchanges two items and keeps every item's index equal to its position |
| `ManualQueue.ManualQueue.Up` | internal/dispatch/scheduler.go:332-334 | repairs a heap whose only doubtful edge lies above one place |
| `ManualQueue.ManualQueue.Down` | internal/dispatch/scheduler.go:332-334 | repairs below one place or reports that nothing moved |
| `ManualQueue.ManualQueue.HeapPush` | internal/dispatch/scheduler.go:346-350 | the heap gains exactly the item |
| `ManualQueue.ManualQueue.HeapPop` | internal/dispatch/scheduler.go:351-358 | the heap loses exactly its root |
| `ManualQueue.ManualQueue.HeapFix` | internal/dispatch/scheduler.go:538-541 | repairs a heap after one rank changed |
| `ManualQueue.ManualQueue.PushPending` | internal/dispatch/scheduler.go:417-425 | the set gains the instance with the next turn; heap order, positions and index stay consistent; carries out the protocol's push and timer step |
| `ManualQueue.ManualQueue.PopPending` | internal/dispatch/scheduler.go:515-524 | nothing iff empty; else the first by priority and turn leaves heap, index and the queue's items; carries out the protocol's pop |
| `ManualQueue.ManualQueue.Requeue` | internal/dispatch/scheduler.go:461-468 | the same item returns with the priority just read and its old turn; carries out the protocol's push |
| `ManualDispatcher.ManualDispatcher.NextRound` | internal/dispatch/scheduler.go:428-477 | the first of the queue leaves with a slot iff one is free; refused, it is dropped if it is finished and else stays in its place with only its priority read anew |
| `ManualQueue.ManualQueue.UpdateQueuedPriority` | internal/dispatch/scheduler.go:531-543 | true iff the instance is queued; then its priority changes and nothing else |
| `Recovery.Startup.RecoverStaleActive` | internal/dispatch/scheduler.go:595-626 | every listed row fails over and may be marked for a retry; every other row is untouched |
| `Recovery.Startup.FailOver` | internal/dispatch/scheduler.go:608-621 | a row already terminal is left alone |
| `Recovery.StaleAreGone` | internal/dispatch/scheduler.go:596-606 | no terminal row changes, only active rows older than the grace fail, and below the scan limit none is left |
| `Recovery.SortQueued` | internal/dispatch/scheduler.go:560-565 | a permutation of the list by priority, then creation |
| `Recovery.Startup.RecoverQueued` | internal/dispatch/scheduler.go:552-587 | the queue holds each listed instance of an existing job once, with its stored priority, turns following the sort |
| `Recovery.RecoveredOrder` | internal/dispatch/scheduler.go:545-551 | draining yields every recoverable queued instance exactly once, by priority and then age |
| `Recovery.Startup.Recover` | main.go:132-143 | the two passes in order: the second still sees exactly the queued rows the crash left |
| `Recovery.StartsLifetime` | main.go:132-143 | a process starting from these rows and this queue is in an initial state of the protocol |
| `Lifetimes.OneEndingEver` | internal/dispatch/scheduler.go:595-621 | over any number of crashes at most one guarded write, fail-over included, takes an instance terminal |
| `Lifetimes.TerminalAcrossCrashes` | internal/domain/instance.go:22-29 | a terminal instance is terminal in every later lifetime |
| `RetryChain.StepKeeps` | internal/dispatch/scheduler.go:895-957 | every step keeps chains gapless, one row per index, all pointing at the head |
| `RetryChain.ChainIsExact` | internal/dispatch/scheduler.go:895-957 | in every run, crashes included, one trigger's instances have indices 0..k once each, k at most RetryCount, at most 1 + RetryCount of them |
| `RetryChain.RetryIsNeverLost` | internal/dispatch/scheduler.go:934-938 | every requested retry stays marked, in the pump's hands, or made; a full job only delays it, and so do crashes that find no mark taken and unanswered |
| `RetryChain.CrashLosesNothingIff` | internal/dispatch/scheduler.go:907-919 | a crash after such a run loses no request iff the pump is idle or scanning, or the row it holds is marked again or has its retry |
| `RetryChain.LostForGood` | internal/dispatch/scheduler.go:895-919 | what a crash has lost never comes back, whatever follows, until somebody asks again |
| `RetryChain.CrashLosesRetry` | internal/dispatch/scheduler.go:907-919 | such a loss happens: trigger, failure, request, scan, mark taken, crash |
| `RetryPump.RetryPump.ScheduleRetry` | internal/dispatch/scheduler.go:979-997 | marks the row iff the job exists and has a retry left |
| `RetryPump.RetryPump.RetryInstance` | internal/dispatch/scheduler.go:923-957 | an existing retry is skipped, a full job defers by a second, else a queued row with the next index, the same job, app, priority and root is created and bound |
| `RetryPump.RetryPump.RetryOnce` | internal/dispatch/scheduler.go:895-919 | after a scan a listed instance's mark is gone only if its retry exists or none is left, and set again, a second later, only if its job is full; chains stay exact, other rows are untouched |
| `Claims.NextCursor` | internal/dispatch/scheduler.go:259-272 | the new cursor is absent or later than now, at least the window's start before it, absent after its end |
| `Claims.JobRow.AdvanceNextRun` | internal/repository/job.go:66-76 | succeeds iff the cursor is still the one read |
| `Claims.JobRow.Claim` | internal/dispatch/scheduler.go:245-288 | creates iff the cursor was still the one read and the time lies in the window; the cursor moves on in any successful claim; carries out the claimer's steps of the protocol |
| `DueJob.Execute` | internal/dispatch/scheduler.go:231-288 | after a claim inside the window the cursor is the cron engine's time, the interval later, or absent, as the kind of the schedule says |
| `ClaimRuns.AlwaysGoodIffSound` | internal/dispatch/scheduler.go:217-303 | every continuation of a state, with harmless updates or without any, fires no cursor value twice and nothing outside the window or for a disabled job iff no value that pending claimers can bring the cursor to could fire so |
| `ClaimRuns.UpdateIsSafeIff` | internal/dservice/job.go:109-141 | the same decided for a cursor and window about to be written; a cursor ahead of the clock at the write is always safe |
| `ClaimRuns.ClaimedAtMostOnce` | internal/dispatch/scheduler.go:217-303 | with any number of claimers and updates that are safe in that sense, however late they are written, a cursor value yields at most one automatic instance, inside the window of an enabled job |
| `ClaimRuns.AheadIsAtMostOnce` | internal/dservice/job.go:109-141 | the same when every update writes a cursor ahead of the clock, and then the cursor stays beyond every value claimed |
| `ClaimRuns.AdvanceMovesOn` | internal/repository/job.go:66-76 | a successful claim leaves the cursor absent or strictly later than the time it was computed at |
| `ClaimRuns.PastForGood` | internal/repository/job.go:66-76 | once past, a cursor value comes back only if an update writes it or an earlier one |
| `ClaimRuns.UpdateForestalls` | internal/dservice/job.go:109-141 | a claimer that scanned before a disable or reschedule never succeeds and creates nothing, however late the update was written |
| `ClaimRuns.SlowUpdateFiresTwice` | internal/dservice/job.go:121-140 | an update that writes a cursor computed before that cursor was claimed is not safe: it fires again |
| `ClaimRuns.RacingUpdatesFireDisabled` | internal/dservice/job.go:112-140 | an update that read the job enabled and writes its cursor after another has disabled it is not safe: a claimer that had scanned that cursor fires for the disabled job |
| `CallbackPump.CallbackPump.MarkProgress` | internal/dispatch/callback.go:296-309 | counts the attempt and backs off, or marks dead at the limit and says so |
| `CallbackPump.CallbackPump.HandleFail` | internal/dispatch/callback.go:335-348 | counts the attempt and backs off, or marks dead at the limit |
| `CallbackPump.CallbackPump.Deliver` | internal/dispatch/callback.go:260-278 | one post more; dead at the limit, else sent if it was posted and recorded, else pending with one more attempt, due after the backoff |
| `CallbackPump.CallbackPump.Once` | internal/dispatch/callback.go:254-279 | so for every due callback, once; the others are untouched |
| `CallbackPump.CallbackPump.PurgeOnce` | internal/repository/callback.go:49-55 | removes exactly the sent and dead rows older than the retention |
| `CallbackPump.BoundedDelivery` | internal/dispatch/callback.go:254-309 | in every run a callback is posted at most max(1, MaxAttempts) times, MarkSent failing at will |
| `CallbackPump.RecordedIsLast` | internal/dispatch/callback.go:266-276 | a delivery below the limit that arrived and was recorded is the last one, and the row stays sent |
| `CallbackPump.NewIsDue` | internal/repository/callback.go:20-29 | a new callback can be delivered from its creation on |
| `CallbackPump.DeliveryTerminates` | internal/dispatch/callback.go:266-271 | every delivery uses up one attempt left; when none is left the callback is no longer pending |
| `CallbackPump.SettledForGood` | internal/repository/callback.go:31-47 | sent and dead are final: unchanged until purged, never delivered again |
| `CallbackPump.PendingIsKept` | internal/repository/callback.go:49-55 | no purge removes or changes a pending callback, and it can be delivered again from its next time on |
| `Backoff.DefaultBackoffIsExact` | internal/config/config.go:216-221 | with the default 10 s and 3600 s the backoff is min(10 s * 2^attempt, 3600 s) for every attempt, overflowing ones included |
| `Backoff.CallbackBackoffInRange` | internal/dispatch/callback.go:283-289 | for any positive configuration it lies in (0, cap] |
| `Backoff.CallbackBackoffExact` | internal/dispatch/callback.go:283-289 | and is exact while the product stays below 2^63 |
| `RetryDelays.RetryBackoff` | internal/dispatch/scheduler.go:1004-1023 | returns the wrapped loop for every cap; for caps up to 2^62 ns that is min(base * 2^index, max(base, cap)) in at most 33 turns, half an hour where no maximum and a second where no interval is set |
| `RetryDelays.HonouredIff` | internal/dispatch/scheduler.go:1004-1023 | the loop gives that closed form for every interval and index iff the cap is at most 2^62 + 512 ns |
| `RetryDelays.RetryDelayMonotone` | internal/dispatch/scheduler.go:998-1003 | the delay grows with the index and stays between base and max(base, cap) |
| `RetryDelays.LargeCapFails` | internal/dispatch/scheduler.go:1015-1022 | with 3 s, a maximum of 9223372036 s and index 33 the delay falls short of the one due |
| `SchedTime.AcceptedIsWithinAYear` | internal/schedtime/next.go:75-98 | an accepted interval gives a next time in (from, from + 365 days] |
| `SchedTime.AcceptedIff` | internal/schedtime/next.go:75-98 | acceptance and value decided: positive and, modulo 2^64, in (0, one year] |
| `SchedTime.ExactIff` | internal/schedtime/next.go:80-84 | accepted and exact iff the interval is positive and at most a year; longer ones that fit int64 are rejected |
| `SchedTime.PeriodicInNumber` | internal/schedtime/next.go:80-84 | numbers 2^58 ms (2^55 s) apart are treated alike |
| `SchedTime.WrapsFromLeast` | internal/schedtime/next.go:75-98 | below 18446744073710 ms (18446744074 s for delay) acceptance means the interval asked for; that number is accepted and means 448384 ns (290448384 ns) |
| `SchedTime.WrappedIsOneMillisecond` | internal/schedtime/next.go:79-86 | 2^58 + 1 ms is accepted and means 1 ms |
| `SchedTime.KindsDecided` | internal/schedtime/next.go:64-101 | cron answers the engine's time or its error; api, run_at and the empty kind, and no others, answer no run; unknown kinds, missing numbers and intervals over a year are errors |
| `SchedTime.NextIsAfter` | internal/schedtime/next.go:64-101 | with a cron engine that looks ahead, an accepted next run is absent or later than from |
| `LoginLimiter.LoginLimiter.Allow` | internal/protocol/own/auth.go:154-168 | counts the attempt in its window and admits it iff the window is new or not full |
| `LoginLimiter.LoginLimiter.Reap` | internal/protocol/own/auth.go:171-184 | removes exactly the windows older than one window length |
| `LoginLimiter.LoginAllowed` | internal/protocol/own/auth.go:143-157 | no limiter admits everyone |
| `LoginBounds.WindowAdmitsMaxIff` | internal/protocol/own/auth.go:161-167 | in any run, attempts in any order and reaps included, a window admits exactly min(attempts in it, max), iff attempts lag at most one window behind a reap |
| `LoginBounds.AtMostTwice` | internal/protocol/own/auth.go:154-184 | no closed interval of one window length admits more than 2 * max attempts of one address, if attempts lag at most a tick behind a reap and none read its clock before the start of its window (for max 2: less than a window before) |
| `LoginBounds.SingleAtMostTwice` | internal/protocol/own/auth.go:154-184 | with max 1 the same in any order of attempts, and with reaps up to half a window ahead |
| `LoginOrder.AtMostTwiceIff` | internal/protocol/own/auth.go:154-184 | the bound decided for all runs by max, the window, and how far attempts lag behind one another and behind a reap |
| `LoginOrder.StragglersPass` | internal/protocol/own/auth.go:158-167 | attempts that enter after the window following theirs was opened: 3 * max - 2 or more in one interval |
| `LoginOrder.OverrunPasses` | internal/protocol/own/auth.go:171-184 | attempts two ticks behind the reaper, in order otherwise: 3 * max - 1 or more in one interval |
| `LoginLimiter.ReapChangesIff` | internal/protocol/own/auth.go:158-178 | a reap changes the verdict on the next attempt iff it removed a full window that the attempt, by the clock it had read, belongs to |
| `LoginLimiter.ReaperIsInvisible` | internal/protocol/own/auth.go:170-184 | while attempts lag at most a tick behind a reap, the reaper changes no verdict, now or later |
| `LoginLimiter.InvisibleIff` | internal/protocol/own/auth.go:170-184 | and that lag is the exact condition over all runs from the empty table |
| `LoginLimiter.OvertakenIsAdmitted` | internal/protocol/own/auth.go:158-178 | an attempt two ticks behind the reaper is let through although its window was full |

The preservation lemmas of `MoveSteps`, `BookSteps`, `HeldSteps` and the `...Keeps` lemmas of the other
modules are the cases of the inductions above.

## Left out

- HTTP handlers, the POST to a worker, GORM and SQL text, log files, sessions, configuration loading, wire
  translation and the web interface: input and output. Sending and the workers are nondeterministic.
- The list queries (`ListDue`, `ListRetryDue`, `ListGeneralizedActive`, `ListQueued`, `ListUnboundQueued`): their
  answers are parameters that satisfy the WHERE clause and the limit; the ORDER BY of a truncated list is not modelled.
- Choosing what to reap (`stallReason`, warm-up, receive timeout, unbound queued instances): in the protocol the
  reaper may end any instance at any moment, which covers every choice.
- `JobService.Delete` with instances in flight, and the administrator's `SetStatus`, which no route calls: rows are
  not deleted and not revived.
- Panics, goroutine restarts and orderly shutdown: a panic between taking and binding a slot is not slot-safe in the program either.
- Reports of a status that is not one of the nine: statuses are a datatype, so the whitelist has nothing to reject.
- Cron parsing: an oracle. The 5-field engine answers the zero time for an expression that never matches, and
  `NextCron` passes that on; results that need a later time say so.
- Jitter (`applyJitter`, `parseJitterRange`) and with it `computeRetryInterval`: floating point and random.
- MySQL's count of changed rows: rows affected are rows matched.
- Duration, tag, parameters and HTTP fields of an instance, and the worker's metrics other than its score: no guard reads them.
- Two scheduler processes on one database: the retry pump is a single thread, as it is in one process.
- Scheduler.Scheduler.BindHeld: the notification of the queue's consumer (`wake`) is not modelled here or in the
  releases; the protocol lets the consumer act at any time.
- Recovery.SortQueued: an insertion sort stands for the library's sort; only its contract, any order of equal
  entries, is used.
- RetryChain.RetryIsNeverLost: database calls of the pump succeed; one that fails between the two statements
  loses a retry as a crash there does.
- CallbackPump.BoundedDelivery: a crash between the post and the statement that counts it is not in the runs.
- OutboxRuns.OutboxIsHistory: speaks of jobs whose `callback_url` does not change, with callbacks enabled; a report,
  stop or cancel reads the row in the step that writes it, no stop or cancel concerns a finished instance, and
  reports are as in `WorkerPath.ActiveIsBounded`. `Outbox.AgreementIffFaithful` covers the other calls.
- ManualDispatcher.ManualDispatcher.NextRound: waiting for `wake` or 100 ms and starting the goroutine that
  dispatches are left out; nobody else acts between the statements of one round.
- ClaimRuns.ClaimedAtMostOnce: says at most once, not that a due cursor is claimed.
- Service.InstanceService.ReportStatus: the instance log is not modelled.
- Safety.QueuedHasOneOwner: an instance a worker handed back by reporting queued is excluded, because the program
  leaves a manual one to a stop or a restart.
