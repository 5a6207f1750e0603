/** Instance rows: the nine statuses, the fields the kernel reads, and every write that
    internal/repository/instance.go performs on a row, as functions from the old row to the
    new one. A guarded write leaves a terminal row alone; a forced one does not. */
module Instances {
  import opened Counting

  datatype Status =
    | Queued | WaitingReceive | Running
    | Success | Failed | Timeout | Skipped | Canceled | Stopped
  {
    predicate Terminal() { !(Queued? || WaitingReceive? || Running?) }

    predicate Retryable() { Failed? || Timeout? }

    predicate Active() { WaitingReceive? || Running? }
  }

  datatype Trigger = Auto | Manual | Retry

  // The six statuses nothing follows, and the three a worker or a dispatcher still works on.
  lemma TerminalIffEnded(s: Status)
    ensures s.Terminal() <==> s in {Success, Failed, Timeout, Skipped, Canceled, Stopped}
    ensures s.Retryable() <==> s in {Failed, Timeout}
    ensures s.Active() <==> !s.Terminal() && s != Queued
  {
  }

  // addr == "" stands for a NULL or empty worker_address; times are nanoseconds.
  datatype Row = Row(
    job: int, app: int, trigger: Trigger, priority: int, status: Status,
    result: string, addr: string, start: Option<int>, end: Option<int>,
    retryIndex: nat, root: int, nextRetry: Option<int>, created: int)
  {
    predicate Terminal() { status.Terminal() }
  }

  type Rows = map<int, Row>

  function RootOf(id: int, r: Row): int {
    if r.root == 0 then id else r.root
  }

  // A row as every trigger path creates it.
  function NewRow(job: int, app: int, trigger: Trigger, priority: int, retryIndex: nat, root: int, now: int): Row {
    Row(job, app, trigger, priority, Queued, "", "", None, None, retryIndex, root, None, now)
  }

  // ----- row writes -----

  // First statement of MarkDispatched: unconditional, even on a terminal row.
  function Addressed(r: Row, addr: string, now: int): Row {
    r.(addr := addr, start := Some(now))
  }

  // Second statement of MarkDispatched, guarded.
  function Dispatched(r: Row): Row {
    if r.Terminal() then r else r.(status := WaitingReceive)
  }

  // resultFields applied to a row the guard lets through.
  function WithResult(r: Row, status: Status, result: string, now: int): Row {
    var r1 := r.(status := status, result := if result != "" then result else r.result);
    var r2 := if status.Terminal() then r1.(end := Some(now)) else r1;
    if status.Queued? then r2.(addr := "", start := None) else r2
  }

  function Reported(r: Row, status: Status, result: string, now: int): Row {
    if r.Terminal() then r else WithResult(r, status, result, now)
  }

  function DispatchFailed(r: Row, reason: string, now: int): Row {
    if r.Terminal() then r
    else r.(status := Failed, addr := "", start := None, end := Some(now),
            result := if reason != "" then reason else r.result)
  }

  // SetStatus: forceStatusFields, no guard.
  function Forced(r: Row, status: Status, result: string, now: int): Row {
    r.(status := status, result := if result != "" then result else r.result,
       end := if status.Terminal() then Some(now) else None)
  }
}
