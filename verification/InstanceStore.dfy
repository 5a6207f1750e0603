/** internal/repository/instance.go: the instance table and the callback outbox that is
    written in the same transaction. */
module InstanceStore {
  import opened Counting
  import opened Instances

  // The build closure: absent when callbacks are off, else made for one event and one job.
  datatype Builder = NoBuilder | Builds(event: Status, url: string)

  // One row of instance_callback; snapshot is the instance as the transaction left it.
  datatype Notice = Notice(instance: int, event: Status, url: string, snapshot: Row)

  datatype Db = Db(rows: Rows, outbox: seq<Notice>)

  // The build closure yields nothing for a job without callback_url.
  function Announced(outbox: seq<Notice>, i: int, latest: Row, b: Builder): seq<Notice> {
    if b.Builds? && b.url != "" then outbox + [Notice(i, b.event, b.url, latest)] else outbox
  }

  function Write(db: Db, i: int, r: Row, b: Builder): Db {
    Db(db.rows[i := r], Announced(db.outbox, i, r, b))
  }

  // A write whose WHERE clause excludes terminal rows.
  function GuardedWrite(db: Db, i: int, r: Row, b: Builder): Db {
    if i in db.rows && !db.rows[i].Terminal() then Write(db, i, r, b) else db
  }

  function MarkDispatchedDb(db: Db, i: int, addr: string, b: Builder, now: int): Db {
    if i !in db.rows then db
    else
      var mid := db.(rows := db.rows[i := Addressed(db.rows[i], addr, now)]);
      GuardedWrite(mid, i, Dispatched(mid.rows[i]), b)
  }

  function UpdateResultDb(db: Db, i: int, status: Status, result: string, b: Builder, now: int): Db {
    if i in db.rows then GuardedWrite(db, i, Reported(db.rows[i], status, result, now), b) else db
  }

  function FailDispatchDb(db: Db, i: int, reason: string, b: Builder, now: int): Db {
    if i in db.rows then GuardedWrite(db, i, DispatchFailed(db.rows[i], reason, now), b) else db
  }

  function SetStatusDb(db: Db, i: int, status: Status, result: string, b: Builder, now: int): Db {
    if i in db.rows then Write(db, i, Forced(db.rows[i], status, result, now), b) else db
  }

  class InstanceStore {
    var rows: Rows
    var outbox: seq<Notice>
    var nextId: int

    ghost function View(): Db
      reads this
    {
      Db(rows, outbox)
    }

    // Identifiers are positive and count up.
    ghost predicate Valid()
      reads this
    {
      nextId > 0 && forall i | i in rows :: 0 < i < nextId
    }

    constructor ()
      ensures Valid() && View() == Db(map[], [])
    {
      rows, outbox, nextId := map[], [], 1;
    }

    // tx.Create(cb) when build yields a notice.
    method Announce(i: int, latest: Row, b: Builder)
      modifies this`outbox
      ensures outbox == Announced(old(outbox), i, latest, b)
    {
      if b.Builds? && b.url != "" {
        outbox := outbox + [Notice(i, b.event, b.url, latest)];
      }
    }

    method CreateWithCallback(r: Row, b: Builder) returns (i: int)
      requires Valid()
      modifies this
      ensures Valid() && i !in old(rows) && i == old(nextId)
      ensures View() == Write(old(View()), i, r, b)
      ensures rows == old(rows)[i := r]
      ensures outbox == old(outbox) + if b.Builds? && b.url != "" then [Notice(i, b.event, b.url, r)] else []
    {
      i := nextId;
      rows, nextId := rows[i := r], nextId + 1;
      Announce(i, r, b);
    }

    method MarkDispatchedWithCallback(i: int, addr: string, b: Builder, now: int) returns (matched: nat)
      requires Valid()
      modifies this`rows, this`outbox
      ensures Valid() && View() == MarkDispatchedDb(old(View()), i, addr, b, now)
      ensures matched == if i in old(rows) && !old(rows)[i].status.Terminal() then 1 else 0
      ensures i !in old(rows) ==> rows == old(rows)
      ensures i in old(rows) ==>
                var r := old(rows)[i];
                rows == old(rows)[i := r.(addr := addr, start := Some(now),
                                          status := if r.status.Terminal() then r.status else WaitingReceive)]
      ensures outbox == old(outbox) +
                        if matched == 1 && b.Builds? && b.url != "" then [Notice(i, b.event, b.url, rows[i])] else []
    {
      if i !in rows {
        return 0;
      }
      rows := rows[i := rows[i].(addr := addr, start := Some(now))];
      if rows[i].status.Terminal() {
        return 0;
      }
      rows := rows[i := rows[i].(status := WaitingReceive)];
      Announce(i, rows[i], b);
      matched := 1;
    }

    method UpdateResultWithCallback(i: int, status: Status, result: string, b: Builder, now: int) returns (matched: nat)
      requires Valid()
      modifies this`rows, this`outbox
      ensures Valid() && View() == UpdateResultDb(old(View()), i, status, result, b, now)
      ensures matched == if i in old(rows) && !old(rows)[i].status.Terminal() then 1 else 0
      ensures matched == 0 ==> rows == old(rows)
      ensures matched == 1 ==>
                var r := old(rows)[i];
                rows == old(rows)[i := r.(status := status,
                                          result := if result == "" then r.result else result,
                                          end := if status.Terminal() then Some(now) else r.end,
                                          addr := if status == Queued then "" else r.addr,
                                          start := if status == Queued then None else r.start)]
      ensures outbox == old(outbox) +
                        if matched == 1 && b.Builds? && b.url != "" then [Notice(i, b.event, b.url, rows[i])] else []
    {
      if i !in rows || rows[i].status.Terminal() {
        return 0;
      }
      var r := rows[i].(status := status);
      if result != "" {
        r := r.(result := result);
      }
      if status.Terminal() {
        r := r.(end := Some(now));
      }
      if status == Queued {
        r := r.(addr := "", start := None);
      }
      rows := rows[i := r];
      Announce(i, r, b);
      matched := 1;
    }

    method FailDispatchWithCallback(i: int, reason: string, b: Builder, now: int) returns (matched: nat)
      requires Valid()
      modifies this`rows, this`outbox
      ensures Valid() && View() == FailDispatchDb(old(View()), i, reason, b, now)
      ensures matched == if i in old(rows) && !old(rows)[i].status.Terminal() then 1 else 0
      ensures matched == 0 ==> rows == old(rows)
      ensures matched == 1 ==>
                var r := old(rows)[i];
                rows == old(rows)[i := r.(status := Failed, result := if reason == "" then r.result else reason,
                                          addr := "", start := None, end := Some(now))]
      ensures outbox == old(outbox) +
                        if matched == 1 && b.Builds? && b.url != "" then [Notice(i, b.event, b.url, rows[i])] else []
    {
      if i !in rows || rows[i].status.Terminal() {
        return 0;
      }
      var r := rows[i].(status := Failed, addr := "", start := None, end := Some(now));
      if reason != "" {
        r := r.(result := reason);
      }
      rows := rows[i := r];
      Announce(i, r, b);
      matched := 1;
    }

    // The path without a closure reports no row, whatever it wrote.
    method SetStatusWithCallback(i: int, status: Status, result: string, b: Builder, now: int) returns (matched: nat)
      requires Valid()
      modifies this`rows, this`outbox
      ensures Valid() && View() == SetStatusDb(old(View()), i, status, result, b, now)
      ensures matched == if b.Builds? && i in old(rows) then 1 else 0
      ensures i !in old(rows) ==> rows == old(rows)
      ensures i in old(rows) ==>
                var r := old(rows)[i];
                rows == old(rows)[i := r.(status := status, result := if result == "" then r.result else result,
                                          end := if status.Terminal() then Some(now) else None)]
      ensures outbox == old(outbox) +
                        if matched == 1 && b.Builds? && b.url != "" then [Notice(i, b.event, b.url, rows[i])] else []
    {
      if i !in rows {
        return 0;
      }
      var r := rows[i].(status := status, end := if status.Terminal() then Some(now) else None);
      if result != "" {
        r := r.(result := result);
      }
      rows := rows[i := r];
      Announce(i, r, b);
      matched := if b.Builds? then 1 else 0;
    }

    method SetNextRetryTime(i: int, at: int)
      requires Valid()
      modifies this`rows
      ensures Valid() && rows.Keys == old(rows).Keys
      ensures rows == if i in old(rows) then old(rows)[i := old(rows)[i].(nextRetry := Some(at))] else old(rows)
    {
      if i in rows {
        rows := rows[i := rows[i].(nextRetry := Some(at))];
      }
    }

    // Of any number of callers only the one that finds the mark gets it.
    method ClearNextRetryTime(i: int) returns (got: bool)
      requires Valid()
      modifies this`rows
      ensures Valid() && (got <==> i in old(rows) && old(rows)[i].nextRetry.Some?)
      ensures rows == if got then old(rows)[i := old(rows)[i].(nextRetry := None)] else old(rows)
    {
      got := i in rows && rows[i].nextRetry.Some?;
      if got {
        rows := rows[i := rows[i].(nextRetry := None)];
      }
    }

    method UpdatePriority(i: int, priority: int) returns (matched: nat)
      requires Valid()
      modifies this`rows
      ensures Valid() && (matched == if i in old(rows) && old(rows)[i].status.Queued? then 1 else 0)
      ensures rows == if matched == 1 then old(rows)[i := old(rows)[i].(priority := priority)] else old(rows)
    {
      if i !in rows || rows[i].status != Queued {
        return 0;
      }
      rows := rows[i := rows[i].(priority := priority)];
      matched := 1;
    }

    method ExistsRetryChild(root: int, index: int) returns (yes: bool)
      ensures yes <==> root > 0 && index > 0 && AnyRetry(rows, root, index)
      ensures yes <==> root > 0 && index > 0 &&
                       exists i :: i in rows && rows[i].root == root && rows[i].retryIndex == index
    {
      if root <= 0 || index <= 0 {
        return false;
      }
      var order := RangeOver(rows.Keys);
      for n := 0 to |order|
        invariant forall i | i in order[..n] :: !IsRetry(rows, i, root, index)
      {
        if IsRetry(rows, order[n], root, index) {
          return true;
        }
      }
      assert order[..|order|] == order;
      yes := false;
    }
  }

  predicate IsRetry(rows: Rows, i: int, root: int, index: int) {
    i in rows && rows[i].root == root && rows[i].retryIndex == index
  }

  ghost predicate AnyRetry(rows: Rows, root: int, index: int) {
    exists i :: IsRetry(rows, i, root, index)
  }
}
