/** Agreement of the callback outbox with the status history of every instance. A call is one
    service or scheduler operation that writes a status; for the calls that read the row
    before they write, seen is the status they read. */
module Outbox {
  import opened Instances
  import opened InstanceStore

  datatype Call =
    | Trigger(i: int, r: Row)
    | Dispatch(i: int, addr: string)
    | DispatchFailure(i: int, reason: string)
    | Reap(i: int, status: Status, reason: string)
    | Report(i: int, status: Status, result: string, seen: Status)
    | Force(i: int, status: Status, reason: string, seen: Status)
    | Touch(i: int, r: Row) // priority or next_retry_time, outside the callback paths

  type Urls = map<int, string>

  function UrlOf(urls: Urls, job: int): string {
    if job in urls then urls[job] else ""
  }

  // A new identifier, failures that are retryable, forces that are stops or cancels.
  predicate Valid(db: Db, c: Call) {
    match c
    case Trigger(i, r) => i !in db.rows && r.status == Queued
    case Reap(_, status, _) => status.Retryable()
    case Force(_, status, _, _) => status.Stopped? || status.Canceled?
    case Touch(i, r) => i in db.rows ==> r == db.rows[i].(priority := r.priority, nextRetry := r.nextRetry)
    case _ => true
  }

  // statusCallbackFrom and statusCallback build nothing for what looks terminal or unchanged.
  function StatusBuilder(url: string, seen: Status, status: Status): Builder {
    if seen.Terminal() || seen == status then NoBuilder else Builds(status, url)
  }

  function Do(urls: Urls, db: Db, c: Call, now: int): Db {
    if c.Trigger? then Write(db, c.i, c.r, Builds(Queued, UrlOf(urls, c.r.job)))
    else if c.i !in db.rows then db
    else
      var url := UrlOf(urls, db.rows[c.i].job);
      match c
      case Dispatch(i, addr) => MarkDispatchedDb(db, i, addr, Builds(WaitingReceive, url), now)
      case DispatchFailure(i, reason) => FailDispatchDb(db, i, reason, Builds(Failed, url), now)
      case Reap(i, status, reason) => UpdateResultDb(db, i, status, reason, Builds(status, url), now)
      case Report(i, status, result, seen) =>
        UpdateResultDb(db, i, status, result, StatusBuilder(url, seen, status), now)
      case Force(i, status, reason, seen) =>
        SetStatusDb(db, i, status, reason, StatusBuilder(url, seen, status), now)
      case Touch(i, r) => Write(db, i, r, NoBuilder)
  }

  // ----- histories -----

  // The statuses an instance has gone through, from creation on, without repetition.
  type Histories = map<int, seq<Status>>

  datatype Ledger = Ledger(db: Db, past: Histories)

  function Grown(past: Histories, rows: Rows, i: int): Histories {
    if i !in rows then past
    else if i !in past then past[i := [rows[i].status]]
    else if past[i] != [] && past[i][|past[i]| - 1] == rows[i].status then past
    else past[i := past[i] + [rows[i].status]]
  }

  function Step(urls: Urls, l: Ledger, c: Call, now: int): Ledger {
    var db := Do(urls, l.db, c, now);
    Ledger(db, Grown(l.past, db.rows, c.i))
  }

  // Histories belong to rows and end in the present.
  ghost predicate Recorded(l: Ledger) {
    l.past.Keys == l.db.rows.Keys &&
    forall i | i in l.past :: l.past[i] != [] && l.past[i][|l.past[i]| - 1] == l.db.rows[i].status
  }

  // The events of i's callback rows in id order.
  function Events(outbox: seq<Notice>, i: int): seq<Status> {
    if outbox == [] then []
    else
      var last := outbox[|outbox| - 1];
      Events(outbox[..|outbox| - 1], i) + if last.instance == i then [last.event] else []
  }

  ghost predicate Agrees(urls: Urls, l: Ledger, i: int)
    requires i in l.db.rows && Recorded(l)
  {
    Events(l.db.outbox, i) == if UrlOf(urls, l.db.rows[i].job) == "" then [] else l.past[i]
  }

  ghost predicate Agreement(urls: Urls, l: Ledger) {
    Recorded(l) && (forall i | i in l.db.rows :: Agrees(urls, l, i)) &&
    forall i | i !in l.db.rows :: Events(l.db.outbox, i) == []
  }

  // What the call announces is what it changes.
  predicate Faithful(db: Db, c: Call) {
    match c
    case Trigger(_, _) => true
    case Dispatch(i, _) => i in db.rows ==> db.rows[i].status != WaitingReceive
    case DispatchFailure(_, _) => true
    case Reap(_, _, _) => true
    case Touch(_, _) => true
    case Report(i, status, _, seen) =>
      i in db.rows && !db.rows[i].Terminal() ==> (seen.Terminal() || seen == status <==> db.rows[i].status == status)
    case Force(i, status, _, seen) =>
      i in db.rows ==> (seen.Terminal() || seen == status <==> db.rows[i].status == status)
  }

  predicate Silent(urls: Urls, db: Db, i: int) { i in db.rows && UrlOf(urls, db.rows[i].job) == "" }

  lemma EventsAnnounced(outbox: seq<Notice>, i: int, r: Row, b: Builder, x: int)
    ensures Events(Announced(outbox, i, r, b), x) ==
            Events(outbox, x) + if x == i && b.Builds? && b.url != "" then [b.event] else []
  {
    if b.Builds? && b.url != "" {
      var n := Notice(i, b.event, b.url, r);
      assert (outbox + [n])[..|outbox|] == outbox;
    }
  }

  // What a call announces about its own instance, and that it announces nothing else.
  function Announces(urls: Urls, db: Db, c: Call): seq<Status> {
    if c.Trigger? then (if UrlOf(urls, c.r.job) == "" then [] else [Queued])
    else if c.i !in db.rows || UrlOf(urls, db.rows[c.i].job) == "" then []
    else if db.rows[c.i].Terminal() && !c.Force? then []
    else match c
      case Dispatch(_, _) => [WaitingReceive]
      case DispatchFailure(_, _) => [Failed]
      case Reap(_, status, _) => [status]
      case Report(_, status, _, seen) => if seen.Terminal() || seen == status then [] else [status]
      case Force(_, status, _, seen) => if seen.Terminal() || seen == status then [] else [status]
      case Touch(_, _) => []
  }

  lemma CallAnnounces(urls: Urls, db: Db, c: Call, now: int, x: int)
    requires Valid(db, c)
    ensures Events(Do(urls, db, c, now).outbox, x) ==
            Events(db.outbox, x) + if x == c.i then Announces(urls, db, c) else []
  {
    var e := Do(urls, db, c, now);
    if e.outbox != db.outbox {
      var b := if c.Trigger? then Builds(Queued, UrlOf(urls, c.r.job))
               else Builds(Announces(urls, db, c)[0], UrlOf(urls, db.rows[c.i].job));
      assert e.outbox == Announced(db.outbox, c.i, e.rows[c.i], b);
      EventsAnnounced(db.outbox, c.i, e.rows[c.i], b, x);
    }
  }

  /** A call that changes a status tells the job's callback_url so, with the row as the call left
      it; one that changes none tells nothing. */
  lemma ChangeIsNotified(urls: Urls, db: Db, c: Call, now: int)
    requires Proper(db, c)
    ensures var e, i := Do(urls, db, c, now), c.i;
            if i in e.rows && (i !in db.rows || db.rows[i].status != e.rows[i].status)
            then var job := e.rows[i].job;
                 e.outbox == db.outbox + if job in urls && urls[job] != ""
                                         then [Notice(i, e.rows[i].status, urls[job], e.rows[i])] else []
            else e.outbox == db.outbox
  {
  }

  // A call touches its own row only, and never moves an instance to another job.
  lemma CallWrites(urls: Urls, db: Db, c: Call, now: int)
    requires Valid(db, c)
    ensures var e := Do(urls, db, c, now).rows;
            e.Keys == db.rows.Keys + (if c.Trigger? then {c.i} else {}) &&
            (forall x | x in db.rows :: e[x].job == db.rows[x].job && (x != c.i ==> e[x] == db.rows[x]))
  {
  }

  // What the history gains.
  function Changes(db: Db, e: Db, i: int): seq<Status> {
    if i !in e.rows then []
    else if i in db.rows && db.rows[i].status == e.rows[i].status then []
    else [e.rows[i].status]
  }

  lemma GrownSuffix(l: Ledger, e: Db, i: int)
    requires Recorded(l) && i in e.rows
    ensures i in Grown(l.past, e.rows, i)
    ensures Grown(l.past, e.rows, i)[i] == (if i in l.past then l.past[i] else []) + Changes(l.db, e, i)
  {
  }

  lemma GrownRecords(l: Ledger, e: Db, i: int)
    requires Recorded(l)
    requires e.rows.Keys == l.db.rows.Keys || (e.rows.Keys == l.db.rows.Keys + {i} && i !in l.db.rows)
    requires forall x | x in l.db.rows && x != i :: e.rows[x] == l.db.rows[x]
    ensures Recorded(Ledger(e, Grown(l.past, e.rows, i)))
    ensures forall x | x in l.past && x != i ::
              x in Grown(l.past, e.rows, i) && Grown(l.past, e.rows, i)[x] == l.past[x]
  {
    var past := Grown(l.past, e.rows, i);
    assert forall x | x in l.past && x != i :: past[x] == l.past[x];
    if i in e.rows {
      assert i in past && past[i] != [] && past[i][|past[i]| - 1] == e.rows[i].status;
    }
  }

  lemma StepRecords(urls: Urls, l: Ledger, c: Call, now: int)
    requires Recorded(l) && Valid(l.db, c)
    ensures var e := Step(urls, l, c, now);
            Recorded(e) &&
            (forall x | x in l.past && x != c.i :: x in e.past && e.past[x] == l.past[x]) &&
            (c.i in e.past ==> e.past[c.i] == (if c.i in l.past then l.past[c.i] else []) + Changes(l.db, e.db, c.i))
  {
    CallWrites(urls, l.db, c, now);
    GrownRecords(l, Do(urls, l.db, c, now), c.i);
    if c.i in Do(urls, l.db, c, now).rows {
      GrownSuffix(l, Do(urls, l.db, c, now), c.i);
    }
  }

  // A call is faithful exactly when it announces the change it makes.
  lemma FaithfulAnnounces(urls: Urls, db: Db, c: Call, now: int)
    requires Valid(db, c)
    ensures Silent(urls, db, c.i) ==> Announces(urls, db, c) == []
    ensures !Silent(urls, db, c.i) && (c.Trigger? ==> UrlOf(urls, c.r.job) != "") ==>
              (Faithful(db, c) <==> Announces(urls, db, c) == Changes(db, Do(urls, db, c, now), c.i))
  {
  }

  lemma OthersAgree(urls: Urls, l: Ledger, e: Ledger, i: int, x: int)
    requires Recorded(l) && Recorded(e) && x != i && x in l.db.rows && x in e.db.rows && Agrees(urls, l, x)
    requires e.past[x] == l.past[x] && e.db.rows[x].job == l.db.rows[x].job
    requires Events(e.db.outbox, x) == Events(l.db.outbox, x) + []
    ensures Agrees(urls, e, x)
  {
  }

  // The callback rows of the instance a call is about, before and after.
  lemma OwnAgrees(urls: Urls, l: Ledger, c: Call, now: int)
    requires Agreement(urls, l) && Valid(l.db, c)
    requires Recorded(Step(urls, l, c, now)) && c.i in Step(urls, l, c, now).db.rows
    ensures Agrees(urls, Step(urls, l, c, now), c.i) <==> Faithful(l.db, c) || Silent(urls, l.db, c.i)
  {
    var e := Step(urls, l, c, now);
    StepRecords(urls, l, c, now);
    CallWrites(urls, l.db, c, now);
    FaithfulAnnounces(urls, l.db, c, now);
    CallAnnounces(urls, l.db, c, now, c.i);
    assert c.i in l.db.rows ==> Agrees(urls, l, c.i);
  }

  /** The outbox keeps agreeing with the histories exactly through the faithful calls (an
      unfaithful one is harmless only for a job without callback_url). */
  lemma AgreementIffFaithful(urls: Urls, l: Ledger, c: Call, now: int)
    requires Agreement(urls, l) && Valid(l.db, c)
    ensures Agreement(urls, Step(urls, l, c, now)) <==> Faithful(l.db, c) || Silent(urls, l.db, c.i)
  {
    var e := Step(urls, l, c, now);
    StepRecords(urls, l, c, now);
    CallWrites(urls, l.db, c, now);
    forall x | x != c.i ensures Events(e.db.outbox, x) == Events(l.db.outbox, x) + [] {
      CallAnnounces(urls, l.db, c, now, x);
    }
    forall x | x in e.db.rows && x != c.i ensures Agrees(urls, e, x) {
      OthersAgree(urls, l, e, c.i, x);
    }
    if c.i in e.db.rows {
      OwnAgrees(urls, l, c, now);
    } else {
      CallAnnounces(urls, l.db, c, now, c.i);
    }
  }

  // The call reads the row and writes it without interference.
  predicate Atomic(db: Db, c: Call) {
    (c.Report? || c.Force?) && c.i in db.rows ==> c.seen == db.rows[c.i].status
  }

  // A stop or cancel that relabels an instance already finished otherwise.
  predicate Relabels(db: Db, c: Call) {
    c.Force? && c.i in db.rows && db.rows[c.i].Terminal() && db.rows[c.i].status != c.status
  }

  // A dispatch of an instance that already waits for its worker.
  predicate Redispatches(db: Db, c: Call) {
    c.Dispatch? && c.i in db.rows && db.rows[c.i].status == WaitingReceive
  }

  predicate Proper(db: Db, c: Call) {
    Valid(db, c) && Atomic(db, c) && !Relabels(db, c) && !Redispatches(db, c)
  }

  lemma AtomicIsFaithful(db: Db, c: Call)
    requires Valid(db, c) && Atomic(db, c)
    ensures Faithful(db, c) <==> !Relabels(db, c) && !Redispatches(db, c)
  {
  }

  // ----- whole runs -----

  datatype Timed = Timed(c: Call, now: int)

  function Run(urls: Urls, l: Ledger, calls: seq<Timed>): Ledger
    decreases |calls|
  {
    if calls == [] then l else Run(urls, Step(urls, l, calls[0].c, calls[0].now), calls[1..])
  }

  // Every call of the run is atomic and neither relabels nor redispatches.
  ghost predicate Orderly(urls: Urls, l: Ledger, calls: seq<Timed>)
    decreases |calls|
  {
    calls == [] ||
    (Proper(l.db, calls[0].c) &&
     Orderly(urls, Step(urls, l, calls[0].c, calls[0].now), calls[1..]))
  }

  const EMPTY := Ledger(Db(map[], []), map[])

  // No status follows a terminal one.
  ghost predicate EndsOnce(past: Histories) {
    forall i, k | i in past && 0 <= k < |past[i]| - 1 :: !past[i][k].Terminal()
  }

  lemma StepEndsOnce(urls: Urls, l: Ledger, c: Call, now: int)
    requires Recorded(l) && EndsOnce(l.past) && Valid(l.db, c) && !Relabels(l.db, c)
    ensures EndsOnce(Step(urls, l, c, now).past)
  {
    StepRecords(urls, l, c, now);
  }

  lemma {:induction false} OrderlyRun(urls: Urls, l: Ledger, calls: seq<Timed>)
    requires Agreement(urls, l) && EndsOnce(l.past) && Orderly(urls, l, calls)
    ensures Agreement(urls, Run(urls, l, calls)) && EndsOnce(Run(urls, l, calls).past)
    decreases |calls|
  {
    if calls != [] {
      var c, now := calls[0].c, calls[0].now;
      AtomicIsFaithful(l.db, c);
      AgreementIffFaithful(urls, l, c, now);
      StepEndsOnce(urls, l, c, now);
      OrderlyRun(urls, Step(urls, l, c, now), calls[1..]);
    }
  }

  // i's callback rows are its history, they end in the present, and only the last can be terminal.
  ghost predicate TellsAll(urls: Urls, e: Ledger, i: int) {
    i in e.db.rows && i in e.past && UrlOf(urls, e.db.rows[i].job) != "" ==>
      var events := Events(e.db.outbox, i);
      events == e.past[i] && events != [] && events[|events| - 1] == e.db.rows[i].status &&
      forall k | 0 <= k < |events| - 1 :: !events[k].Terminal()
  }

  lemma AgreementTells(urls: Urls, e: Ledger, i: int)
    requires Agreement(urls, e) && EndsOnce(e.past)
    ensures TellsAll(urls, e, i) && (i in e.db.rows <==> i in e.past)
  {
    assert i in e.db.rows ==> Agrees(urls, e, i);
  }

  lemma EmptyAgrees(urls: Urls)
    ensures Agreement(urls, EMPTY) && EndsOnce(EMPTY.past)
  {
  }

  /** After any orderly run from an empty table, the callback rows of an instance with a
      callback_url are its status history from creation on, and only the last can be terminal. */
  lemma OrderlyRunIsHistory(urls: Urls, calls: seq<Timed>, i: int)
    requires Orderly(urls, EMPTY, calls)
    ensures TellsAll(urls, Run(urls, EMPTY, calls), i)
    ensures i in Run(urls, EMPTY, calls).db.rows <==> i in Run(urls, EMPTY, calls).past
  {
    EmptyAgrees(urls);
    OrderlyRun(urls, EMPTY, calls);
    AgreementTells(urls, Run(urls, EMPTY, calls), i);
  }

  // Every notice carries the row as its own event left it, in any run at all.
  ghost predicate Snapshots(db: Db) {
    forall n | n in db.outbox :: n.snapshot.status == n.event && n.instance in db.rows
  }

  lemma StepSnapshots(urls: Urls, db: Db, c: Call, now: int)
    requires Valid(db, c) && Snapshots(db)
    ensures Snapshots(Do(urls, db, c, now))
  {
    CallWrites(urls, db, c, now);
  }

  ghost predicate ValidRun(urls: Urls, l: Ledger, calls: seq<Timed>)
    decreases |calls|
  {
    calls == [] ||
    (Valid(l.db, calls[0].c) && ValidRun(urls, Step(urls, l, calls[0].c, calls[0].now), calls[1..]))
  }

  lemma {:induction false} SnapshotsInEveryRun(urls: Urls, l: Ledger, calls: seq<Timed>)
    requires Snapshots(l.db) && ValidRun(urls, l, calls)
    ensures Snapshots(Run(urls, l, calls).db)
    decreases |calls|
  {
    if calls != [] {
      StepSnapshots(urls, l.db, calls[0].c, calls[0].now);
      SnapshotsInEveryRun(urls, Step(urls, l, calls[0].c, calls[0].now), calls[1..]);
    }
  }

  // A report the guard rejects, or that repeats the status, leaves the outbox as it was.
  lemma NoEventNoNotice(urls: Urls, db: Db, c: Call, now: int)
    requires c.Report? && c.i in db.rows && Atomic(db, c)
    requires db.rows[c.i].Terminal() || db.rows[c.i].status == c.status
    ensures Do(urls, db, c, now).outbox == db.outbox
  {
  }

  // ----- how agreement is lost -----

  // Instance 1 alone, of a job with a callback_url, with its history and its callback rows.
  ghost predicate Alone(urls: Urls, l: Ledger, past: seq<Status>, events: seq<Status>) {
    l.db.rows.Keys == {1} && Recorded(l) && UrlOf(urls, l.db.rows[1].job) != "" &&
    l.past == map[1 := past] && Events(l.db.outbox, 1) == events
  }

  lemma AloneStep(urls: Urls, l: Ledger, past: seq<Status>, events: seq<Status>, c: Call, now: int)
    requires Alone(urls, l, past, events) && Valid(l.db, c) && !c.Trigger? && c.i == 1
    ensures Alone(urls, Step(urls, l, c, now), past + Changes(l.db, Do(urls, l.db, c, now), 1),
                  events + Announces(urls, l.db, c))
  {
    StepRecords(urls, l, c, now);
    CallWrites(urls, l.db, c, now);
    CallAnnounces(urls, l.db, c, now, 1);
    assert Step(urls, l, c, now).past.Keys == {1};
  }

  lemma AloneDisagrees(urls: Urls, l: Ledger, past: seq<Status>, events: seq<Status>)
    requires Alone(urls, l, past, events) && past != events
    ensures !Agreement(urls, l)
  {
    assert 1 in l.db.rows;
    assert Agreement(urls, l) ==> Agrees(urls, l, 1);
  }

  // A trigger and its dispatch, with nothing else going on.
  lemma DispatchedLedger(urls: Urls, r: Row, addr: string, now: int) returns (l: Ledger)
    requires r.status == Queued && UrlOf(urls, r.job) != ""
    ensures l == Step(urls, Step(urls, EMPTY, Trigger(1, r), now), Dispatch(1, addr), now)
    ensures Agreement(urls, l) && Alone(urls, l, [Queued, WaitingReceive], [Queued, WaitingReceive])
  {
    var l1 := Step(urls, EMPTY, Trigger(1, r), now);
    l := Step(urls, l1, Dispatch(1, addr), now);
    EmptyAgrees(urls);
    AgreementIffFaithful(urls, EMPTY, Trigger(1, r), now);
    assert Agrees(urls, l1, 1);
    assert Alone(urls, l1, [Queued], [Queued]);
    AgreementIffFaithful(urls, l1, Dispatch(1, addr), now);
    AloneStep(urls, l1, [Queued], [Queued], Dispatch(1, addr), now);
    assert [Queued] + [WaitingReceive] == [Queued, WaitingReceive];
  }

  // Trigger, dispatch and one report, as a run.
  function ReportedRun(r: Row, addr: string, c: Call, now: int): seq<Timed> {
    [Timed(Trigger(1, r), now), Timed(Dispatch(1, addr), now), Timed(c, now)]
  }

  lemma ReportAgrees(urls: Urls, m: Ledger, status: Status, now: int) returns (l: Ledger)
    requires Agreement(urls, m) && status != WaitingReceive && status != Queued
    requires Alone(urls, m, [Queued, WaitingReceive], [Queued, WaitingReceive])
    ensures l == Step(urls, m, Report(1, status, "", WaitingReceive), now)
    ensures Agreement(urls, l) && Alone(urls, l, [Queued, WaitingReceive, status], [Queued, WaitingReceive, status])
  {
    var c := Report(1, status, "", WaitingReceive);
    l := Step(urls, m, c, now);
    assert m.db.rows[1].status == WaitingReceive;
    AgreementIffFaithful(urls, m, c, now);
    AloneStep(urls, m, [Queued, WaitingReceive], [Queued, WaitingReceive], c, now);
    assert [Queued, WaitingReceive] + [status] == [Queued, WaitingReceive, status];
  }

  lemma ReportedLedger(urls: Urls, r: Row, addr: string, status: Status, now: int) returns (l: Ledger)
    requires r.status == Queued && UrlOf(urls, r.job) != "" && status != WaitingReceive && status != Queued
    ensures l == Run(urls, EMPTY, ReportedRun(r, addr, Report(1, status, "", WaitingReceive), now))
    ensures Agreement(urls, l) && Alone(urls, l, [Queued, WaitingReceive, status], [Queued, WaitingReceive, status])
  {
    var c := Report(1, status, "", WaitingReceive);
    var m := DispatchedLedger(urls, r, addr, now);
    l := ReportAgrees(urls, m, status, now);
    RunOfThree(urls, EMPTY, Timed(Trigger(1, r), now), Timed(Dispatch(1, addr), now), Timed(c, now));
  }

  lemma RunOfThree(urls: Urls, l: Ledger, a: Timed, b: Timed, c: Timed)
    ensures Run(urls, l, [a, b, c]) == Step(urls, Step(urls, Step(urls, l, a.c, a.now), b.c, b.now), c.c, c.now)
  {
    assert [a, b, c][1..] == [b, c];
    assert [b, c][1..] == [c];
    assert [c][1..] == [];
    var l1 := Step(urls, l, a.c, a.now);
    var l2 := Step(urls, l1, b.c, b.now);
    assert Run(urls, l2, [c]) == Step(urls, l2, c.c, c.now);
    assert Run(urls, l1, [b, c]) == Run(urls, l2, [c]);
  }

  lemma ReportAgain(urls: Urls, before: Ledger, now: int) returns (after: Ledger)
    requires Alone(urls, before, [Queued, WaitingReceive, Running], [Queued, WaitingReceive, Running])
    ensures after == Step(urls, before, Report(1, Running, "", WaitingReceive), now) && !Agreement(urls, after)
    ensures Alone(urls, after, [Queued, WaitingReceive, Running], [Queued, WaitingReceive, Running, Running])
  {
    var c := Report(1, Running, "", WaitingReceive);
    after := Step(urls, before, c, now);
    var three := [Queued, WaitingReceive, Running];
    AloneStep(urls, before, three, three, c, now);
    assert three + [] == three && three + [Running] == [Queued, WaitingReceive, Running, Running];
    AloneDisagrees(urls, after, three, three + [Running]);
  }

  /** Two reports that both read the row before either writes: the outbox agrees until the
      second one, which announces the same change again. */
  lemma RacingReportsRepeat(urls: Urls, r: Row, addr: string, now: int) returns (before: Ledger, after: Ledger)
    requires r.status == Queued && UrlOf(urls, r.job) != ""
    ensures var c := Report(1, Running, "", WaitingReceive);
            before == Run(urls, EMPTY, ReportedRun(r, addr, c, now)) && after == Step(urls, before, c, now) &&
            Valid(before.db, c) && !Atomic(before.db, c)
    ensures Agreement(urls, before) && !Agreement(urls, after)
    ensures Alone(urls, after, [Queued, WaitingReceive, Running], [Queued, WaitingReceive, Running, Running])
  {
    before := ReportedLedger(urls, r, addr, Running, now);
    after := ReportAgain(urls, before, now);
  }

  lemma StopLate(urls: Urls, before: Ledger, now: int) returns (after: Ledger)
    requires Alone(urls, before, [Queued, WaitingReceive, Success], [Queued, WaitingReceive, Success])
    ensures after == Step(urls, before, Force(1, Stopped, "OpenAPI stop", Success), now) && !Agreement(urls, after)
    ensures Alone(urls, after, [Queued, WaitingReceive, Success, Stopped], [Queued, WaitingReceive, Success])
  {
    var c := Force(1, Stopped, "OpenAPI stop", Success);
    after := Step(urls, before, c, now);
    var three := [Queued, WaitingReceive, Success];
    AloneStep(urls, before, three, three, c, now);
    assert three + [] == three && three + [Stopped] == [Queued, WaitingReceive, Success, Stopped];
    AloneDisagrees(urls, after, three + [Stopped], three);
  }

  /** A stop that comes after the success: the outbox agrees until the stop, which changes the
      status without telling anybody. */
  lemma LateStopIsUnannounced(urls: Urls, r: Row, addr: string, now: int) returns (before: Ledger, after: Ledger)
    requires r.status == Queued && UrlOf(urls, r.job) != ""
    ensures var c := Force(1, Stopped, "OpenAPI stop", Success);
            before == Run(urls, EMPTY, ReportedRun(r, addr, Report(1, Success, "", WaitingReceive), now)) &&
            after == Step(urls, before, c, now) && Valid(before.db, c) && Atomic(before.db, c) && Relabels(before.db, c)
    ensures Agreement(urls, before) && !Agreement(urls, after)
    ensures Alone(urls, after, [Queued, WaitingReceive, Success, Stopped], [Queued, WaitingReceive, Success])
  {
    before := ReportedLedger(urls, r, addr, Success, now);
    after := StopLate(urls, before, now);
  }
}
