/** The outbox over runs of the dispatch protocol with callbacks enabled: every database step
    of the protocol is one call of Outbox.dfy. */
module OutboxRuns {
  import opened Counting
  import opened Instances
  import opened InstanceStore
  import opened Outbox
  import opened Invariants
  import opened MoveSteps
  import opened Safety
  import opened WorkerPath
  import Recovery
  import RetryChain
  import D = Dispatch

  // The call a step amounts to. Reports, stops and cancels read the row in the step that writes it.
  function CallOf(cfg: D.Config, s: D.State, a: D.Action): Option<Timed>
    requires D.Enabled(cfg, s, a)
  {
    match a
    case OfTrigger(ACreate(_, i, r)) => Some(Timed(Trigger(i, r), 0))
    case OfTrigger(ASubmit(_, i, r)) => Some(Timed(Trigger(i, r), 0))
    case OfDispatch(AMarkTx(t, now)) => Some(Timed(Dispatch(s.threads[t].i, s.threads[t].addr), now))
    case OfDispatch(AFail(t, reason, now)) => Some(Timed(DispatchFailure(s.threads[t].i, reason), now))
    case OfRelease(ASchedule(t, at)) =>
      var i := s.threads[t].i;
      if at.Some? then Some(Timed(Touch(i, s.rows[i].(nextRetry := at)), 0)) else None
    case OfWriter(AWriteReport(t, result, now)) =>
      var i := s.threads[t].i;
      Some(Timed(Report(i, s.threads[t].status, result, s.rows[i].status), now))
    case OfWriter(AStop(_, i, status, now)) =>
      Some(Timed(Force(i, status, if status.Stopped? then "OpenAPI stop" else "OpenAPI cancel", s.rows[i].status), now))
    case OfWriter(AReap(_, i, status, reason, now)) => Some(Timed(Reap(i, status, reason), now))
    case OfWriter(ATouch(_, i, r)) => Some(Timed(Touch(i, r), 0))
    case _ => None
  }

  // Callbacks enabled: MarkDispatched is one transaction. No stop or cancel of a finished instance.
  predicate Calm(s: D.State, a: D.Action) {
    (a.OfDispatch? ==> !a.da.AAddress? && !a.da.AMark?) &&
    (a.OfWriter? && a.wa.AStop? && a.wa.i in s.rows && s.rows[a.wa.i].Terminal() ==>
       s.rows[a.wa.i].status == a.wa.status)
  }

  function Booked(cfg: D.Config, urls: Urls, s: D.State, a: D.Action, l: Ledger): Ledger
    requires D.Enabled(cfg, s, a)
  {
    var c := CallOf(cfg, s, a);
    if c.None? then l else Step(urls, l, c.value.c, c.value.now)
  }

  // No queued row carries an address: with callbacks enabled none ever does.
  ghost predicate QueuedIsBare(rows: Rows) {
    forall i | i in rows && rows[i].status.Queued? :: rows[i].addr == ""
  }

  // ----- each step is its call -----

  lemma TriggerIsCall(cfg: D.Config, urls: Urls, s: D.State, a: D.TriggerAction, l: Ledger)
    requires D.TriggerEnabled(cfg, s, a) && l.db.rows == s.rows
    ensures Booked(cfg, urls, s, D.OfTrigger(a), l).db.rows == D.ApplyTrigger(cfg, s, a).rows
  {
  }

  lemma DispatchIsCall(cfg: D.Config, urls: Urls, s: D.State, a: D.DispatchAction, l: Ledger)
    requires D.DispatchEnabled(s, a) && l.db.rows == s.rows && Calm(s, D.OfDispatch(a))
    ensures Booked(cfg, urls, s, D.OfDispatch(a), l).db.rows == D.ApplyDispatch(s, a).rows
  {
    if a.AMarkTx? || a.AFail? {
      assert s.rows[s.threads[a.t].i := s.rows[s.threads[a.t].i]] == s.rows;
    }
  }

  lemma WriterIsCall(cfg: D.Config, urls: Urls, s: D.State, a: D.WriterAction, l: Ledger)
    requires D.WriterEnabled(s, a) && l.db.rows == s.rows
    ensures Booked(cfg, urls, s, D.OfWriter(a), l).db.rows == D.ApplyWriter(s, a).rows
  {
    match a
    case AWriteReport(_, _, _) => ReportIsCall(cfg, urls, s, a, l);
    case AStop(_, _, _, _) => ForceIsCall(cfg, urls, s, a, l);
    case AReap(_, _, _, _, _) => ReapIsCall(cfg, urls, s, a, l);
    case _ =>
  }

  lemma ReportIsCall(cfg: D.Config, urls: Urls, s: D.State, a: D.WriterAction, l: Ledger)
    requires D.WriterEnabled(s, a) && l.db.rows == s.rows && a.AWriteReport?
    ensures Booked(cfg, urls, s, D.OfWriter(a), l).db.rows == D.ApplyWriter(s, a).rows
  {
    var i := s.threads[a.t].i;
    assert i in s.rows ==> s.rows[i := s.rows[i]] == s.rows;
  }

  lemma ForceIsCall(cfg: D.Config, urls: Urls, s: D.State, a: D.WriterAction, l: Ledger)
    requires D.WriterEnabled(s, a) && l.db.rows == s.rows && a.AStop?
    ensures Booked(cfg, urls, s, D.OfWriter(a), l).db.rows == D.ApplyWriter(s, a).rows
  {
    assert a.i in s.rows ==> s.rows[a.i := s.rows[a.i]] == s.rows;
  }

  lemma ReapIsCall(cfg: D.Config, urls: Urls, s: D.State, a: D.WriterAction, l: Ledger)
    requires D.WriterEnabled(s, a) && l.db.rows == s.rows && a.AReap?
    ensures Booked(cfg, urls, s, D.OfWriter(a), l).db.rows == D.ApplyWriter(s, a).rows
  {
    assert a.i in s.rows ==> s.rows[a.i := s.rows[a.i]] == s.rows;
  }

  lemma StepIsCall(cfg: D.Config, urls: Urls, s: D.State, a: D.Action, l: Ledger)
    requires D.Enabled(cfg, s, a) && l.db.rows == s.rows && Calm(s, a)
    ensures Booked(cfg, urls, s, a, l).db.rows == D.Apply(cfg, s, a).rows
  {
    match a
    case OfTrigger(ta) => TriggerIsCall(cfg, urls, s, ta, l);
    case OfQueue(qa) => QueueRows(cfg, s, qa);
    case OfDispatch(da) => DispatchIsCall(cfg, urls, s, da, l);
    case OfRelease(_) =>
    case OfWriter(wa) => WriterIsCall(cfg, urls, s, wa, l);
  }

  // ----- each call is proper -----

  ghost predicate ProperCall(cfg: D.Config, s: D.State, a: D.Action, db: Db)
    requires D.Enabled(cfg, s, a)
  {
    CallOf(cfg, s, a).Some? ==> Proper(db, CallOf(cfg, s, a).value.c)
  }

  // The dispatcher holds an instance of this lifetime that was not marked, so it is not active.
  lemma MarkIsProper(cfg: D.Config, s: D.State, kept: set<int>, a: D.DispatchAction, db: Db)
    requires D.DispatchEnabled(s, a) && Local(s, PcOf(s, a.t)) && RowsExplained(s, kept) && s.managed !! kept
    requires db.rows == s.rows && Calm(s, D.OfDispatch(a))
    ensures ProperCall(cfg, s, D.OfDispatch(a), db)
  {
    if a.AMarkTx? {
      assert s.threads[a.t].i in s.managed;
    }
  }

  lemma WriterIsProper(cfg: D.Config, s: D.State, a: D.WriterAction, db: Db)
    requires D.WriterEnabled(s, a) && db.rows == s.rows && Calm(s, D.OfWriter(a))
    ensures ProperCall(cfg, s, D.OfWriter(a), db)
  {
  }

  lemma OtherIsProper(cfg: D.Config, s: D.State, a: D.Action, db: Db)
    requires D.Enabled(cfg, s, a) && db.rows == s.rows && (a.OfTrigger? || a.OfQueue? || a.OfRelease?)
    ensures ProperCall(cfg, s, a, db)
  {
  }

  lemma CallIsProper(cfg: D.Config, s: D.State, kept: set<int>, a: D.Action, db: Db)
    requires RowsExplained(s, kept) && s.managed !! kept && D.Enabled(cfg, s, a)
    requires a.OfDispatch? ==> Local(s, PcOf(s, a.da.t))
    requires db.rows == s.rows && Calm(s, a)
    ensures ProperCall(cfg, s, a, db)
  {
    match a
    case OfDispatch(da) => MarkIsProper(cfg, s, kept, da, db);
    case OfWriter(wa) => WriterIsProper(cfg, s, wa, db);
    case _ => OtherIsProper(cfg, s, a, db);
  }

  // ----- runs -----

  // The protocol state and the rows inherited at the start.
  ghost predicate StateKept(s: D.State, kept: set<int>) {
    RowsExplained(s, kept) && s.managed !! kept && kept <= s.rows.Keys && QueuedIsBare(s.rows)
  }

  // The ledger kept along the run.
  ghost predicate LedgerKept(urls: Urls, s: D.State, l: Ledger) {
    l.db.rows == s.rows && Agreement(urls, l) && EndsOnce(l.past)
  }

  lemma ProperKeeps(urls: Urls, l: Ledger, c: Call, now: int)
    requires Agreement(urls, l) && EndsOnce(l.past) && Proper(l.db, c)
    ensures Agreement(urls, Step(urls, l, c, now)) && EndsOnce(Step(urls, l, c, now).past)
  {
    AtomicIsFaithful(l.db, c);
    AgreementIffFaithful(urls, l, c, now);
    StepEndsOnce(urls, l, c, now);
  }

  // New instances are no inherited ones, rows stay, and queued rows stay bare.
  ghost predicate Grows(s: D.State, e: D.State) {
    s.rows.Keys <= e.rows.Keys && (forall i | i in e.managed && i !in s.managed :: i !in s.rows) &&
    forall i | i in e.rows && e.rows[i].status.Queued? && e.rows[i].addr != "" ::
      i in s.rows && s.rows[i].status.Queued? && s.rows[i].addr != ""
  }

  lemma DispatchGrows(s: D.State, a: D.DispatchAction)
    requires D.DispatchEnabled(s, a) && Calm(s, D.OfDispatch(a))
    ensures Grows(s, D.ApplyDispatch(s, a))
  {
  }

  lemma QueueGrows(cfg: D.Config, s: D.State, a: D.QueueAction)
    requires D.QueueEnabled(cfg, s, a)
    ensures Grows(s, D.ApplyQueue(cfg, s, a))
  {
    QueueRows(cfg, s, a);
    QueueManaged(cfg, s, a);
  }

  lemma QueueManaged(cfg: D.Config, s: D.State, a: D.QueueAction)
    requires D.QueueEnabled(cfg, s, a)
    ensures D.ApplyQueue(cfg, s, a).managed == s.managed
  {
  }

  lemma TriggerGrows(cfg: D.Config, s: D.State, a: D.TriggerAction)
    requires D.TriggerEnabled(cfg, s, a)
    ensures Grows(s, D.ApplyTrigger(cfg, s, a))
  {
  }

  lemma WriterGrows(s: D.State, a: D.WriterAction)
    requires D.WriterEnabled(s, a)
    ensures Grows(s, D.ApplyWriter(s, a))
  {
  }

  lemma ReleaseGrows(s: D.State, a: D.ReleaseAction)
    requires D.ReleaseEnabled(s, a)
    ensures Grows(s, D.ApplyRelease(s, a))
  {
  }

  lemma StepGrows(cfg: D.Config, s: D.State, a: D.Action)
    requires D.Enabled(cfg, s, a) && Calm(s, a)
    ensures Grows(s, D.Apply(cfg, s, a))
  {
    match a
    case OfTrigger(ta) => TriggerGrows(cfg, s, ta);
    case OfQueue(qa) => QueueGrows(cfg, s, qa);
    case OfDispatch(da) => DispatchGrows(s, da);
    case OfRelease(ra) => ReleaseGrows(s, ra);
    case OfWriter(wa) => WriterGrows(s, wa);
  }

  lemma GrowthKeeps(s: D.State, e: D.State, kept: set<int>)
    requires StateKept(s, kept) && Grows(s, e) && RowsExplained(e, kept)
    ensures StateKept(e, kept)
  {
    forall i | i in e.managed ensures i !in kept {
      assert i in kept ==> i in s.rows.Keys;
    }
    assert QueuedIsBare(e.rows);
  }

  lemma StepKeepsState(cfg: D.Config, s: D.State, kept: set<int>, a: D.Action)
    requires Inv(cfg, s) && StateKept(s, kept) && D.Enabled(cfg, s, a) && Calm(s, a) && !Activates(s, kept, a)
    ensures Inv(cfg, D.Apply(cfg, s, a)) && StateKept(D.Apply(cfg, s, a), kept)
  {
    StepKeeps(cfg, s, a);
    StepExplained(cfg, s, a, kept);
    StepGrows(cfg, s, a);
    GrowthKeeps(s, D.Apply(cfg, s, a), kept);
  }

  lemma StepKeepsLedger(cfg: D.Config, urls: Urls, s: D.State, kept: set<int>, a: D.Action, l: Ledger)
    requires StateKept(s, kept) && LedgerKept(urls, s, l) && D.Enabled(cfg, s, a) && Calm(s, a)
    requires a.OfDispatch? ==> Local(s, PcOf(s, a.da.t))
    ensures LedgerKept(urls, D.Apply(cfg, s, a), Booked(cfg, urls, s, a, l))
  {
    StepIsCall(cfg, urls, s, a, l);
    CallIsProper(cfg, s, kept, a, l.db);
    var c := CallOf(cfg, s, a);
    if c.Some? {
      ProperKeeps(urls, l, c.value.c, c.value.now);
    }
  }

  lemma StepKeepsBoth(cfg: D.Config, urls: Urls, s: D.State, kept: set<int>, a: D.Action, l: Ledger)
    requires Inv(cfg, s) && StateKept(s, kept) && LedgerKept(urls, s, l)
    requires D.Enabled(cfg, s, a) && Calm(s, a) && !Activates(s, kept, a)
    ensures Inv(cfg, D.Apply(cfg, s, a)) && StateKept(D.Apply(cfg, s, a), kept)
    ensures LedgerKept(urls, D.Apply(cfg, s, a), Booked(cfg, urls, s, a, l))
  {
    if a.OfDispatch? {
      InvLocal(cfg, s, a.da.t);
    }
    StepKeepsState(cfg, s, kept, a);
    StepKeepsLedger(cfg, urls, s, kept, a, l);
  }

  // A run of calm steps in which no report activates an undispatched instance, and the ledger at its end.
  ghost predicate CalmRun(cfg: D.Config, s: D.State, kept: set<int>, run: seq<D.Action>)
    decreases |run|
  {
    run == [] ||
    (D.Enabled(cfg, s, run[0]) && Calm(s, run[0]) && !Activates(s, kept, run[0]) &&
     CalmRun(cfg, D.Apply(cfg, s, run[0]), kept, run[1..]))
  }

  ghost function LedgerAfter(
    cfg: D.Config, urls: Urls, s: D.State, kept: set<int>, run: seq<D.Action>, l: Ledger): Ledger
    requires CalmRun(cfg, s, kept, run)
    decreases |run|
  {
    if run == [] then l
    else LedgerAfter(cfg, urls, D.Apply(cfg, s, run[0]), kept, run[1..], Booked(cfg, urls, s, run[0], l))
  }

  lemma {:induction false} RunKeepsLedger(
    cfg: D.Config, urls: Urls, s: D.State, kept: set<int>, run: seq<D.Action>, e: D.State, l: Ledger)
    requires Inv(cfg, s) && StateKept(s, kept) && LedgerKept(urls, s, l)
    requires D.Runs(cfg, s, run, e) && CalmRun(cfg, s, kept, run)
    ensures StateKept(e, kept) && LedgerKept(urls, e, LedgerAfter(cfg, urls, s, kept, run, l))
    decreases |run|
  {
    if run != [] {
      StepKeepsBoth(cfg, urls, s, kept, run[0], l);
      RunKeepsLedger(cfg, urls, D.Apply(cfg, s, run[0]), kept, run[1..], e, Booked(cfg, urls, s, run[0], l));
    }
  }

  // What RecoverQueued recovers is queued, hence bare, hence not inherited.
  lemma StartKeeps(cfg: D.Config, s: D.State)
    requires D.Init(cfg, s) && QueuedIsBare(s.rows)
    ensures StateKept(s, Inherited(s))
  {
    forall i | i in s.managed ensures i !in Inherited(s) {
      assert s.rows[i].status.Queued?;
    }
    InitExplained(cfg, s);
  }

  /** In every run of the protocol with callbacks enabled, no report that activates an undispatched
      instance and no stop of a finished one, started from a table and outbox in agreement: the callback rows of an
      instance are its status history from creation on, at most the last terminal. What a crash
      leaves is again a table and outbox in agreement, with no address on a queued row. */
  lemma OutboxIsHistory(
    cfg: D.Config, urls: Urls, s: D.State, run: seq<D.Action>, e: D.State, l: Ledger, i: int)
    requires D.Init(cfg, s) && QueuedIsBare(s.rows) && LedgerKept(urls, s, l)
    requires D.Runs(cfg, s, run, e) && CalmRun(cfg, s, Inherited(s), run)
    ensures var le := LedgerAfter(cfg, urls, s, Inherited(s), run, l);
            TellsAll(urls, le, i) && (i in e.rows <==> i in le.past) &&
            LedgerKept(urls, e, le) && QueuedIsBare(e.rows)
  {
    InitHolds(cfg, s);
    StartKeeps(cfg, s);
    RunKeepsLedger(cfg, urls, s, Inherited(s), run, e, l);
    AgreementTells(urls, LedgerAfter(cfg, urls, s, Inherited(s), run, l), i);
  }

  lemma StaleFails(urls: Urls, l: Ledger, i: int, now: int) returns (e: Ledger)
    requires Agreement(urls, l) && EndsOnce(l.past) && QueuedIsBare(l.db.rows)
    requires i in l.db.rows && l.db.rows[i].status.Active()
    ensures Agreement(urls, e) && EndsOnce(e.past) && QueuedIsBare(e.db.rows)
    ensures e.db.rows == l.db.rows[i := Instances.WithResult(l.db.rows[i], Failed, Recovery.REASON, now)]
  {
    e := Step(urls, l, Reap(i, Failed, Recovery.REASON), now);
    ProperKeeps(urls, l, Reap(i, Failed, Recovery.REASON), now);
  }

  /** Start-up's fail-over of one row is two proper calls, so that between two lifetimes the
      ledger is kept too and the next run starts as the theorem asks. */
  lemma FailOverKeepsLedger(urls: Urls, l: Ledger, limits: RetryChain.Limits, i: int, wait: int, now: int)
    returns (e: Ledger)
    requires Agreement(urls, l) && EndsOnce(l.past) && QueuedIsBare(l.db.rows)
    requires i in l.db.rows && l.db.rows[i].status.Active()
    ensures Agreement(urls, e) && EndsOnce(e.past) && QueuedIsBare(e.db.rows)
    ensures e.db.rows == l.db.rows[i := Recovery.FailedOver(limits, l.db.rows[i], wait, now)]
  {
    e := StaleFails(urls, l, i, now);
    if RetryChain.MayRetry(limits, l.db.rows[i]) {
      var marked := Touch(i, e.db.rows[i].(nextRetry := Some(now + wait)));
      ProperKeeps(urls, e, marked, now);
      e := Step(urls, e, marked, now);
    }
  }
}
