/** Steps that move one thread and write at most one row: the slot maps, the counters, the
    queue and the timers stay as they were. */
module MoveSteps {
  import opened Counting
  import opened Instances
  import opened Dispatch
  import opened Invariants

  ghost predicate SameBooks(s: State, e: State) {
    e.slots == s.slots && e.held == s.held && e.loads == s.loads && e.releasing == s.releasing &&
    e.swept == s.swept && e.queue == s.queue && e.timers == s.timers &&
    e.managed == s.managed && e.prior == s.prior
  }

  // No row appears or disappears, changes owner job, or leaves a terminal status.
  ghost predicate RowsEvolve(s: State, e: State) {
    e.rows.Keys == s.rows.Keys &&
    forall i | i in s.rows ::
      e.rows[i].job == s.rows[i].job && e.rows[i].app == s.rows[i].app &&
      (s.rows[i].Terminal() ==> e.rows[i].Terminal())
  }

  function PcOf(s: State, t: int): Pc { if t in s.threads then s.threads[t] else Done }

  // t moves to pc, keeping what it owns unless the instance is terminal or dispatched.
  ghost predicate Moves(s: State, e: State, t: int, pc: Pc) {
    var was := PcOf(s, t);
    SameBooks(s, e) && RowsEvolve(s, e) && e.threads == s.threads[t := pc] &&
    pc.Token() == was.Token() &&
    (pc.Owned() == was.Owned() ||
     (pc.Owned() == None && was.Owned().Some? && was.i in s.rows &&
      (e.rows[was.i].Terminal() || was.i in s.marked))) &&
    s.marked <= e.marked &&
    (forall i | i in e.marked && i !in s.marked :: was.Owned() == Some(i) && was.Dispatches() && pc.Dispatches())
  }

  lemma MoveCounts(s: State, e: State, t: int, pc: Pc)
    requires SlotsExact(s.slots, s.threads, s.held) && OneOwner(s) && Moves(s, e, t, pc)
    ensures SlotsExact(e.slots, e.threads, e.held)
    ensures forall i :: Owners(e, i) + Bit(PcOf(s, t).Owned() == Some(i)) == Owners(s, i) + Bit(pc.Owned() == Some(i))
    ensures OneOwner(e)
  {
    ThreadCounts(s.threads, t, pc);
    forall i ensures Owners(e, i) + Bit(PcOf(s, t).Owned() == Some(i)) == Owners(s, i) + Bit(pc.Owned() == Some(i)) {
    }
    forall i ensures Owners(e, i) <= 1 {
      assert Owners(s, i) <= 1;
    }
  }

  lemma MoveOrphans(s: State, e: State, t: int, pc: Pc)
    requires SlotsExact(s.slots, s.threads, s.held) && OneOwner(s) && NothingOrphaned(s) && Moves(s, e, t, pc)
    ensures NothingOrphaned(e)
  {
    MoveCounts(s, e, t, pc);
    forall i | i in e.managed && i in e.rows && !e.rows[i].Terminal() && i !in e.marked ensures Owners(e, i) >= 1 {
      assert Owners(s, i) >= 1;
    }
  }

  lemma MoveFree(s: State, e: State, t: int, pc: Pc)
    requires OneOwner(s) && WaitingIsFree(s) && Moves(s, e, t, pc) && (pc.Waits() ==> Fresh(e, pc.i))
    ensures WaitingIsFree(e)
  {
    if PcOf(s, t).Owned().Some? {
      SoleOwner(s, t);
    }
    assert forall i | i in e.marked && i !in s.marked :: PcOf(s, t).Owned() == Some(i);
  }

  lemma MovePcsRooted(cfg: Config, s: State, e: State, t: int, pc: Pc)
    requires Rooted(cfg, s) && Moves(s, e, t, pc) && PcRooted(e, pc)
    ensures Rooted(cfg, e)
  {
    forall i | i in e.marked ensures i in e.managed {
      assert i !in s.marked ==> PcOf(s, t).Owned() == Some(i);
      assert t in s.threads ==> PcRooted(s, PcOf(s, t));
    }
    forall u | u in e.threads ensures PcRooted(e, e.threads[u]) {
      assert u != t ==> PcRooted(s, s.threads[u]);
    }
  }

  lemma MoveFlight(cfg: Config, s: State, e: State, t: int, pc: Pc)
    requires OneOwner(s) && Rooted(cfg, s) && InFlightIsHeld(s) && Moves(s, e, t, pc)
    requires pc.Dispatches() ==> DispatchHeld(e, pc)
    ensures InFlightIsHeld(e)
  {
    if PcOf(s, t).Owned().Some? {
      SoleOwner(s, t);
    }
    forall i | i in e.marked && i in e.rows && !e.rows[i].Terminal() ensures i in e.held {
      if i !in s.marked {
        assert DispatchHeld(s, s.threads[t]);
      }
    }
    forall u | u in e.threads && e.threads[u].Dispatches() ensures DispatchHeld(e, e.threads[u]) {
      assert u != t ==> DispatchHeld(s, s.threads[u]);
    }
  }

  ghost predicate KeepsDraining(s: State, e: State, t: int, pc: Pc) {
    var was := PcOf(s, t);
    (pc.Dropping? && pc.i in e.rows ==> e.rows[pc.i].Terminal()) &&
    (forall i | i in e.rows && i in s.rows && e.rows[i].Terminal() && !s.rows[i].Terminal() ::
       pc.Dropping? && pc.i == i) &&
    (forall i | i in e.held && i in e.rows && was.Releases(i) && (e.rows[i].Terminal() || i !in e.marked) ::
       pc.Releases(i))
  }

  lemma MoveDraining(cfg: Config, s: State, e: State, t: int, pc: Pc)
    requires Rooted(cfg, s) && Draining(s) && Moves(s, e, t, pc) && KeepsDraining(s, e, t, pc)
    ensures Draining(e)
  {
    forall i | i in e.held && i in e.rows && (e.rows[i].Terminal() || i !in e.marked)
      ensures WillRelease(e.threads, i)
    {
      if s.rows[i].Terminal() || i !in s.marked {
        var u :| u in s.threads && s.threads[u].Releases(i);
        assert e.threads[u].Releases(i);
      } else {
        assert e.threads[t].Releases(i);
      }
    }
  }

  ghost predicate KeepsExplained(s: State, e: State, t: int, pc: Pc) {
    var was := PcOf(s, t);
    forall i | i in e.marked && i in e.rows && i in s.rows && e.rows[i].status.Queued? && i !in e.handedBack ::
      (pc.Addressed? && pc.i == i) ||
      (i in s.marked && s.rows[i].status.Queued? && i !in s.handedBack && !(was.Addressed? && was.i == i))
  }

  lemma MoveExplained(cfg: Config, s: State, e: State, t: int, pc: Pc)
    requires Rooted(cfg, s) && QueuedIsExplained(s) && Moves(s, e, t, pc) && KeepsExplained(s, e, t, pc)
    ensures QueuedIsExplained(e)
  {
    forall i | i in e.marked && i in e.rows && e.rows[i].status.Queued? && i !in e.handedBack
      ensures BeingAddressed(e.threads, i)
    {
      if pc.Addressed? && pc.i == i {
        assert e.threads[t].Addressed?;
      } else {
        var u :| u in s.threads && s.threads[u].Addressed? && s.threads[u].i == i;
        assert e.threads[u].Addressed?;
      }
    }
  }

  // Whoever schedules a retry, or sets out to, has won or was on its way already.
  ghost predicate PaysRetries(s: State, e: State, t: int, pc: Pc) {
    forall i :: e.retried[i] + Bit(pc.Schedules(i)) + s.wins[i] <=
                s.retried[i] + Bit(PcOf(s, t).Schedules(i)) + e.wins[i]
  }

  lemma RetriesStayPaid(s: State, e: State, t: int, pc: Pc)
    requires RetriesPaid(s) && e.threads == s.threads[t := pc] && PaysRetries(s, e, t, pc)
    ensures RetriesPaid(e)
  {
    ScheduleCounts(s.threads, t, pc);
    forall i ensures e.retried[i] + Count(e.threads, WillSchedule(i)) <= e.wins[i] {
      assert s.retried[i] + Count(s.threads, WillSchedule(i)) <= s.wins[i];
    }
  }

  // Everything a move must satisfy for the invariant to survive it.
  ghost predicate IsMove(s: State, e: State, t: int, pc: Pc) {
    Moves(s, e, t, pc) && PcRooted(e, pc) &&
    (pc.Waits() ==> Fresh(e, pc.i)) &&
    (pc.Dispatches() ==> DispatchHeld(e, pc)) &&
    KeepsDraining(s, e, t, pc) && KeepsExplained(s, e, t, pc) && OneWinner(e) && PaysRetries(s, e, t, pc)
  }

  lemma MoveKeeps(cfg: Config, s: State, e: State, t: int, pc: Pc)
    requires Inv(cfg, s) && IsMove(s, e, t, pc)
    ensures Inv(cfg, e)
  {
    MoveCounts(s, e, t, pc);
    MoveOrphans(s, e, t, pc);
    MoveFree(s, e, t, pc);
    MovePcsRooted(cfg, s, e, t, pc);
    MoveFlight(cfg, s, e, t, pc);
    MoveDraining(cfg, s, e, t, pc);
    MoveExplained(cfg, s, e, t, pc);
    RetriesStayPaid(s, e, t, pc);
  }

  // What the invariant says of the one thread that moves.
  ghost predicate Local(s: State, pc: Pc) {
    PcRooted(s, pc) && OneWinner(s) && (pc.Owned().Some? ==> pc.i in s.rows) &&
    (pc.Waits() ==> Fresh(s, pc.i)) && (pc.Dispatches() ==> DispatchHeld(s, pc))
  }

  lemma InvLocal(cfg: Config, s: State, t: int)
    requires Inv(cfg, s)
    ensures Local(s, PcOf(s, t))
  {
    assert t in s.threads ==> PcRooted(s, s.threads[t]);
  }

  lemma PickIsMove(s: State, t: int, addr: string)
    requires CanPick(s, t) && addr != "" && Local(s, s.threads[t])
    ensures IsMove(s, Pick(s, t, addr), t, Picked(s.threads[t].i, addr))
  {
  }

  lemma PickNoneIsMove(s: State, t: int)
    requires CanPick(s, t) && Local(s, s.threads[t])
    ensures IsMove(s, PickNone(s, t), t, NoWorker(s.threads[t].i))
    ensures IsMove(s, PickMismatch(s, t), t, Failing(s.threads[t].i))
  {
  }

  lemma SendIsMove(s: State, t: int)
    requires CanSend(s, t) && Local(s, s.threads[t])
    ensures IsMove(s, SendOk(s, t), t, Sent(s.threads[t].i, s.threads[t].addr))
    ensures IsMove(s, SendFails(s, t), t, Failing(s.threads[t].i))
  {
  }

  lemma RefuseIsMove(cfg: Config, s: State, t: int)
    requires CanRefuse(cfg, s, t) && Local(s, s.threads[t])
    ensures IsMove(s, Refuse(s, t), t, Rechecking(s.threads[t].i))
  {
  }

  lemma RecheckIsMove(s: State, t: int)
    requires CanRecheck(s, t) && Local(s, s.threads[t])
    ensures IsMove(s, Recheck(s, t), t, Recheck(s, t).threads[t])
  {
  }

  lemma CheckLiveIsMove(s: State, t: int)
    requires CanCheck(s, t) && Local(s, s.threads[t]) && !s.rows[s.threads[t].i].Terminal()
    ensures IsMove(s, Check(s, t), t, Checked(s.threads[t].i, s.threads[t].job))
  {
  }

  lemma AddressIsMove(s: State, t: int, now: int)
    requires CanAddress(s, t) && Local(s, s.threads[t])
    ensures IsMove(s, Address(s, t, now), t, Addressed(s.threads[t].i, s.threads[t].addr))
  {
  }

  lemma MarkIsMove(s: State, t: int)
    requires CanMark(s, t) && Local(s, s.threads[t])
    ensures IsMove(s, Mark(s, t), t, Mark(s, t).threads[t])
  {
  }

  lemma FailIsMove(s: State, t: int, reason: string, now: int)
    requires CanFail(s, t) && Local(s, s.threads[t])
    ensures IsMove(s, Fail(s, t, reason, now), t, Fail(s, t, reason, now).threads[t])
  {
  }

  lemma ReportIsMove(s: State, t: int, i: int, status: Status)
    requires CanReportUnchecked(s, t, i) && OneWinner(s)
    ensures IsMove(s, Report(s, t, i, status), t, Reporting(i, status))
  {
  }

  lemma WriteReportIsMove(s: State, t: int, result: string, now: int)
    requires CanWriteReport(s, t) && Local(s, s.threads[t])
    ensures IsMove(s, WriteReport(s, t, result, now), t, WriteReport(s, t, result, now).threads[t])
  {
    var e := WriteReport(s, t, result, now);
    assert RowsEvolve(s, e) && KeepsDraining(s, e, t, e.threads[t]);
  }

  lemma StopIsMove(s: State, t: int, i: int, status: Status, now: int)
    requires CanStop(s, t, i, status) && OneWinner(s)
    ensures IsMove(s, Stop(s, t, i, status, now), t, Dropping(i, false))
  {
  }

  lemma ReapIsMove(s: State, t: int, i: int, status: Status, reason: string, now: int)
    requires CanReap(s, t, i, status) && OneWinner(s)
    ensures IsMove(s, Reap(s, t, i, status, reason, now), t, Reap(s, t, i, status, reason, now).threads[t])
  {
  }

  lemma TouchIsMove(s: State, t: int, i: int, r: Row)
    requires CanTouch(s, t, i, r) && OneWinner(s)
    ensures IsMove(s, Touch(s, t, i, r), t, Done)
  {
  }

  // Nothing to do on held when the entry is already gone.
  lemma RecordNothingIsMove(s: State, t: int)
    requires CanRecord(s, t) && Local(s, s.threads[t]) && s.threads[t].i !in s.held
    ensures IsMove(s, Record(s, t), t, Done)
  {
  }

  lemma YieldNothingIsMove(s: State, t: int)
    requires CanYield(s, t) && Local(s, s.threads[t]) && s.threads[t].i !in s.held
    ensures IsMove(s, Yield(s, t), t, Rechecking(s.threads[t].i))
  {
  }

  lemma DropNothingIsMove(s: State, t: int)
    requires CanDrop(s, t) && Local(s, s.threads[t]) && s.threads[t].i !in s.held
    ensures IsMove(s, Drop(s, t), t, Drop(s, t).threads[t])
  {
  }

  lemma ScheduleIsMove(s: State, t: int, at: Option<int>)
    requires CanSchedule(s, t) && Local(s, s.threads[t])
    ensures IsMove(s, Schedule(s, t, at), t, Done)
  {
  }
}
