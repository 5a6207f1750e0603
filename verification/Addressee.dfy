/** The worker an instance was sent to can report: the address check of the /worker handler
    lets it through until the instance is finished or handed back. */
module Addressee {
  import opened Counting
  import opened Instances
  import opened Slots
  import opened Dispatch
  import opened Invariants
  import opened MoveSteps
  import opened Safety

  // As long as i is open and was not handed back, its row names addr.
  predicate Names(s: State, i: int, addr: string) {
    i in s.rows && !s.rows[i].Terminal() && i !in s.handedBack ==> s.rows[i].addr == addr
  }

  predicate Carries(pc: Pc) { pc.Addressed? || pc.Marked? || pc.Sent? }

  // What a dispatching thread carries and what held has recorded is what the row says.
  ghost predicate AddrKept(s: State) {
    (forall t | t in s.threads && Carries(s.threads[t]) :: Names(s, s.threads[t].i, s.threads[t].addr)) &&
    forall i | i in s.held && s.held[i].addr != "" :: Names(s, i, s.held[i].addr)
  }

  // The row of i, if it is still open and not handed back, was so before and names the same worker.
  predicate KeepsName(s: State, e: State, i: int) {
    i in s.rows && i in e.rows && !e.rows[i].Terminal() && i !in e.handedBack ==>
      !s.rows[i].Terminal() && i !in s.handedBack && e.rows[i].addr == s.rows[i].addr
  }

  // Nobody carries or records an address that was not carried or recorded before.
  ghost predicate NoNewAddress(s: State, e: State) {
    (forall t | t in e.threads && Carries(e.threads[t]) ::
       e.threads[t].i in s.rows &&
       exists u :: u in s.threads && Carries(s.threads[u]) && s.threads[u].i == e.threads[t].i &&
                   s.threads[u].addr == e.threads[t].addr) &&
    forall i | i in e.held && e.held[i].addr != "" ::
      i in s.rows &&
      ((i in s.held && s.held[i].addr == e.held[i].addr) ||
       exists u :: u in s.threads && Carries(s.threads[u]) && s.threads[u].i == i &&
                   s.threads[u].addr == e.held[i].addr)
  }

  lemma NamesKept(s: State, e: State)
    requires AddrKept(s) && NoNewAddress(s, e) && forall i :: KeepsName(s, e, i)
    ensures AddrKept(e)
  {
    forall t | t in e.threads && Carries(e.threads[t]) ensures Names(e, e.threads[t].i, e.threads[t].addr) {
      assert KeepsName(s, e, e.threads[t].i);
    }
    forall i | i in e.held && e.held[i].addr != "" ensures Names(e, i, e.held[i].addr) {
      assert KeepsName(s, e, i);
    }
  }

  // Whatever is carried or held has a row.
  ghost predicate HasRows(s: State) {
    (forall t | t in s.threads && Carries(s.threads[t]) :: s.threads[t].i in s.rows) &&
    forall i | i in s.held :: i in s.rows
  }

  lemma InvHasRows(cfg: Config, s: State)
    requires Inv(cfg, s)
    ensures HasRows(s)
  {
    forall t | t in s.threads && Carries(s.threads[t]) ensures s.threads[t].i in s.rows {
      assert PcRooted(s, s.threads[t]);
    }
  }

  // One thread moves to pc; held stays.
  lemma MoveAddresses(s: State, e: State, t: int, pc: Pc)
    requires HasRows(s) && e.held == s.held && e.threads == s.threads[t := pc]
    requires Carries(pc) ==> t in s.threads && Carries(s.threads[t]) &&
                             s.threads[t].i == pc.i && s.threads[t].addr == pc.addr
    ensures NoNewAddress(s, e)
  {
  }

  lemma QueueAddresses(cfg: Config, s: State, a: QueueAction)
    requires QueueEnabled(cfg, s, a) && HasRows(s)
    ensures NoNewAddress(s, ApplyQueue(cfg, s, a))
  {
    match a
    case APush(t) => MoveAddresses(s, Push(s, t), t, Done);
    case AArmTimer(t) => MoveAddresses(s, ArmTimer(s, t), t, Done);
    case ATimerFires(t, i) => MoveAddresses(s, TimerFires(s, t, i), t, Done);
    case APop(t, i) => MoveAddresses(s, Pop(s, t, i), t, Popped(i));
    case _ => ClaimAddresses(cfg, s, a);
  }

  lemma ClaimAddresses(cfg: Config, s: State, a: QueueAction)
    requires QueueEnabled(cfg, s, a) && (a.AAcquire? || a.ARefuse? || a.ARecheck? || a.ACheck?) && HasRows(s)
    ensures NoNewAddress(s, ApplyQueue(cfg, s, a))
  {
    match a
    case AAcquire(t) => MoveAddresses(s, Acquire(s, t), t, Acquire(s, t).threads[t]);
    case ARefuse(t) => MoveAddresses(s, Refuse(s, t), t, Refuse(s, t).threads[t]);
    case ARecheck(t) => MoveAddresses(s, Recheck(s, t), t, Recheck(s, t).threads[t]);
    case ACheck(t) => MoveAddresses(s, Check(s, t), t, Check(s, t).threads[t]);
  }

  lemma QueueHandsBackNothing(cfg: Config, s: State, a: QueueAction)
    requires QueueEnabled(cfg, s, a)
    ensures ApplyQueue(cfg, s, a).handedBack == s.handedBack
  {
  }

  lemma QueueKeepsNames(cfg: Config, s: State, a: QueueAction)
    requires QueueEnabled(cfg, s, a) && HasRows(s) && AddrKept(s)
    ensures AddrKept(ApplyQueue(cfg, s, a))
  {
    QueueAddresses(cfg, s, a);
    QueueHandsBackNothing(cfg, s, a);
    QueueRows(cfg, s, a);
    NamesKept(s, ApplyQueue(cfg, s, a));
  }

  lemma TriggerKeepsNames(cfg: Config, s: State, a: TriggerAction)
    requires TriggerEnabled(cfg, s, a) && HasRows(s) && AddrKept(s)
    ensures AddrKept(ApplyTrigger(cfg, s, a))
  {
    var e := ApplyTrigger(cfg, s, a);
    MoveAddresses(s, e, a.t, e.threads[a.t]);
    NamesKept(s, e);
  }

  lemma WriterKeepsNames(s: State, a: WriterAction)
    requires WriterEnabled(s, a) && HasRows(s) && AddrKept(s)
    ensures AddrKept(ApplyWriter(s, a))
  {
    var e := ApplyWriter(s, a);
    MoveAddresses(s, e, a.t, e.threads[a.t]);
    NamesKept(s, e);
  }

  lemma ReleaseKeepsNames(s: State, a: ReleaseAction)
    requires ReleaseEnabled(s, a) && HasRows(s) && AddrKept(s)
    ensures AddrKept(ApplyRelease(s, a))
  {
    NamesKept(s, ApplyRelease(s, a));
  }

  // Nobody else carries i, and nothing is recorded for it, when it is addressed.
  lemma AddressKeepsNames(cfg: Config, s: State, t: int, now: int)
    requires Inv(cfg, s) && AddrKept(s) && CanAddress(s, t)
    ensures AddrKept(Address(s, t, now))
  {
    var e, i := Address(s, t, now), s.threads[t].i;
    SoleOwner(s, t);
    InvLocal(cfg, s, t);
    forall u | u in e.threads && Carries(e.threads[u]) ensures Names(e, e.threads[u].i, e.threads[u].addr) {
      assert u != t ==> s.threads[u].Owned() == Some(s.threads[u].i);
      assert u != t ==> Names(s, s.threads[u].i, s.threads[u].addr);
    }
    forall x | x in e.held && e.held[x].addr != "" ensures Names(e, x, e.held[x].addr) {
      assert x != i && Names(s, x, s.held[x].addr);
    }
  }

  lemma MarkKeepsNames(s: State, t: int)
    requires CanMark(s, t) && AddrKept(s)
    ensures AddrKept(Mark(s, t))
  {
    var e, i := Mark(s, t), s.threads[t].i;
    forall u | u in e.threads && Carries(e.threads[u]) ensures Names(e, e.threads[u].i, e.threads[u].addr) {
      assert Names(s, s.threads[u].i, s.threads[u].addr);
    }
    forall x | x in e.held && e.held[x].addr != "" ensures Names(e, x, e.held[x].addr) {
      assert Names(s, x, s.held[x].addr);
    }
  }

  lemma OtherDispatchKeepsNames(s: State, a: DispatchAction)
    requires DispatchEnabled(s, a) && HasRows(s) && AddrKept(s) && !a.AAddress? && !a.AMark? && !a.AMarkTx?
    ensures AddrKept(ApplyDispatch(s, a))
  {
    NamesKept(s, ApplyDispatch(s, a));
  }

  lemma DispatchKeepsNames(cfg: Config, s: State, a: DispatchAction)
    requires Inv(cfg, s) && DispatchEnabled(s, a) && AddrKept(s)
    ensures AddrKept(ApplyDispatch(s, a))
  {
    InvHasRows(cfg, s);
    match a
    case AAddress(t, now) => AddressKeepsNames(cfg, s, t, now);
    case AMark(t) => MarkKeepsNames(s, t);
    case AMarkTx(t, now) =>
      AddressKeepsNames(cfg, s, t, now);
      MarkKeepsNames(Address(s, t, now), t);
    case _ => OtherDispatchKeepsNames(s, a);
  }

  lemma StepKeepsNames(cfg: Config, s: State, a: Action)
    requires Inv(cfg, s) && AddrKept(s) && Enabled(cfg, s, a)
    ensures AddrKept(Apply(cfg, s, a))
  {
    InvHasRows(cfg, s);
    match a
    case OfTrigger(ta) => TriggerKeepsNames(cfg, s, ta);
    case OfQueue(qa) => QueueKeepsNames(cfg, s, qa);
    case OfDispatch(da) => DispatchKeepsNames(cfg, s, da);
    case OfRelease(ra) => ReleaseKeepsNames(s, ra);
    case OfWriter(wa) => WriterKeepsNames(s, wa);
  }

  lemma {:induction false} RunKeepsNames(cfg: Config, s: State, run: seq<Action>, e: State)
    requires Inv(cfg, s) && AddrKept(s) && Runs(cfg, s, run, e)
    ensures AddrKept(e)
    decreases |run|
  {
    if run != [] {
      StepKeeps(cfg, s, run[0]);
      StepKeepsNames(cfg, s, run[0]);
      RunKeepsNames(cfg, Apply(cfg, s, run[0]), run[1..], e);
    }
  }

  // ----- main results -----

  // From the moment the row is addressed the addressee's report is accepted,
  lemma AddressedIsHeard(cfg: Config, s: State, a: DispatchAction, u: int)
    requires DispatchEnabled(s, a) && (a.AAddress? || a.AMarkTx?)
    ensures var e := ApplyDispatch(s, a);
            var i, addr := s.threads[a.t].i, s.threads[a.t].addr;
            Free(e, u) ==> CanReport(e, u, i, addr)
    ensures forall i, from | i == s.threads[a.t].i && CanReport(ApplyDispatch(s, a), u, i, from) ::
              from == s.threads[a.t].addr
  {
  }

  /** and in every reachable state, as long as the instance is open and was not handed back, the
      report of the worker recorded for it is accepted, and the report of no other. */
  lemma RecordedIsHeard(cfg: Config, s: State, i: int, u: int, from: string)
    requires Reachable(cfg, s) && i in s.held && s.held[i].addr != "" && Free(s, u)
    requires Open(s, i) && i !in s.handedBack
    ensures CanReport(s, u, i, from) <==> from == s.held[i].addr
  {
    var s0, run :| Init(cfg, s0) && Runs(cfg, s0, run, s);
    InitHolds(cfg, s0);
    RunKeepsNames(cfg, s0, run, s);
    assert Names(s, i, s.held[i].addr);
  }
}
