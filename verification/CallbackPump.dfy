/** Delivery of callbacks: the pump of internal/dispatch/callback.go on the table of
    internal/repository/callback.go. Sending and MarkSent may fail at will; the statements
    that count attempts succeed. */
module CallbackPump {
  import opened Counting
  import opened Backoff

  datatype Delivery = Pending | SentOk | Dead

  // sends is history: how often the payload was posted.
  datatype Callback = Callback(state: Delivery, attempt: nat, next: Option<int>, updated: int, sends: nat)

  type Table = map<int, Callback>

  datatype Limits = Limits(maxAttempts: int, base: int, max: int, retention: int)

  predicate Due(t: Table, i: int, now: int) {
    i in t && t[i].state.Pending? && t[i].next.Some? && t[i].next.value <= now
  }

  // A row closed as sent or dead, and a row with one more attempt behind it.
  function Closed(cb: Callback, state: Delivery, now: int): Callback {
    cb.(state := state, next := None, updated := now)
  }

  function BackedOff(l: Limits, cb: Callback, attempt: nat, now: int): Callback {
    cb.(attempt := attempt, next := Some(now + CallbackBackoff(l.base, l.max, attempt)), updated := now)
  }

  // What one round makes of a due callback.
  function Handled(l: Limits, cb: Callback, posted: bool, recorded: bool, now: int): Callback {
    var attempt, sent := cb.attempt + 1, cb.(sends := cb.sends + 1);
    if attempt >= l.maxAttempts then Closed(sent, Dead, now)
    else if posted && recorded then Closed(BackedOff(l, sent, attempt, now), SentOk, now)
    else BackedOff(l, sent, attempt, now)
  }

  predicate Expired(cb: Callback, olderThan: int) {
    !cb.state.Pending? && cb.updated < olderThan
  }

  function Purged(t: Table, olderThan: int): Table {
    map i | i in t && !Expired(t[i], olderThan) :: t[i]
  }

  class CallbackPump {
    var table: Table
    const limits: Limits

    constructor (limits: Limits)
      ensures this.limits == limits && table == map[]
    {
      this.limits := limits;
      table := map[];
    }

    // The statements of the store; none of them looks at the state it overwrites.
    method MarkSent(i: int, now: int)
      modifies this`table
      ensures table == if i in old(table) then old(table)[i := Closed(old(table)[i], SentOk, now)] else old(table)
    {
      if i in table {
        table := table[i := table[i].(state := SentOk, next := None, updated := now)];
      }
    }

    method MarkRetry(i: int, attempt: nat, next: int, now: int)
      modifies this`table
      ensures i !in old(table) ==> table == old(table)
      ensures i in old(table) ==>
                table == old(table)[i := old(table)[i].(attempt := attempt, next := Some(next), updated := now)]
    {
      if i in table {
        table := table[i := table[i].(attempt := attempt, next := Some(next), updated := now)];
      }
    }

    method MarkDead(i: int, now: int)
      modifies this`table
      ensures table == if i in old(table) then old(table)[i := Closed(old(table)[i], Dead, now)] else old(table)
    {
      if i in table {
        table := table[i := table[i].(state := Dead, next := None, updated := now)];
      }
    }

    // cb is the pump's copy of the row; dead tells that the limit was reached.
    method MarkProgress(i: int, cb: Callback, now: int) returns (dead: bool)
      modifies this`table
      ensures dead <==> cb.attempt + 1 >= limits.maxAttempts
      ensures i in old(table) && dead ==> table == old(table)[i := Closed(old(table)[i], Dead, now)]
      ensures i in old(table) && !dead ==>
                table == old(table)[i := BackedOff(limits, old(table)[i], cb.attempt + 1, now)]
      ensures i !in old(table) ==> table == old(table)
    {
      var attempt := cb.attempt + 1;
      if attempt >= limits.maxAttempts {
        MarkDead(i, now);
        return true;
      }
      MarkRetry(i, attempt, now + CallbackBackoff(limits.base, limits.max, attempt), now);
      dead := false;
    }

    // handleFail takes the same two branches and tells nobody.
    method HandleFail(i: int, cb: Callback, now: int)
      modifies this`table
      ensures i in old(table) && cb.attempt + 1 >= limits.maxAttempts ==>
                table == old(table)[i := Closed(old(table)[i], Dead, now)]
      ensures i in old(table) && cb.attempt + 1 < limits.maxAttempts ==>
                table == old(table)[i := BackedOff(limits, old(table)[i], cb.attempt + 1, now)]
      ensures i !in old(table) ==> table == old(table)
    {
      var attempt := cb.attempt + 1;
      if attempt >= limits.maxAttempts {
        MarkDead(i, now);
        return;
      }
      MarkRetry(i, attempt, now + CallbackBackoff(limits.base, limits.max, attempt), now);
    }

    // One entry of the scanned list. The post itself only shows in the history.
    method Deliver(i: int, cb: Callback, posted: bool, recorded: bool, now: int)
      requires i in table && table[i] == cb && cb.state.Pending?
      modifies this`table
      ensures table == old(table)[i := Handled(limits, cb, posted, recorded, now)]
      // the same, column by column: the last attempt, a success, another attempt to come
      ensures cb.attempt + 1 >= limits.maxAttempts ==>
                table == old(table)[i := Callback(Dead, cb.attempt, None, now, cb.sends + 1)]
      ensures cb.attempt + 1 < limits.maxAttempts && posted && recorded ==>
                table == old(table)[i := Callback(SentOk, cb.attempt + 1, None, now, cb.sends + 1)]
      ensures cb.attempt + 1 < limits.maxAttempts && !(posted && recorded) ==>
                var next := now + CallbackBackoff(limits.base, limits.max, cb.attempt + 1);
                table == old(table)[i := Callback(Pending, cb.attempt + 1, Some(next), now, cb.sends + 1)]
    {
      table := table[i := cb.(sends := cb.sends + 1)];
      if !posted {
        HandleFail(i, cb, now);
        return;
      }
      var dead := MarkProgress(i, cb, now);
      if dead {
        return;
      }
      if recorded {
        MarkSent(i, now);
      }
    }

    predicate HandledAt(was: Table, t: Table, due: seq<int>, k: nat, posted: bool, recorded: bool, now: int)
      requires k < |due|
    {
      due[k] in was && due[k] in t && t[due[k]] == Handled(limits, was[due[k]], posted, recorded, now)
    }

    // One tick: due is ListDue's answer, the outcomes are the network's and the database's.
    method Once(due: seq<int>, posted: seq<bool>, recorded: seq<bool>, now: int)
      requires |posted| == |due| && |recorded| == |due|
      requires forall k, l | 0 <= k < l < |due| :: due[k] != due[l]
      requires forall i | i in due :: Due(table, i, now)
      modifies this`table
      ensures table.Keys == old(table).Keys
      ensures forall i | i in old(table) && i !in due :: table[i] == old(table)[i]
      ensures forall k | 0 <= k < |due| ::
                due[k] in old(table) && due[k] in table &&
                var cb, e := old(table)[due[k]], table[due[k]];
                var last := cb.attempt + 1 >= limits.maxAttempts;
                e.sends == cb.sends + 1 && e.updated == now &&
                e.attempt == (if last then cb.attempt else cb.attempt + 1) &&
                e.state == (if last then Dead else if posted[k] && recorded[k] then SentOk else Pending) &&
                e.next == if last || (posted[k] && recorded[k]) then None
                          else Some(now + CallbackBackoff(limits.base, limits.max, cb.attempt + 1))
    {
      for n := 0 to |due|
        invariant table.Keys == old(table).Keys
        invariant forall i | i in old(table) && i !in due[..n] :: table[i] == old(table)[i]
        invariant forall k | 0 <= k < n :: HandledAt(old(table), table, due, k, posted[k], recorded[k], now)
      {
        var i := due[n];
        assert i in due && i !in due[..n] && Due(old(table), i, now);
        Deliver(i, table[i], posted[n], recorded[n], now);
        assert HandledAt(old(table), table, due, n, posted[n], recorded[n], now);
        assert due[..n + 1] == due[..n] + [i];
      }
      assert due[..|due|] == due;
      forall k | 0 <= k < |due|
        ensures due[k] in old(table) && due[k] in table
        ensures DeliveredAs(old(table)[due[k]], table[due[k]], posted[k], recorded[k], now)
      {
        assert HandledAt(old(table), table, due, k, posted[k], recorded[k], now) && Due(old(table), due[k], now);
      }
    }

    // One post more, and the row is dead at the limit, sent after a success, else pending and backed off.
    predicate DeliveredAs(cb: Callback, e: Callback, posted: bool, recorded: bool, now: int) {
      var last := cb.attempt + 1 >= limits.maxAttempts;
      e.sends == cb.sends + 1 && e.updated == now && e.attempt == (if last then cb.attempt else cb.attempt + 1) &&
      e.state == (if last then Dead else if posted && recorded then SentOk else Pending) &&
      e.next == if last || (posted && recorded) then None
                else Some(now + CallbackBackoff(limits.base, limits.max, cb.attempt + 1))
    }

    method PurgeOnce(now: int) returns (removed: nat)
      modifies this`table
      ensures table == Purged(old(table), now - limits.retention)
      ensures removed == |old(table)| - |table|
      ensures forall i :: i in table <==>
                i in old(table) && (old(table)[i].state == Pending || old(table)[i].updated >= now - limits.retention)
      ensures forall i | i in table :: table[i] == old(table)[i]
    {
      var kept := map i | i in table && !Expired(table[i], now - limits.retention) :: table[i];
      SubsetSize(kept.Keys, table.Keys);
      assert |kept| == |kept.Keys| && |table| == |table.Keys|;
      removed := |table| - |kept|;
      table := kept;
    }
  }

  // ----- runs -----

  // issued is history: identifiers are never used again, not even after a purge.
  datatype State = State(table: Table, issued: set<int>)

  datatype Action =
    | Add(i: int, now: int)
    | Deliver(i: int, posted: bool, recorded: bool, now: int)
    | Purge(now: int)

  predicate Enabled(s: State, a: Action) {
    match a
    case Add(i, _) => i !in s.issued
    case Deliver(i, _, _, now) => Due(s.table, i, now)
    case Purge(_) => true
  }

  function Apply(l: Limits, s: State, a: Action): State
    requires Enabled(s, a)
  {
    match a
    case Add(i, now) => State(s.table[i := Callback(Pending, 0, Some(now), now, 0)], s.issued + {i})
    case Deliver(i, posted, recorded, now) => s.(table := s.table[i := Handled(l, s.table[i], posted, recorded, now)])
    case Purge(now) => s.(table := Purged(s.table, now - l.retention))
  }

  ghost predicate Runs(l: Limits, s: State, run: seq<Action>, e: State)
    decreases |run|
  {
    if run == [] then e == s
    else Enabled(s, run[0]) && Runs(l, Apply(l, s, run[0]), run[1..], e)
  }

  const EMPTY := State(map[], {})

  function Allowed(l: Limits): nat { if l.maxAttempts < 1 then 1 else l.maxAttempts }

  ghost predicate CallbackOk(l: Limits, cb: Callback) {
    cb.sends <= Allowed(l) && (cb.state.Pending? ==> cb.attempt == cb.sends < Allowed(l) && cb.next.Some?)
  }

  // A pending callback has used up as many attempts as posts, and has some left.
  ghost predicate Inv(l: Limits, s: State) {
    forall i | i in s.table :: i in s.issued && CallbackOk(l, s.table[i])
  }

  lemma {:induction false} RunKeeps(l: Limits, s: State, run: seq<Action>, e: State)
    requires Inv(l, s) && Runs(l, s, run, e)
    ensures Inv(l, e) && s.issued <= e.issued
    decreases |run|
  {
    if run != [] {
      RunKeeps(l, Apply(l, s, run[0]), run[1..], e);
    }
  }

  // No callback is ever posted more often than the limit allows.
  lemma BoundedDelivery(l: Limits, run: seq<Action>, e: State, i: int)
    requires Runs(l, EMPTY, run, e) && i in e.table
    ensures e.table[i].sends <= Allowed(l)
    ensures e.table[i].state.Pending? ==> e.table[i].sends < Allowed(l)
  {
    RunKeeps(l, EMPTY, run, e);
  }

  // Sent and dead are final: such a row is purged some day, and until then does not change.
  lemma {:induction false} SettledForGood(l: Limits, s: State, run: seq<Action>, e: State, i: int)
    requires Runs(l, s, run, e) && i in s.issued && (i in s.table ==> !s.table[i].state.Pending?)
    ensures i in e.table ==> i in s.table && e.table[i] == s.table[i]
    ensures Deliveries(run, i) == 0
    decreases |run|
  {
    if run != [] {
      SettledForGood(l, Apply(l, s, run[0]), run[1..], e, i);
    }
  }

  function Deliveries(run: seq<Action>, i: int): nat
    decreases |run|
  {
    if run == [] then 0 else (if run[0].Deliver? && run[0].i == i then 1 else 0) + Deliveries(run[1..], i)
  }

  // A new callback is due at once, and due ones may be delivered whatever comes of it.
  lemma NewIsDue(l: Limits, s: State, i: int, now: int)
    requires Enabled(s, Add(i, now))
    ensures var e := Apply(l, s, Add(i, now));
            forall t, posted, recorded :: Enabled(e, Deliver(i, posted, recorded, t)) <==> t >= now
  {
  }

  // Without a delivery a pending callback stays exactly as it is; no purge removes it.
  lemma {:induction false} PendingIsKept(l: Limits, s: State, run: seq<Action>, e: State, i: int)
    requires Inv(l, s) && Runs(l, s, run, e) && i in s.table && s.table[i].state.Pending? && Deliveries(run, i) == 0
    ensures i in e.table && e.table[i] == s.table[i]
    ensures forall now, posted, recorded | now >= s.table[i].next.value :: Enabled(e, Deliver(i, posted, recorded, now))
    decreases |run|
  {
    if run != [] {
      PendingIsKept(l, Apply(l, s, run[0]), run[1..], e, i);
    }
  }

  // A delivery that arrived and was recorded below the limit is the last one, and stays recorded.
  lemma RecordedIsLast(l: Limits, s: State, i: int, now: int, run: seq<Action>, e: State)
    requires Inv(l, s) && Enabled(s, Deliver(i, true, true, now)) && s.table[i].attempt + 1 < l.maxAttempts
    requires Runs(l, Apply(l, s, Deliver(i, true, true, now)), run, e)
    ensures Deliveries(run, i) == 0
    ensures i in e.table ==> e.table[i].state == SentOk && e.table[i].sends == s.table[i].sends + 1
  {
    SettledForGood(l, Apply(l, s, Deliver(i, true, true, now)), run, e, i);
  }

  /** Delivery ends: each delivery uses up one of the attempts left, and once they are used
      up the callback is sent, dead or purged. */
  lemma {:induction false} DeliveryTerminates(l: Limits, s: State, run: seq<Action>, e: State, i: int)
    requires Inv(l, s) && Runs(l, s, run, e) && i in s.table && s.table[i].state.Pending?
    ensures Deliveries(run, i) <= Allowed(l) - s.table[i].attempt
    ensures i in e.table && e.table[i].state.Pending? ==>
              e.table[i].attempt == s.table[i].attempt + Deliveries(run, i) < Allowed(l)
    decreases |run|
  {
    if run != [] {
      var t := Apply(l, s, run[0]);
      if i in t.table && t.table[i].state.Pending? {
        DeliveryTerminates(l, t, run[1..], e, i);
      } else {
        SettledForGood(l, t, run[1..], e, i);
      }
    }
  }
}
