/** Claiming a due job. Any number of claimers read the job, work out the next cursor and
    try to advance next_run_time with a compare-and-set; an administrator may meanwhile
    change the schedule. One job is followed; jobs do not share cursors. */
module Claims {
  import opened Counting

  // The scheduling columns other than the cursor.
  datatype Cfg = Cfg(enabled: bool, start: Option<int>, end: Option<int>)

  predicate TooEarly(cfg: Cfg, now: int) { cfg.start.Some? && now < cfg.start.value }

  predicate TooLate(cfg: Cfg, now: int) { cfg.end.Some? && now > cfg.end.value }

  predicate InWindow(cfg: Cfg, now: int) { !TooEarly(cfg, now) && !TooLate(cfg, now) }

  // A cursor is absent or lies after t.
  predicate After(cursor: Option<int>, t: int) { cursor.Some? ==> cursor.value > t }

  // next is NextByKind's answer, None for an error or no further trigger.
  function NextCursor(cfg: Cfg, now: int, next: Option<int>): (cursor: Option<int>)
    requires After(next, now)
    ensures After(cursor, now)
    ensures TooLate(cfg, now) ==> cursor.None?
    ensures TooEarly(cfg, now) && !TooLate(cfg, now) ==> cursor.Some? && cursor.value >= cfg.start.value
    ensures InWindow(cfg, now) ==> cursor == next
  {
    if TooLate(cfg, now) then None
    else if TooEarly(cfg, now) && (next.None? || next.value < cfg.start.value) then cfg.start
    else next
  }

  // ----- the cursor as the program keeps it -----

  class JobRow {
    var cursor: Option<int>
    var cfg: Cfg

    constructor (cfg: Cfg, cursor: Option<int>)
      ensures this.cfg == cfg && this.cursor == cursor
    {
      this.cfg, this.cursor := cfg, cursor;
    }

    method AdvanceNextRun(oldNext: int, next: Option<int>) returns (ok: bool)
      modifies this`cursor
      ensures ok <==> old(cursor) == Some(oldNext)
      ensures cursor == if ok then next else old(cursor)
    {
      ok := cursor == Some(oldNext);
      if ok {
        cursor := next;
      }
    }

    // execute up to the creation of the instance; seen and oldNext come from the due scan.
    method Claim(seen: Cfg, oldNext: int, next: Option<int>, now: int) returns (create: bool)
      requires After(next, now)
      modifies this`cursor
      ensures create <==> old(cursor) == Some(oldNext) && InWindow(seen, now)
      ensures cursor == if old(cursor) == Some(oldNext) then NextCursor(seen, now, next) else old(cursor)
      // the same, spelled out: before the window, after it, inside it
      ensures create <==> old(cursor) == Some(oldNext) && (seen.start.Some? ==> now >= seen.start.value) &&
                          (seen.end.Some? ==> now <= seen.end.value)
      ensures old(cursor) != Some(oldNext) ==> cursor == old(cursor)
      ensures old(cursor) == Some(oldNext) ==>
                cursor == if seen.end.Some? && now > seen.end.value then None
                          else if seen.start.Some? && now < seen.start.value
                          then (if next.Some? && next.value >= seen.start.value then next else seen.start)
                          else next
      // carries out Compute and Advance of a claimer that has scanned oldNext
      ensures forall s: State, c: int | s.cursor == old(cursor) && s.clock == now && c in s.claimers &&
                            s.claimers[c] == Claimer.Seen(oldNext, seen) ::
                var mid := Apply(s, Compute(c, next));
                Enabled(mid, Advance(c)) && Apply(mid, Advance(c)).cursor == cursor &&
                (create <==> Apply(mid, Advance(c)).claimers[c].Claimed?)
    {
      var newNext, inWindow := next, true;
      if seen.start.Some? && now < seen.start.value {
        inWindow := false;
        if newNext.None? || newNext.value < seen.start.value {
          newNext := seen.start;
        }
      }
      if seen.end.Some? && now > seen.end.value {
        inWindow, newNext := false, None;
      }
      var ok := AdvanceNextRun(oldNext, newNext);
      create := ok && inWindow;
    }
  }

  // ----- many claimers -----

  datatype Claimer =
    | Done
    | Seen(cursor: int, cfg: Cfg)                                    // read by ListDue
    | Computed(cursor: int, cfg: Cfg, next: Option<int>, now: int)   // about to compare-and-set
    | Claimed(cursor: int, cfg: Cfg, now: int)                       // cfg is the job's when it was claimed
  {
    predicate Pending() { Seen? || Computed? }
  }

  // An automatic instance: the cursor it was claimed with, its trigger time, the job then.
  datatype Fired = Fired(cursor: int, at: int, cfg: Cfg)

  datatype State = State(
    cursor: Option<int>, cfg: Cfg, clock: int, claimers: map<int, Claimer>,
    claims: set<int>, fired: seq<Fired>)

  datatype Action =
    | Tick(clock: int)
    | Scan(c: int)
    | Compute(c: int, next: Option<int>)
    | Advance(c: int)
    | Fire(c: int)
    // An update writes the columns it was given and a cursor worked out from a copy of the row, so
    // with two of them under way a disabled job can be left with a cursor.
    | Update(cfg: Cfg, next: Option<int>, computedAt: int)

  predicate Enabled(s: State, a: Action) {
    match a
    case Tick(clock) => clock >= s.clock
    case Scan(c) =>
      (c in s.claimers ==> s.claimers[c].Done?) && s.cfg.enabled && s.cursor.Some? && s.cursor.value <= s.clock
    case Compute(c, next) => c in s.claimers && s.claimers[c].Seen? && After(next, s.clock)
    case Advance(c) => c in s.claimers && s.claimers[c].Computed?
    case Fire(c) => c in s.claimers && s.claimers[c].Claimed?
    case Update(cfg, next, computedAt) =>
      computedAt <= s.clock && After(next, computedAt)
  }

  function Goto(s: State, c: int, pc: Claimer): State { s.(claimers := s.claimers[c := pc]) }

  function Apply(s: State, a: Action): State
    requires Enabled(s, a)
  {
    match a
    case Tick(clock) => s.(clock := clock)
    case Scan(c) => Goto(s, c, Seen(s.cursor.value, s.cfg))
    case Compute(c, next) =>
      var pc := s.claimers[c];
      Goto(s, c, Computed(pc.cursor, pc.cfg, NextCursor(pc.cfg, s.clock, next), s.clock))
    case Advance(c) =>
      var pc := s.claimers[c];
      if s.cursor == Some(pc.cursor)
      then Goto(s.(cursor := pc.next, claims := s.claims + {pc.cursor}), c,
                if InWindow(pc.cfg, pc.now) then Claimed(pc.cursor, s.cfg, pc.now) else Done)
      else Goto(s, c, Done)
    case Fire(c) =>
      var pc := s.claimers[c];
      Goto(s.(fired := s.fired + [Fired(pc.cursor, pc.now, pc.cfg)]), c, Done)
    case Update(cfg, next, _) => s.(cfg := cfg, cursor := next)
  }

  ghost predicate Init(s: State) {
    s.claimers == map[] && s.claims == {} && s.fired == []
  }

  ghost predicate Runs(s: State, run: seq<Action>, e: State)
    decreases |run|
  {
    if run == [] then e == s
    else Enabled(s, run[0]) && Runs(Apply(s, run[0]), run[1..], e)
  }

  lemma RunsCons(s: State, a: Action, run: seq<Action>, e: State)
    requires Enabled(s, a) && Runs(Apply(s, a), run, e)
    ensures Runs(s, [a] + run, e)
  {
    assert ([a] + run)[1..] == run;
  }

  // What is wanted: no cursor value fires twice, and whatever fires lies inside the window of a
  // job that was enabled when it was claimed.
  ghost predicate Good(s: State) {
    (forall k, l | 0 <= k < l < |s.fired| :: s.fired[k].cursor != s.fired[l].cursor) &&
    forall k | 0 <= k < |s.fired| :: s.fired[k].cfg.enabled && InWindow(s.fired[k].cfg, s.fired[k].at)
  }
}
