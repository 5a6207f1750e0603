/** Several process lifetimes in a row on one database. A lifetime ends at any moment, by a
    crash; the next one fails over what RecoverStaleActive finds and starts with empty memory. */
module Lifetimes {
  import opened Counting
  import opened Instances
  import opened Dispatch
  import opened Safety
  import opened RetryChain
  import opened Recovery

  datatype Life = Life(start: Dispatch.State, run: seq<Dispatch.Action>, end: Dispatch.State)

  // What start-up makes of the rows a crash left.
  ghost predicate Restarts(limits: Limits, rows: Rows, e: Rows) {
    exists list, olderThan, wait, now :: FailsOver(limits, rows, e, list, olderThan, wait, now)
  }

  ghost predicate FailsOver(
    limits: Limits, rows: Rows, e: Rows, list: seq<int>, olderThan: int, wait: int, now: int)
  {
    StaleAnswer(rows, olderThan, list) && AllFailedOver(limits, rows, e, list, wait, now)
  }

  ghost predicate Lives(cfg: Config, limits: Limits, lives: seq<Life>) {
    (forall k | 0 <= k < |lives| ::
       Init(cfg, lives[k].start) && Dispatch.Runs(cfg, lives[k].start, lives[k].run, lives[k].end)) &&
    forall k | 0 < k < |lives| :: Restarts(limits, lives[k - 1].end.rows, lives[k].start.rows)
  }

  predicate Ended(rows: Rows, i: int) { i in rows && rows[i].Terminal() }

  // Guarded writes that took i terminal in the first n lifetimes, the ones of start-up included.
  ghost function Wins(lives: seq<Life>, n: nat, i: int): nat
    requires n <= |lives|
  {
    if n == 0 then 0
    else
      Wins(lives, n - 1, i) + lives[n - 1].end.wins[i] +
      Bit(n > 1 && Ended(lives[n - 1].start.rows, i) && !Ended(lives[n - 2].end.rows, i))
  }

  // Start-up ends only active rows, and keeps every terminal one as it is.
  lemma RestartAbsorbs(limits: Limits, rows: Rows, e: Rows, i: int)
    requires Restarts(limits, rows, e) && Ended(rows, i)
    ensures Ended(e, i) && e[i] == rows[i]
  {
    var list, olderThan, wait, now :| FailsOver(limits, rows, e, list, olderThan, wait, now);
    StaleAreGone(limits, rows, e, list, olderThan, wait, now);
  }

  lemma LifeAbsorbs(cfg: Config, life: Life, i: int)
    requires Init(cfg, life.start) && Dispatch.Runs(cfg, life.start, life.run, life.end) && Ended(life.start.rows, i)
    ensures Ended(life.end.rows, i) && life.end.wins[i] == 0
  {
    TerminalForever(cfg, life.start, life.run, life.end, i);
  }

  /** Over any number of lifetimes at most one guarded write, the fail-over of start-up
      included, takes an instance terminal; once it is terminal it stays so. */
  lemma {:induction false} OneEndingEver(cfg: Config, limits: Limits, lives: seq<Life>, n: nat, i: int)
    requires Lives(cfg, limits, lives) && n <= |lives|
    ensures Wins(lives, n, i) <= 1
    ensures n > 0 && Wins(lives, n, i) == 1 ==> Ended(lives[n - 1].end.rows, i)
    ensures n > 0 && Ended(lives[n - 1].start.rows, i) ==> Ended(lives[n - 1].end.rows, i)
  {
    if n > 0 {
      var life := lives[n - 1];
      OneEndingEver(cfg, limits, lives, n - 1, i);
      assert Reachable(cfg, life.end);
      OneTerminalWinner(cfg, life.end, i);
      if Ended(life.start.rows, i) {
        LifeAbsorbs(cfg, life, i);
      }
      if n > 1 && Ended(lives[n - 2].end.rows, i) {
        RestartAbsorbs(limits, lives[n - 2].end.rows, life.start.rows, i);
      }
    }
  }

  lemma NextLife(cfg: Config, limits: Limits, lives: seq<Life>, n: nat, i: int)
    requires Lives(cfg, limits, lives) && 0 < n < |lives| && Ended(lives[n - 1].end.rows, i)
    ensures Ended(lives[n].end.rows, i)
  {
    RestartAbsorbs(limits, lives[n - 1].end.rows, lives[n].start.rows, i);
    LifeAbsorbs(cfg, lives[n], i);
  }

  // A terminal instance is terminal in every later lifetime.
  lemma {:induction false} TerminalAcrossCrashes(cfg: Config, limits: Limits, lives: seq<Life>, m: nat, n: nat, i: int)
    requires Lives(cfg, limits, lives) && m <= n < |lives| && Ended(lives[m].end.rows, i)
    ensures Ended(lives[n].end.rows, i)
    decreases n - m
  {
    if m < n {
      TerminalAcrossCrashes(cfg, limits, lives, m, n - 1, i);
      NextLife(cfg, limits, lives, n, i);
    }
  }
}
