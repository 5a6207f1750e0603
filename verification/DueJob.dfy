/** One due job: the next run by the kind of its schedule, then the claim (scheduler.go, execute). */
module DueJob {
  import opened Counting
  import opened Claims
  import opened SchedTime

  // An expression that has no next run, or cannot be read, stops the job.
  method Execute(
    row: JobRow, kind: string, number: Option<int>, cron: Result<int>, seen: Cfg, oldNext: int, now: int)
    returns (create: bool)
    requires cron.Ok? ==> cron.value > now
    modifies row`cursor
    ensures create <==> old(row.cursor) == Some(oldNext) && (seen.start.Some? ==> now >= seen.start.value) &&
                        (seen.end.Some? ==> now <= seen.end.value)
    ensures old(row.cursor) != Some(oldNext) ==> row.cursor == old(row.cursor)
    // after a claim inside the window the job is due again when its schedule says
    ensures create && kind == "cron" ==> row.cursor == if cron.Ok? then Some(cron.value) else None
    ensures create && kind in {"fix_rate", "fix_delay"} && number.Some? && 0 < number.value <= 31_536_000_000 ==>
              row.cursor == Some(now + number.value * 1_000_000)
    ensures create && kind == "delay" && number.Some? && 0 < number.value <= 31_536_000 ==>
              row.cursor == Some(now + number.value * 1_000_000_000)
    ensures create && kind in {"api", "run_at", ""} ==> row.cursor == None
    ensures create && NextByKind(kind, number, cron, now).Err? ==> row.cursor == None
  {
    var next := NextByKind(kind, number, cron, now);
    var newNext := None;
    if next.Ok? {
      newNext := next.value;
      NextIsAfter(kind, number, cron, now);
    }
    if Interval(kind) && number.Some? {
      ExactIff(kind, number.value, cron, now);
    }
    create := row.Claim(seen, oldNext, newNext, now);
  }
}
