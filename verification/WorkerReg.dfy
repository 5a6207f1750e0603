/** The worker registry: heartbeats, in-flight counters, choice of a worker, sweeping. */
module WorkerReg {
  import opened Counting
  import opened Loads

  datatype WorkerInfo = WorkerInfo(
    addr: string, tags: seq<string>, acceptNotTagJob: bool, protocol: string, score: real, lastHeartbeat: int)

  type Workers = map<int, map<string, WorkerInfo>>

  function Entry(ws: Workers, k: WorkerKey): Option<WorkerInfo> {
    if k.app in ws && k.addr in ws[k.app] then Some(ws[k.app][k.addr]) else None
  }

  // Every entry is filed under its own address, which is not empty.
  ghost predicate Filed(ws: Workers) {
    forall app, a | app in ws && a in ws[app] :: ws[app][a].addr == a != ""
  }

  predicate Online(w: WorkerInfo, timeout: int, now: int) { now - w.lastHeartbeat <= timeout }

  ghost predicate OnlineAt(ws: Workers, timeout: int, k: WorkerKey, now: int) {
    Entry(ws, k).Some? && Online(Entry(ws, k).value, timeout, now)
  }

  ghost function Expired(ws: Workers, timeout: int, now: int): set<WorkerKey> {
    set app, a | app in ws && a in ws[app] && !Online(ws[app][a], timeout, now) :: WorkerKey(app, a)
  }

  // acceptNotTagJob || tag in tags || both empty
  predicate MatchTag(tag: string, w: WorkerInfo) {
    w.acceptNotTagJob || tag in w.tags || (tag == "" && w.tags == [])
  }

  // Fewer instances in flight first, then the higher score.
  predicate AtLeastAsGood(loads: Loads, app: int, w: WorkerInfo, v: WorkerInfo) {
    var lw, lv := Load(loads, WorkerKey(app, w.addr)), Load(loads, WorkerKey(app, v.addr));
    lw < lv || (lw == lv && w.score >= v.score)
  }

  class Registry {
    var workers: Workers
    var inflight: Loads
    const timeout: int

    constructor (timeout: int)
      ensures this.timeout == timeout && workers == map[] && inflight == map[] && Filed(workers)
    {
      this.timeout := timeout;
      workers, inflight := map[], map[];
    }

    method Heartbeat(app: int, w: WorkerInfo, now: int)
      requires Filed(workers)
      modifies this`workers
      ensures workers == Beat(old(workers), app, w, now)
      ensures Filed(workers)
      ensures app == 0 || w.addr == "" ==> workers == old(workers)
      // its own entry is as reported and heard from now; every other is as it was
      ensures app != 0 && w.addr != "" ==>
                app in workers && w.addr in workers[app] &&
                workers[app][w.addr] == WorkerInfo(w.addr, w.tags, w.acceptNotTagJob, w.protocol, w.score, now)
      ensures forall x, a | x != app || a != w.addr ::
                (x in workers && a in workers[x] <==> x in old(workers) && a in old(workers)[x]) &&
                (x in workers && a in workers[x] ==> workers[x][a] == old(workers)[x][a])
      ensures app != 0 && w.addr != "" ==>
                forall t | t <= now + timeout :: OnlineAt(workers, timeout, WorkerKey(app, w.addr), t)
    {
      if app == 0 || w.addr == "" {
        return;
      }
      var m := if app in workers then workers[app] else map[];
      if w.addr in m {
        m := m[w.addr := m[w.addr].(score := w.score, tags := w.tags, acceptNotTagJob := w.acceptNotTagJob,
                                    protocol := w.protocol, lastHeartbeat := now)];
      } else {
        m := m[w.addr := w.(lastHeartbeat := now)];
      }
      workers := workers[app := m];
    }

    // Collects the online workers of app, in whatever order the map yields them.
    method OnlineLocked(app: int, now: int) returns (out: seq<WorkerInfo>)
      requires Filed(workers)
      ensures forall w | w in out :: OnlineAt(workers, timeout, WorkerKey(app, w.addr), now) &&
                                     w == workers[app][w.addr]
      ensures forall a | OnlineAt(workers, timeout, WorkerKey(app, a), now) :: workers[app][a] in out
    {
      out := [];
      if app !in workers {
        return;
      }
      var m := workers[app];
      var order := RangeOver(m.Keys);
      for n := 0 to |order|
        invariant forall w | w in out :: w.addr in m && w == m[w.addr] && Online(w, timeout, now)
        invariant forall a | a in order[..n] && Online(m[a], timeout, now) :: m[a] in out
      {
        if now - m[order[n]].lastHeartbeat <= timeout {
          out := out + [m[order[n]]];
        }
      }
    }

    method HasOnlineWorker(app: int, now: int) returns (yes: bool)
      requires Filed(workers)
      ensures yes <==> exists a :: OnlineAt(workers, timeout, WorkerKey(app, a), now)
    {
      var online := OnlineLocked(app, now);
      if |online| > 0 {
        assert online[0] in online;
        assert OnlineAt(workers, timeout, WorkerKey(app, online[0].addr), now);
      }
      yes := |online| > 0;
    }

    // Fails exactly when no online worker matches; otherwise no online match is better.
    method PickFull(app: int, tag: string, now: int) returns (best: Option<WorkerInfo>)
      requires Filed(workers)
      ensures best.None? <==>
              forall a | OnlineAt(workers, timeout, WorkerKey(app, a), now) :: !MatchTag(tag, workers[app][a])
      ensures best.Some? ==>
                OnlineAt(workers, timeout, WorkerKey(app, best.value.addr), now) &&
                best.value == workers[app][best.value.addr] && MatchTag(tag, best.value) &&
                forall a | OnlineAt(workers, timeout, WorkerKey(app, a), now) && MatchTag(tag, workers[app][a]) ::
                  AtLeastAsGood(inflight, app, best.value, workers[app][a])
      // the same, spelled out
      ensures best.Some? ==>
                var w := best.value;
                app in workers && w.addr in workers[app] && w == workers[app][w.addr] &&
                now - w.lastHeartbeat <= timeout && (w.acceptNotTagJob || tag in w.tags || (tag == "" && w.tags == []))
      ensures best.None? && app in workers ==>
                forall a | a in workers[app] && now - workers[app][a].lastHeartbeat <= timeout ::
                  !workers[app][a].acceptNotTagJob && tag !in workers[app][a].tags &&
                  (tag == "" ==> workers[app][a].tags != [])
      ensures best.Some? ==>
                forall a | a in workers[app] && now - workers[app][a].lastHeartbeat <= timeout &&
                           (workers[app][a].acceptNotTagJob || tag in workers[app][a].tags ||
                            (tag == "" && workers[app][a].tags == [])) ::
                  Load(inflight, WorkerKey(app, best.value.addr)) <= Load(inflight, WorkerKey(app, a)) &&
                  (Load(inflight, WorkerKey(app, best.value.addr)) == Load(inflight, WorkerKey(app, a)) ==>
                     best.value.score >= workers[app][a].score)
    {
      var online := OnlineLocked(app, now);
      best := None;
      var bestInflight := 0;
      for n := 0 to |online|
        invariant best.None? <==> forall w | w in online[..n] :: !MatchTag(tag, w)
        invariant best.Some? ==> best.value in online && MatchTag(tag, best.value) &&
                                 bestInflight == Load(inflight, WorkerKey(app, best.value.addr))
        invariant best.Some? ==> forall w | w in online[..n] && MatchTag(tag, w) ::
                                   AtLeastAsGood(inflight, app, best.value, w)
      {
        var w := online[n];
        assert online[..n + 1] == online[..n] + [w];
        if !MatchTag(tag, w) {
          continue;
        }
        var load := Load(inflight, WorkerKey(app, w.addr));
        if best.None? || load < bestInflight || (load == bestInflight && w.score > best.value.score) {
          best, bestInflight := Some(w), load;
        }
      }
      assert online[..|online|] == online;
    }

    method IsOnline(app: int, addr: string, now: int) returns (yes: bool)
      ensures yes <==> OnlineAt(workers, timeout, WorkerKey(app, addr), now)
      ensures yes <==> app in workers && addr in workers[app] && now - workers[app][addr].lastHeartbeat <= timeout
    {
      if app !in workers || addr !in workers[app] {
        return false;
      }
      yes := now - workers[app][addr].lastHeartbeat <= timeout;
    }

    method AcquireInflight(app: int, addr: string)
      modifies this`inflight
      ensures inflight == AcquireLoad(old(inflight), WorkerKey(app, addr))
    {
      if addr == "" {
        return;
      }
      if app !in inflight {
        inflight := inflight[app := map[]];
      }
      var n := if addr in inflight[app] then inflight[app][addr] else 0;
      inflight := inflight[app := inflight[app][addr := n + 1]];
    }

    method ReleaseInflight(app: int, addr: string)
      modifies this`inflight
      ensures inflight == ReleaseLoad(old(inflight), WorkerKey(app, addr))
    {
      if addr == "" || app !in inflight {
        return;
      }
      var n := if addr in inflight[app] then inflight[app][addr] else 0;
      if n <= 1 {
        DeleteInflightLocked(app, addr);
      } else {
        inflight := inflight[app := inflight[app][addr := n - 1]];
      }
    }

    method DeleteInflightLocked(app: int, addr: string)
      modifies this`inflight
      ensures inflight == DeleteLoad(old(inflight), WorkerKey(app, addr))
    {
      if app !in inflight {
        return;
      }
      inflight := inflight[app := inflight[app] - {addr}];
      if inflight[app] == map[] {
        inflight := inflight - {app};
      }
    }

    // Removes the expired entries with their counters, and nothing else.
    method Sweep(now: int) returns (removed: nat)
      requires Filed(workers)
      modifies this`workers, this`inflight
      ensures Filed(workers)
      ensures Without(old(workers), workers, Expired(old(workers), timeout, now))
      ensures LoadsWithout(old(inflight), inflight, Expired(old(workers), timeout, now))
      ensures removed == |Expired(old(workers), timeout, now)|
      // the same, spelled out
      ensures forall x, a ::
                x in workers && a in workers[x] <==>
                x in old(workers) && a in old(workers)[x] && now - old(workers)[x][a].lastHeartbeat <= timeout
      ensures forall x, a | x in workers && a in workers[x] :: workers[x][a] == old(workers)[x][a]
    {
      removed := 0;
      var apps := RangeOver(workers.Keys);
      ghost var expired := Expired(workers, timeout, now);
      ghost var gone: set<WorkerKey> := {};
      for n := 0 to |apps|
        invariant Filed(workers)
        invariant forall app | app in apps[n..] ::
                    app in workers && app in old(workers) && workers[app] == old(workers)[app]
        invariant gone == OfApps(expired, apps[..n])
        invariant Without(old(workers), workers, gone) && LoadsWithout(old(inflight), inflight, gone)
        invariant removed == |gone|
      {
        var app := apps[n];
        ghost var ws, ls := workers, inflight;
        ghost var lost := Keys(app, ExpiredIn(workers[app], timeout, now));
        KeysSize(app, ExpiredIn(workers[app], timeout, now));
        OneMoreApp(old(workers), timeout, now, apps, n);
        var swept := SweepApp(app, now);
        WithoutMore(old(workers), ws, workers, gone, lost);
        LoadsWithoutMore(old(inflight), ls, inflight, gone, lost);
        gone, removed := gone + lost, removed + swept;
      }
      assert apps[..|apps|] == apps && gone == expired;
      WithoutMeans(old(workers), workers, timeout, now);
    }

    // One app of the sweep; an app left without workers loses its map.
    method SweepApp(app: int, now: int) returns (removed: nat)
      requires Filed(workers) && app in workers
      modifies this`workers, this`inflight
      ensures Filed(workers)
      ensures forall x | x != app && x in old(workers) :: x in workers && workers[x] == old(workers)[x]
      ensures Without(old(workers), workers, Keys(app, ExpiredIn(old(workers)[app], timeout, now)))
      ensures LoadsWithout(old(inflight), inflight, Keys(app, ExpiredIn(old(workers)[app], timeout, now)))
      ensures removed == |ExpiredIn(old(workers)[app], timeout, now)|
    {
      var m;
      m, removed := DeleteExpired(app, workers[app], now);
      RemoveEntries(workers, app, ExpiredIn(workers[app], timeout, now));
      workers := Remaining(workers, app, m);
    }

    // The inner loop, deleting the expired addresses of one app and their counters.
    method DeleteExpired(app: int, all: map<string, WorkerInfo>, now: int)
      returns (m: map<string, WorkerInfo>, removed: nat)
      modifies this`inflight
      ensures m == all - ExpiredIn(all, timeout, now) && removed == |ExpiredIn(all, timeout, now)|
      ensures LoadsWithout(old(inflight), inflight, Keys(app, ExpiredIn(all, timeout, now)))
    {
      m, removed := all, 0;
      var order := RangeOver(all.Keys);
      ghost var gone: set<string> := {};
      for n := 0 to |order|
        invariant forall x | x in order[n..] :: x !in gone && x in all
        invariant forall x | x in order[..n] :: x in gone || Online(all[x], timeout, now)
        invariant gone <= ExpiredIn(all, timeout, now)
        invariant m == all - gone && removed == |gone|
        invariant LoadsWithout(old(inflight), inflight, Keys(app, gone))
      {
        var a := order[n];
        assert a in order[n..] && a !in order[n + 1..];
        if now - m[a].lastHeartbeat > timeout {
          DeleteWithout(old(inflight), inflight, app, gone, a);
          DeleteInflightLocked(app, a);
          m, removed := m - {a}, removed + 1;
          gone := gone + {a};
        }
      }
      assert gone == ExpiredIn(all, timeout, now);
    }
  }

  // e holds what ws holds, except the entries of gone.
  ghost predicate Without(ws: Workers, e: Workers, gone: set<WorkerKey>) {
    forall k :: Entry(e, k) == if k in gone then None else Entry(ws, k)
  }

  lemma WithoutMeans(ws: Workers, e: Workers, timeout: int, now: int)
    requires Without(ws, e, Expired(ws, timeout, now))
    ensures forall x, a ::
              x in e && a in e[x] <==> x in ws && a in ws[x] && now - ws[x][a].lastHeartbeat <= timeout
    ensures forall x, a | x in e && a in e[x] :: e[x][a] == ws[x][a]
  {
    forall x, a
      ensures x in e && a in e[x] <==> x in ws && a in ws[x] && now - ws[x][a].lastHeartbeat <= timeout
      ensures x in e && a in e[x] ==> e[x][a] == ws[x][a]
    {
      var k := WorkerKey(x, a);
      assert Entry(e, k) == if k in Expired(ws, timeout, now) then None else Entry(ws, k);
    }
  }

  ghost predicate LoadsWithout(ls: Loads, e: Loads, gone: set<WorkerKey>) {
    forall k :: Load(e, k) == if k in gone then 0 else Load(ls, k)
  }

  ghost function OfApps(keys: set<WorkerKey>, apps: seq<int>): set<WorkerKey> {
    set k | k in keys && k.app in apps
  }

  lemma OneMoreApp(ws: Workers, timeout: int, now: int, apps: seq<int>, n: nat)
    requires n < |apps| && apps[n] in ws && apps[n] !in apps[..n]
    ensures var lost := Keys(apps[n], ExpiredIn(ws[apps[n]], timeout, now));
            var gone := OfApps(Expired(ws, timeout, now), apps[..n]);
            OfApps(Expired(ws, timeout, now), apps[..n + 1]) == gone + lost && gone !! lost
  {
    assert apps[..n + 1] == apps[..n] + [apps[n]];
  }

  lemma WithoutMore(ws: Workers, mid: Workers, e: Workers, gone: set<WorkerKey>, lost: set<WorkerKey>)
    requires Without(ws, mid, gone) && Without(mid, e, lost)
    ensures Without(ws, e, gone + lost)
  {
  }

  lemma LoadsWithoutMore(ls: Loads, mid: Loads, e: Loads, gone: set<WorkerKey>, lost: set<WorkerKey>)
    requires LoadsWithout(ls, mid, gone) && LoadsWithout(mid, e, lost)
    ensures LoadsWithout(ls, e, gone + lost)
  {
  }

  lemma DeleteWithout(ls: Loads, mid: Loads, app: int, gone: set<string>, a: string)
    requires LoadsWithout(ls, mid, Keys(app, gone))
    ensures LoadsWithout(ls, DeleteLoad(mid, WorkerKey(app, a)), Keys(app, gone + {a}))
  {
    forall k
      ensures Load(DeleteLoad(mid, WorkerKey(app, a)), k) == if k in Keys(app, gone + {a}) then 0 else Load(ls, k)
    {
      DeleteClears(mid, WorkerKey(app, a), k);
      assert Load(mid, k) == if k in Keys(app, gone) then 0 else Load(ls, k);
    }
  }

  function Remaining(ws: Workers, app: int, m: map<string, WorkerInfo>): Workers {
    if m == map[] then ws - {app} else ws[app := m]
  }

  lemma RemoveEntries(ws: Workers, app: int, gone: set<string>)
    requires app in ws
    ensures Without(ws, Remaining(ws, app, ws[app] - gone), Keys(app, gone))
    ensures Filed(ws) ==> Filed(Remaining(ws, app, ws[app] - gone))
  {
    var m := ws[app] - gone;
    var e := Remaining(ws, app, m);
    forall k ensures Entry(e, k) == if k in Keys(app, gone) then None else Entry(ws, k) {
      assert k.addr in m <==> k.addr in ws[app] && k.addr !in gone;
    }
  }

  ghost function ExpiredIn(m: map<string, WorkerInfo>, timeout: int, now: int): set<string> {
    set a | a in m && !Online(m[a], timeout, now)
  }

  ghost function Keys(app: int, addrs: set<string>): (ks: set<WorkerKey>)
    ensures forall k :: k in ks <==> k.app == app && k.addr in addrs
  {
    set a | a in addrs :: WorkerKey(app, a)
  }

  lemma KeysSize(app: int, addrs: set<string>)
    ensures |Keys(app, addrs)| == |addrs|
  {
    if addrs != {} {
      var a :| a in addrs;
      KeysSize(app, addrs - {a});
      assert Keys(app, addrs) == Keys(app, addrs - {a}) + {WorkerKey(app, a)};
    }
  }

  // ----- sweeping is invisible -----

  function Beat(ws: Workers, app: int, w: WorkerInfo, now: int): Workers {
    if app == 0 || w.addr == "" then ws
    else
      var m := if app in ws then ws[app] else map[];
      ws[app := m[w.addr := w.(lastHeartbeat := now)]]
  }

  datatype Event = Beats(app: int, w: WorkerInfo, at: int) | Sweeps(at: int)

  // ws becomes e under evs; a sweep may be carried out in any way that meets its contract.
  ghost predicate Plays(ws: Workers, timeout: int, evs: seq<Event>, e: Workers)
    decreases |evs|
  {
    if evs == [] then e == ws
    else match evs[0]
      case Beats(app, w, at) => Plays(Beat(ws, app, w, at), timeout, evs[1..], e)
      case Sweeps(at) => exists mid :: Without(ws, mid, Expired(ws, timeout, at)) && Plays(mid, timeout, evs[1..], e)
  }

  ghost predicate Ordered(evs: seq<Event>, from: int)
    decreases |evs|
  {
    evs == [] || (from <= evs[0].at && Ordered(evs[1..], evs[0].at))
  }

  ghost function BeatsOnly(evs: seq<Event>): seq<Event>
    decreases |evs|
  {
    if evs == [] then [] else (if evs[0].Beats? then [evs[0]] else []) + BeatsOnly(evs[1..])
  }

  // One registry has lost, of the other's entries, only some that had expired by now.
  ghost predicate Forgets(a: Workers, b: Workers, timeout: int, now: int) {
    forall k :: Entry(a, k) == Entry(b, k) ||
                (Entry(a, k) == None && Entry(b, k).Some? && !Online(Entry(b, k).value, timeout, now))
  }

  // Whatever sweeps run, and whenever, the same workers are online now and ever after.
  lemma {:induction false} SweepsAreInvisible(
    a: Workers, b: Workers, timeout: int, evs: seq<Event>, start: int, ea: Workers, eb: Workers, k: WorkerKey, now: int)
    requires Forgets(a, b, timeout, start) && Ordered(evs, start)
    requires Plays(a, timeout, evs, ea) && Plays(b, timeout, BeatsOnly(evs), eb)
    requires start <= now && forall e | e in evs :: e.at <= now
    ensures OnlineAt(ea, timeout, k, now) <==> OnlineAt(eb, timeout, k, now)
    decreases |evs|
  {
    if evs == [] {
      assert Entry(a, k) == Entry(b, k) || !Online(Entry(b, k).value, timeout, start);
    } else {
      var e := evs[0];
      assert e in evs;
      var rest := BeatsOnly(evs[1..]);
      match e
      case Beats(app, w, at) =>
        assert BeatsOnly(evs)[0] == e && BeatsOnly(evs)[1..] == rest;
        BeatForgets(a, b, timeout, start, app, w, at);
        SweepsAreInvisible(Beat(a, app, w, at), Beat(b, app, w, at), timeout, evs[1..], at, ea, eb, k, now);
      case Sweeps(at) =>
        assert BeatsOnly(evs) == rest;
        var mid :| Without(a, mid, Expired(a, timeout, at)) && Plays(mid, timeout, evs[1..], ea);
        SweepForgets(a, b, timeout, start, mid, at);
        SweepsAreInvisible(mid, b, timeout, evs[1..], at, ea, eb, k, now);
    }
  }

  lemma BeatForgets(a: Workers, b: Workers, timeout: int, start: int, app: int, w: WorkerInfo, at: int)
    requires Forgets(a, b, timeout, start) && start <= at
    ensures Forgets(Beat(a, app, w, at), Beat(b, app, w, at), timeout, at)
  {
    forall k ensures
      Entry(Beat(a, app, w, at), k) == Entry(Beat(b, app, w, at), k) ||
      (Entry(Beat(a, app, w, at), k) == None && Entry(Beat(b, app, w, at), k).Some? &&
       !Online(Entry(Beat(b, app, w, at), k).value, timeout, at)) {
      assert Entry(a, k) == Entry(b, k) || !Online(Entry(b, k).value, timeout, start);
    }
  }

  lemma SweepForgets(a: Workers, b: Workers, timeout: int, start: int, mid: Workers, at: int)
    requires Forgets(a, b, timeout, start) && start <= at && Without(a, mid, Expired(a, timeout, at))
    ensures Forgets(mid, b, timeout, at)
  {
    forall k ensures Entry(mid, k) == Entry(b, k) ||
                     (Entry(mid, k) == None && Entry(b, k).Some? && !Online(Entry(b, k).value, timeout, at)) {
      assert Entry(a, k) == Entry(b, k) || !Online(Entry(b, k).value, timeout, start);
      assert k in Expired(a, timeout, at) <==> Entry(a, k).Some? && !Online(Entry(a, k).value, timeout, at);
    }
  }
}
