/** The in-flight counters of internal/workerreg/registry.go: app -> address -> number of
    dispatched instances, absent meaning zero. */
module Loads {
  type Loads = map<int, map<string, nat>>
  datatype WorkerKey = WorkerKey(app: int, addr: string)

  function Load(l: Loads, k: WorkerKey): nat {
    if k.app in l && k.addr in l[k.app] then l[k.app][k.addr] else 0
  }

  function AcquireLoad(l: Loads, k: WorkerKey): Loads {
    if k.addr == "" then l
    else
      var m := if k.app in l then l[k.app] else map[];
      l[k.app := m[k.addr := (if k.addr in m then m[k.addr] else 0) + 1]]
  }

  function DeleteLoad(l: Loads, k: WorkerKey): Loads {
    if k.app !in l then l
    else
      var m := l[k.app] - {k.addr};
      if m == map[] then l - {k.app} else l[k.app := m]
  }

  function ReleaseLoad(l: Loads, k: WorkerKey): Loads {
    if k.addr == "" || k.app !in l then l
    else if Load(l, k) <= 1 then DeleteLoad(l, k)
    else l[k.app := l[k.app][k.addr := l[k.app][k.addr] - 1]]
  }

  lemma AcquireAdds(l: Loads, k: WorkerKey, x: WorkerKey)
    requires k.addr != ""
    ensures Load(AcquireLoad(l, k), x) == Load(l, x) + if x == k then 1 else 0
  {
  }

  lemma DeleteClears(l: Loads, k: WorkerKey, x: WorkerKey)
    ensures Load(DeleteLoad(l, k), x) == if x == k then 0 else Load(l, x)
  {
    if k.app in l {
      var m := l[k.app] - {k.addr};
      assert x.addr in m <==> x.addr in l[k.app] && x.addr != k.addr;
    }
  }

  // A release is a decrement floored at zero and touches no other worker.
  lemma ReleaseSubtracts(l: Loads, k: WorkerKey, x: WorkerKey)
    ensures Load(ReleaseLoad(l, k), x) ==
            if x == k && k.addr != "" && Load(l, k) > 0 then Load(l, x) - 1 else Load(l, x)
  {
    DeleteClears(l, k, x);
  }
}
