/** The manual trigger queue: a binary heap of pointers, each item remembering its own
    position, with an index by instance. up, down, Push, Pop and Fix are those of Go's
    container/heap. The whole structure implements the priority set of Ranks.dfy. */
module ManualQueue {
  import opened Counting
  import opened Ranks
  import D = Dispatch

  class ManualItem {
    const ins: int
    const job: int
    const turn: nat
    var priority: int
    var pqIdx: int

    constructor (ins: int, job: int, turn: nat, priority: int)
      ensures this.ins == ins && this.job == job && this.turn == turn && this.priority == priority
    {
      this.ins, this.job, this.turn, this.priority, pqIdx := ins, job, turn, priority, 0;
    }

    function Rank(): Rank
      reads this`priority
    {
      Ranks.Rank(priority, turn)
    }
  }

  ghost function RanksOf(s: seq<ManualItem>): (r: seq<Rank>)
    reads s
    ensures |r| == |s| && forall k | 0 <= k < |s| :: r[k] == s[k].Rank()
  {
    seq(|s|, (k: int) requires 0 <= k < |s| reads s => s[k].Rank())
  }

  lemma SwapKeeps(s: seq<ManualItem>, i: nat, j: nat, x: ManualItem)
    requires i < |s| && j < |s|
    ensures x in s <==> x in Swapped(s, i, j)
  {
    var t := Swapped(s, i, j);
    assert s[i] == t[j] && s[j] == t[i];
    if x in s {
      var k :| 0 <= k < |s| && s[k] == x;
      assert k != i && k != j ==> t[k] == x;
    }
    if x in t {
      var k :| 0 <= k < |t| && t[k] == x;
      assert k != i && k != j ==> s[k] == x;
    }
  }

  // index finds exactly the items of the heap; no two share a turn.
  ghost predicate Linked(index: map<int, ManualItem>, items: set<ManualItem>, last: nat) {
    (forall x | x in items :: x.ins in index && index[x.ins] == x) &&
    (forall i | i in index :: index[i] in items && index[i].ins == i) &&
    (forall x | x in items :: x.turn <= last) &&
    (forall x, y | x in items && y in items && x != y :: x.turn != y.turn)
  }

  lemma LinkMore(index: map<int, ManualItem>, items: set<ManualItem>, last: nat, item: ManualItem)
    requires Linked(index, items, last) && item.ins !in index && item.turn <= last
    requires forall x | x in items :: x.turn != item.turn
    ensures Linked(index[item.ins := item], items + {item}, last)
  {
  }

  lemma LinkLess(index: map<int, ManualItem>, items: set<ManualItem>, last: nat, item: ManualItem)
    requires Linked(index, items, last) && item in items
    ensures Linked(index - {item.ins}, items - {item}, last)
  {
  }

  lemma KeysMore(m: PrioritySet, i: int, r: Rank)
    requires i !in m
    ensures multiset(m[i := r].Keys) == multiset(m.Keys) + multiset{i}
  {
    assert m[i := r].Keys == m.Keys + {i};
  }

  lemma KeysLess(m: PrioritySet, i: int)
    requires i in m
    ensures multiset((m - {i}).Keys) == multiset(m.Keys) - multiset{i}
  {
    assert (m - {i}).Keys == m.Keys - {i};
  }

  class ManualQueue {
    var pq: seq<ManualItem>
    var index: map<int, ManualItem>
    var pqSeq: nat
    ghost var repr: set<ManualItem>

    // pq holds the items of repr, each knowing its position.
    ghost predicate Placed()
      reads this`pq, this`repr, repr
    {
      (forall x | x in pq :: x in repr) && (forall x | x in repr :: x in pq) &&
      forall k | 0 <= k < |pq| :: pq[k].pqIdx == k
    }

    ghost function Order(): (r: seq<Rank>)
      requires Placed()
      reads this`pq, this`repr, repr
      ensures |r| == |pq| && forall k | 0 <= k < |pq| :: r[k] == pq[k].Rank()
    {
      RanksOf(pq)
    }

    // ----- container/heap on pq -----

    method Swap(i: nat, j: nat)
      requires i < |pq| && j < |pq| && Placed()
      modifies this`pq, repr`pqIdx
      ensures Placed() && pq == Swapped(old(pq), i, j)
      ensures Order() == Swapped(old(Order()), i, j)
    {
      pq := pq[i := pq[j]][j := pq[i]];
      forall x ensures x in old(pq) <==> x in pq { SwapKeeps(old(pq), i, j, x); }
      pq[i].pqIdx := i;
      pq[j].pqIdx := j;
    }

    method Up(j0: nat)
      requires j0 < |pq| && Placed()
      requires HeapBut(Order(), |pq|, j0) && ChildrenOk(Order(), |pq|, j0)
      modifies this`pq, repr`pqIdx
      ensures Placed() && |pq| == |old(pq)| && Heap(Order(), |pq|)
    {
      var j: nat := j0;
      ghost var r := Order();
      while j > 0 && Before(pq[j].Rank(), pq[Parent(j)].Rank())
        invariant j < |pq| == |old(pq)| && Placed() && r == Order()
        invariant HeapBut(r, |r|, j) && ChildrenOk(r, |r|, j)
      {
        UpStep(r, |r|, j);
        r := Swapped(r, Parent(j), j);
        Swap(Parent(j), j);
        j := Parent(j);
      }
      BothSidesOk(r, |r|, j);
    }

    // The child of i that must move up, if one precedes i.
    function Riser(i: nat, n: nat): (c: Option<nat>)
      requires Placed() && i < |pq| && n <= |pq|
      reads this`pq, this`repr, repr
      ensures c.None? ==> ChildrenOk(Order(), n, i)
      ensures c.Some? ==> BestChild(Order(), n, i, c.value) && Before(Order()[c.value], Order()[i])
    {
      if 2 * i + 1 >= n then None
      else
        ChosenChild(Order(), n, i);
        var left, right := 2 * i + 1, 2 * i + 2;
        var c := if right < n && Before(pq[right].Rank(), pq[left].Rank()) then right else left;
        if Before(pq[c].Rank(), pq[i].Rank()) then Some(c)
        else
          DownStops(Order(), n, i, c);
          None
    }

    method Down(i0: nat, n: nat) returns (moved: bool)
      requires i0 < |pq| && n <= |pq| && Placed() && HeapBut(Order(), n, i0)
      modifies this`pq, repr`pqIdx
      ensures Placed() && |pq| == |old(pq)|
      ensures forall k | n <= k < |pq| :: pq[k] == old(pq)[k]
      ensures moved ==> Heap(Order(), n)
      ensures !moved ==> pq == old(pq) && ChildrenOk(Order(), n, i0)
    {
      var i: nat := i0;
      ghost var r := Order();
      while Riser(i, n).Some?
        invariant i0 <= i < |pq| == |old(pq)| && Placed() && r == Order() && HeapBut(r, n, i)
        invariant forall k | n <= k < |pq| :: pq[k] == old(pq)[k]
        invariant i > i0 ==> Edge(r, i)
        invariant i == i0 ==> pq == old(pq)
        decreases |pq| - i
      {
        var j := Riser(i, n).value;
        DownStep(r, n, i, j);
        r := Swapped(r, i, j);
        Swap(i, j);
        i := j;
      }
      moved := i > i0;
      if moved {
        BothSidesOk(r, n, i);
      }
    }

    method HeapPush(item: ManualItem)
      requires Placed() && Heap(Order(), |pq|) && item !in repr
      modifies this`pq, this`repr, repr`pqIdx, item`pqIdx
      ensures Placed() && Heap(Order(), |pq|) && repr == old(repr) + {item}
    {
      PushPrepares(Order(), item.Rank());
      ghost var r := Order();
      item.pqIdx := |pq|;
      pq, repr := pq + [item], repr + {item};
      assert Order() == r + [item.Rank()];
      Up(|pq| - 1);
    }

    // pqHeap.Pop
    method DropLast() returns (item: ManualItem)
      requires |pq| > 0 && Placed() && Heap(Order(), |pq| - 1)
      modifies this`pq, this`repr
      ensures Placed() && Heap(Order(), |pq|)
      ensures item == old(pq)[|old(pq)| - 1] && repr == old(repr) - {item}
    {
      var n := |pq| - 1;
      item := pq[n];
      ghost var r := Order();
      pq, repr := pq[..n], repr - {item};
      assert Order() == r[..n];
      forall k | 0 < k < n ensures Edge(Order(), k) {
        assert Edge(r, k);
      }
    }

    // The first half of heap.Pop: the root goes last and the rest becomes a heap again.
    method RootToEnd()
      requires |pq| > 0 && Placed() && Heap(Order(), |pq|)
      modifies this`pq, repr`pqIdx
      ensures Placed() && |pq| == |old(pq)| && Heap(Order(), |pq| - 1) && pq[|pq| - 1] == old(pq)[0]
    {
      var n := |pq| - 1;
      PopPrepares(Order());
      Swap(0, n);
      var moved := Down(0, n);
      if !moved {
        BothSidesOk(Order(), n, 0);
      }
    }

    method HeapPop() returns (item: ManualItem)
      requires |pq| > 0 && Placed() && Heap(Order(), |pq|)
      modifies this`pq, this`repr, repr`pqIdx
      ensures Placed() && Heap(Order(), |pq|)
      ensures item == old(pq)[0] && item in old(repr) && repr == old(repr) - {item}
    {
      RootToEnd();
      item := DropLast();
    }

    method HeapFix(i: nat)
      requires i < |pq| && Placed() && HeapBut(Order(), |pq|, i)
      modifies this`pq, repr`pqIdx
      ensures Placed() && |pq| == |old(pq)| && Heap(Order(), |pq|)
    {
      var moved := Down(i, |pq|);
      if !moved {
        Up(i);
      }
    }

    // ----- the queue -----

    ghost predicate Valid()
      reads this, repr
    {
      Placed() && Linked(index, repr, pqSeq) && Heap(Order(), |pq|)
    }

    ghost function Contents(): PrioritySet
      requires Linked(index, repr, pqSeq)
      reads this`index, this`repr, this`pqSeq, repr
    {
      map i | i in index :: index[i].Rank()
    }

    // s is a protocol state with the same queue.
    ghost predicate Shows(s: D.State)
      requires Linked(index, repr, pqSeq)
      reads this`index, this`repr, this`pqSeq, repr
    {
      s.queue == multiset(Contents().Keys)
    }

    lemma ContentsAre(now: PrioritySet)
      requires Linked(index, repr, pqSeq) && now.Keys == index.Keys
      requires forall j | j in now :: now[j] == index[j].Rank()
      ensures Contents() == now
    {
      assert Contents().Keys == now.Keys;
      assert forall j | j in now :: Contents()[j] == now[j];
    }

    constructor ()
      ensures Valid() && Contents() == map[] && pqSeq == 0 && fresh(repr)
    {
      pq, index, pqSeq, repr := [], map[], 0, {};
      new;
      ContentsAre(map[]);
    }

    // heap.Push and the entry in the index, common to a first push and a requeue.
    method Enter(item: ManualItem)
      requires Valid() && item.ins !in index && item.turn <= pqSeq
      requires item !in repr && forall x | x in repr :: x.turn != item.turn
      modifies this`pq, this`repr, this`index, repr`pqIdx, item`pqIdx
      ensures Valid() && repr == old(repr) + {item}
      ensures Contents() == old(Contents())[item.ins := item.Rank()]
    {
      HeapPush(item);
      LinkMore(index, old(repr), pqSeq, item);
      index := index[item.ins := item];
      ContentsAre(old(Contents())[item.ins := item.Rank()]);
    }

    method NewItem(ins: int, job: int, priority: int) returns (item: ManualItem)
      requires Valid()
      modifies this`pqSeq
      ensures Valid() && Contents() == old(Contents()) && pqSeq == old(pqSeq) + 1
      ensures fresh(item) && item.ins == ins && item.job == job && item.Rank() == Ranks.Rank(priority, pqSeq)
      ensures forall x | x in repr :: x.turn < item.turn
    {
      pqSeq := pqSeq + 1;
      item := new ManualItem(ins, job, pqSeq, priority);
      ContentsAre(old(Contents()));
    }

    // In the protocol nobody pushes an instance that is already queued (Safety.PushFindsNoEntry).
    method PushPending(ins: int, job: int, priority: int)
      requires Valid() && ins !in index
      modifies this, repr`pqIdx
      ensures Valid() && pqSeq == old(pqSeq) + 1
      ensures Contents() == old(Contents())[ins := Ranks.Rank(priority, pqSeq)]
      ensures fresh(repr - old(repr)) && old(repr) <= repr && forall x | x in repr - old(repr) :: x.job == job
      ensures forall s, t | old(Shows(s)) && D.CanEnqueue(s, t) && s.threads[t].i == ins :: Shows(D.Push(s, t))
      ensures forall s, t | old(Shows(s)) && ins in s.timers :: Shows(D.TimerFires(s, t, ins))
    {
      var item := NewItem(ins, job, priority);
      Enter(item);
      KeysMore(old(Contents()), ins, item.Rank());
    }

    // heap.Pop and the end of its entry in the index.
    method Leave() returns (item: ManualItem)
      requires Valid() && |pq| > 0
      modifies this`pq, this`repr, this`index, repr`pqIdx
      ensures Valid() && item == old(pq)[0] && item in old(repr) && repr == old(repr) - {item}
      ensures Contents() == old(Contents()) - {item.ins}
    {
      item := HeapPop();
      LinkLess(index, old(repr), pqSeq, item);
      index := index - {item.ins};
      ContentsAre(old(Contents()) - {item.ins});
    }

    method PopPending() returns (popped: Option<ManualItem>)
      requires Valid()
      modifies this`pq, this`repr, this`index, repr`pqIdx
      ensures Valid()
      ensures popped.None? <==> old(Contents()) == map[]
      ensures popped.None? ==> Contents() == map[]
      ensures popped.Some? ==>
                var item := popped.value;
                First(old(Contents()), item.ins) && item.Rank() == old(Contents())[item.ins] &&
                Contents() == old(Contents()) - {item.ins} && item in old(repr) && repr == old(repr) - {item}
      // the highest priority, and of these the earliest push
      ensures popped.Some? ==>
                popped.value.ins in old(Contents()) &&
                forall j | j in old(Contents()) && j != popped.value.ins ::
                  var r := old(Contents())[j];
                  popped.value.priority > r.priority ||
                  (popped.value.priority == r.priority && popped.value.turn < r.turn)
      ensures popped.None? ==> repr == old(repr)
      ensures popped.Some? ==>
                popped.value.turn <= pqSeq && forall x | x in repr :: x.turn != popped.value.turn
      ensures popped.Some? ==>
                forall s, t | old(Shows(s)) ::
                  popped.value.ins in s.queue && Shows(D.Pop(s, t, popped.value.ins))
    {
      if |pq| == 0 {
        assert forall i :: i !in index;
        ContentsAre(map[]);
        return None;
      }
      RootFirst();
      var item := Leave();
      KeysLess(old(Contents()), item.ins);
      popped := Some(item);
    }

    lemma RootFirst()
      requires Valid() && |pq| > 0
      ensures First(Contents(), pq[0].ins)
    {
      forall j | j in index && j != pq[0].ins ensures Before(pq[0].Rank(), index[j].Rank()) {
        var k :| 0 <= k < |pq| && pq[k] == index[j];
        RootIsFirst(Order(), |pq|, k);
      }
    }

    // No slot was free: the same item goes back, with the priority just read and its old turn.
    method Requeue(item: ManualItem, priority: int)
      requires Valid() && item.ins !in index && item.turn <= pqSeq
      requires item !in repr && forall x | x in repr :: x.turn != item.turn
      modifies this`pq, this`repr, this`index, repr`pqIdx, item
      ensures Valid() && repr == old(repr) + {item}
      ensures Contents() == old(Contents())[item.ins := Ranks.Rank(priority, item.turn)]
      ensures forall s, t | old(Shows(s)) && D.CanEnqueue(s, t) && s.threads[t].i == item.ins :: Shows(D.Push(s, t))
    {
      item.priority := priority;
      Enter(item);
      KeysMore(old(Contents()), item.ins, item.Rank());
    }

    method UpdateQueuedPriority(i: int, priority: int) returns (found: bool)
      requires Valid()
      modifies this`pq, repr
      ensures Valid() && repr == old(repr) && index == old(index)
      ensures found <==> i in old(Contents())
      ensures found ==> Contents() == old(Contents())[i := Ranks.Rank(priority, old(Contents())[i].turn)]
      ensures !found ==> Contents() == old(Contents())
    {
      if i !in index {
        return false;
      }
      var item := index[i];
      if item.priority != priority {
        FixPrepares(Order(), item.pqIdx, Ranks.Rank(priority, item.turn));
        ghost var r := Order();
        item.priority := priority;
        assert Order() == r[item.pqIdx := item.Rank()];
        HeapFix(item.pqIdx);
      }
      ContentsAre(old(Contents())[i := item.Rank()]);
      found := true;
    }
  }
}
