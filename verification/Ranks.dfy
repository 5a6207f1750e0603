/** The order of the manual queue, heaps of ranks, and the simple priority set that the
    pointer heap of ManualQueue.dfy implements. */
module Ranks {
  import opened Counting

  // turn is the sequence number an item got when it was first pushed.
  datatype Rank = Rank(priority: int, turn: nat)

  // pqHeap.Less: higher priority first, then the earlier push.
  predicate Before(a: Rank, b: Rank) {
    a.priority > b.priority || (a.priority == b.priority && a.turn < b.turn)
  }

  function Parent(k: nat): nat
    requires k > 0
  {
    (k - 1) / 2
  }

  // ----- heaps -----

  ghost predicate Edge(r: seq<Rank>, k: nat)
    requires k < |r|
  {
    k == 0 || !Before(r[k], r[Parent(k)])
  }

  // The first n ranks form a heap.
  ghost predicate Heap(r: seq<Rank>, n: nat)
    requires n <= |r|
  {
    forall k | 0 < k < n :: Edge(r, k)
  }

  // A heap but for the edges at i; across i, grandchildren still respect the parent.
  ghost predicate HeapBut(r: seq<Rank>, n: nat, i: nat)
    requires n <= |r|
  {
    (forall k | 0 < k < n && k != i && Parent(k) != i :: Edge(r, k)) &&
    (i < n && i > 0 ==> forall k | 0 < k < n && Parent(k) == i :: !Before(r[k], r[Parent(i)]))
  }

  ghost predicate ChildrenOk(r: seq<Rank>, n: nat, i: nat)
    requires n <= |r|
  {
    forall k | 0 < k < n && Parent(k) == i :: Edge(r, k)
  }

  function Swapped<T>(s: seq<T>, i: nat, j: nat): seq<T>
    requires i < |s| && j < |s|
  {
    s[i := s[j]][j := s[i]]
  }

  // Moving j up past a parent it precedes leaves only the edge above the parent in doubt.
  lemma UpStep(r: seq<Rank>, n: nat, j: nat)
    requires 0 < j < n <= |r| && HeapBut(r, n, j) && ChildrenOk(r, n, j) && Before(r[j], r[Parent(j)])
    ensures HeapBut(Swapped(r, Parent(j), j), n, Parent(j)) && ChildrenOk(Swapped(r, Parent(j), j), n, Parent(j))
  {
    var i := Parent(j);
    var s := Swapped(r, i, j);
    forall k | 0 < k < n && k != i && Parent(k) != i ensures Edge(s, k) {
      if Parent(k) == j {
        assert !Before(r[k], r[i]);
      } else {
        assert Edge(r, k);
      }
    }
    forall k | 0 < k < n && Parent(k) == i ensures Edge(s, k) {
      assert k != j ==> Edge(r, k);
    }
    if i > 0 {
      assert Edge(r, i);
      forall k | 0 < k < n && Parent(k) == i ensures !Before(s[k], s[Parent(i)]) {
        assert k != j ==> Edge(r, k);
      }
    }
  }

  lemma BothSidesOk(r: seq<Rank>, n: nat, j: nat)
    requires j < |r| && n <= |r| && HeapBut(r, n, j) && ChildrenOk(r, n, j) && Edge(r, j)
    ensures Heap(r, n)
  {
    forall k | 0 < k < n ensures Edge(r, k) {
      assert k != j && Parent(k) != j ==> Edge(r, k);
    }
  }

  // c is the best child of i: no child of i goes before it.
  ghost predicate BestChild(r: seq<Rank>, n: nat, i: nat, c: nat)
    requires n <= |r|
  {
    0 < c < n && Parent(c) == i && forall k | 0 < k < n && Parent(k) == i :: !Before(r[k], r[c])
  }

  lemma ChosenChild(r: seq<Rank>, n: nat, i: nat)
    requires n <= |r| && 2 * i + 1 < n
    ensures var right := 2 * i + 2 < n && Before(r[2 * i + 2], r[2 * i + 1]);
            BestChild(r, n, i, if right then 2 * i + 2 else 2 * i + 1)
  {
  }

  lemma DownStops(r: seq<Rank>, n: nat, i: nat, c: nat)
    requires n <= |r| && i < |r| && BestChild(r, n, i, c) && !Before(r[c], r[i])
    ensures ChildrenOk(r, n, i)
  {
  }

  // Moving the best child c of i up leaves only the edges at c in doubt, and not the upper one.
  lemma DownStep(r: seq<Rank>, n: nat, i: nat, c: nat)
    requires n <= |r| && BestChild(r, n, i, c) && HeapBut(r, n, i) && Before(r[c], r[i])
    ensures HeapBut(Swapped(r, i, c), n, c) && Edge(Swapped(r, i, c), c)
    ensures i > 0 ==> Edge(Swapped(r, i, c), i)
  {
    var s := Swapped(r, i, c);
    forall k | 0 < k < n && k != c && Parent(k) != c ensures Edge(s, k) {
      if k == i {
        assert !Before(r[c], r[Parent(i)]);
      } else if Parent(k) == i {
        assert !Before(r[k], r[c]);
      } else {
        assert Edge(r, k);
      }
    }
    forall k | 0 < k < n && Parent(k) == c ensures !Before(s[k], s[Parent(c)]) {
      assert Edge(r, k);
    }
  }

  // Replacing one rank of a heap leaves only the edges at that place in doubt.
  lemma FixPrepares(r: seq<Rank>, i: nat, x: Rank)
    requires i < |r| && Heap(r, |r|)
    ensures HeapBut(r[i := x], |r|, i)
  {
    var s := r[i := x];
    forall k | 0 < k < |r| && k != i && Parent(k) != i ensures Edge(s, k) {
      assert Edge(r, k);
    }
    if i > 0 {
      forall k | 0 < k < |r| && Parent(k) == i ensures !Before(s[k], s[Parent(i)]) {
        assert Edge(r, k) && Edge(r, i);
      }
    }
  }

  lemma PushPrepares(r: seq<Rank>, x: Rank)
    requires Heap(r, |r|)
    ensures HeapBut(r + [x], |r| + 1, |r|) && ChildrenOk(r + [x], |r| + 1, |r|)
  {
    forall k | 0 < k < |r| ensures Edge(r + [x], k) {
      assert Edge(r, k);
    }
  }

  // Pop swaps the root with the last rank and repairs the heap of all but the last.
  lemma PopPrepares(r: seq<Rank>)
    requires |r| > 0 && Heap(r, |r|)
    ensures HeapBut(Swapped(r, 0, |r| - 1), |r| - 1, 0)
  {
    var s := Swapped(r, 0, |r| - 1);
    forall k | 0 < k < |r| - 1 && Parent(k) != 0 ensures Edge(s, k) {
      assert Edge(r, k);
    }
  }

  lemma {:induction false} RootIsFirst(r: seq<Rank>, n: nat, k: nat)
    requires k < n <= |r| && Heap(r, n)
    ensures !Before(r[k], r[0])
  {
    if k > 0 {
      RootIsFirst(r, n, Parent(k));
      assert Edge(r, k);
    }
  }

  // ----- the priority set -----

  type PrioritySet = map<int, Rank>

  ghost predicate DistinctTurns(m: PrioritySet) {
    forall i, j | i in m && j in m && i != j :: m[i].turn != m[j].turn
  }

  // i goes out next.
  ghost predicate First(m: PrioritySet, i: int) {
    i in m && forall j | j in m && j != i :: Before(m[i], m[j])
  }

  // order is what popping m until it is empty yields.
  ghost predicate Drains(m: PrioritySet, order: seq<int>)
    decreases |order|
  {
    if order == [] then m == map[]
    else First(m, order[0]) && Drains(m - {order[0]}, order[1..])
  }

  ghost predicate Sorted(m: PrioritySet, order: seq<int>) {
    (forall i :: i in order <==> i in m) &&
    (forall k, l | 0 <= k < l < |order| && order[k] in m && order[l] in m :: Before(m[order[k]], m[order[l]]))
  }

  // Draining is sorting by priority, then by turn: each entry once, in that order and no other.
  lemma {:induction false} DrainsIffSorted(m: PrioritySet, order: seq<int>)
    ensures Drains(m, order) <==> Sorted(m, order)
    decreases |order|
  {
    if order == [] {
      if Sorted(m, order) {
        assert forall i :: i !in m;
        assert m == map[];
      }
    } else {
      var i, rest := order[0], order[1..];
      var n := m - {i};
      DrainsIffSorted(n, rest);
      if Drains(m, order) {
        forall j ensures j in order <==> j in m {
          assert j in rest <==> j in n;
        }
        forall k, l | 0 <= k < l < |order| && order[k] in m && order[l] in m
          ensures Before(m[order[k]], m[order[l]])
        {
          assert rest[l - 1] == order[l] && rest[l - 1] in rest;
          if k > 0 {
            assert rest[k - 1] == order[k] && rest[k - 1] in rest;
          }
        }
      }
      if Sorted(m, order) {
        SortedTail(m, order);
      }
    }
  }

  lemma SortedTail(m: PrioritySet, order: seq<int>)
    requires order != [] && Sorted(m, order)
    ensures First(m, order[0]) && Sorted(m - {order[0]}, order[1..])
  {
    var i, rest := order[0], order[1..];
    assert i in order;
    forall j | j in m && j != i ensures Before(m[i], m[j]) {
      var l :| 0 <= l < |order| && order[l] == j;
    }
    forall j ensures j in rest <==> j in m - {i} {
      if j in rest {
        var l :| 0 <= l < |rest| && rest[l] == j;
        assert order[l + 1] == j;
        assert j in order;
        assert Before(m[i], m[j]);
      }
      assert order == [i] + rest;
    }
  }

  // With distinct turns there is always a next entry, and only one.
  lemma {:induction false} FirstExists(m: PrioritySet) returns (i: int)
    requires m != map[] && DistinctTurns(m)
    ensures First(m, i)
    ensures forall j | First(m, j) :: j == i
    decreases |m|
  {
    assert (forall x :: x !in m) ==> m == map[];
    var k :| k in m;
    var rest := m - {k};
    i := k;
    if rest != map[] {
      assert |rest| < |m| by { assert rest.Keys == m.Keys - {k}; RemoveSize(m.Keys, k); }
      var j := FirstExists(rest);
      i := if Before(m[k], m[j]) then k else j;
      forall x | x in m && x != i ensures Before(m[i], m[x]) {
        if x != k && x != j {
          assert x in rest && Before(rest[j], rest[x]);
        }
      }
    } else {
      assert forall x | x in m :: x == k || x in rest;
    }
  }
}
