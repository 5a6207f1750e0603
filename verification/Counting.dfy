/** Counting the entries of a finite map whose value satisfies a predicate. */
module Counting {
  datatype Option<+T> = None | Some(value: T)

  ghost function Hits<V>(m: map<int, V>, p: V -> bool): set<int> {
    set k | k in m && p(m[k])
  }

  // How many keys of m hold a value satisfying p.
  ghost function Count<V>(m: map<int, V>, p: V -> bool): nat {
    |Hits(m, p)|
  }

  function Bit(b: bool): nat { if b then 1 else 0 }

  lemma CountPut<V>(m: map<int, V>, k: int, v: V, p: V -> bool)
    ensures Count(m[k := v], p) + Bit(k in m && p(m[k])) == Count(m, p) + Bit(p(v))
  {
    var before, after := Hits(m, p), Hits(m[k := v], p);
    assert after - {k} == before - {k};
    assert k in after <==> p(v);
    assert k in before <==> k in m && p(m[k]);
    RemoveSize(before, k);
    RemoveSize(after, k);
  }

  lemma RemoveSize<T>(s: set<T>, x: T)
    ensures |s - {x}| + Bit(x in s) == |s|
  {
    if x in s {
      assert s == (s - {x}) + {x};
    } else {
      assert s == s - {x};
    }
  }

  lemma CountDrop<V>(m: map<int, V>, k: int, p: V -> bool)
    ensures Count(m - {k}, p) + Bit(k in m && p(m[k])) == Count(m, p)
  {
    var before, after := Hits(m, p), Hits(m - {k}, p);
    assert after == before - {k};
    assert k in before <==> k in m && p(m[k]);
    RemoveSize(before, k);
  }

  lemma CountWitness<V>(m: map<int, V>, k: int, p: V -> bool)
    requires k in m && p(m[k])
    ensures Count(m, p) >= 1
  {
    assert k in Hits(m, p);
  }

  // Two different witnesses make a count of at least two.
  lemma CountTwo<V>(m: map<int, V>, k: int, l: int, p: V -> bool)
    requires k != l && k in m && l in m && p(m[k]) && p(m[l])
    ensures Count(m, p) >= 2
  {
    SubsetSize({k, l}, Hits(m, p));
  }

  lemma CountZero<V>(m: map<int, V>, p: V -> bool)
    requires forall k | k in m :: !p(m[k])
    ensures Count(m, p) == 0
  {
    assert forall k | k in m :: k !in Hits(m, p);
    assert Hits(m, p) <= {};
  }

  lemma SubsetSize<T>(a: set<T>, b: set<T>)
    requires a <= b
    ensures |a| <= |b|
  {
    assert b == a + (b - a);
  }

  // The order in which a map is ranged over: any order, each key once.
  method RangeOver<T>(s: set<T>) returns (order: seq<T>)
    ensures forall x :: x in order <==> x in s
    ensures forall m, n | 0 <= m < n < |order| :: order[m] != order[n]
  {
    order := [];
    var rest := s;
    while rest != {}
      invariant rest <= s
      invariant forall x :: x in order <==> x in s && x !in rest
      invariant forall m, n | 0 <= m < n < |order| :: order[m] != order[n]
      decreases rest
    {
      var x :| x in rest;
      order, rest := order + [x], rest - {x};
    }
  }
}
