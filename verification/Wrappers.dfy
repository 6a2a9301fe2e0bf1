/** Shared result types. */
module Wrappers {
  datatype Option<+T> = None | Some(value: T)

  datatype Result<+T, +E> = Success(value: T) | Failure(error: E)

  type Byte = b: nat | b < 256

  // The integers a JavaScript number tells apart from their neighbours.
  const MAX_SAFE_INTEGER: int := 9_007_199_254_740_991

  type SafeInteger = i: int | -MAX_SAFE_INTEGER <= i <= MAX_SAFE_INTEGER

  // A map held in a record field.  The box keeps large state records cheap to reason about.
  datatype Table<K, V> = Table(m: map<K, V>) {
    function Put(k: K, v: V): Table<K, V> { Table(m[k := v]) }

    function Drop(k: K): Table<K, V> { Table(m - {k}) }
  }

  // ----- insertion orders ----------------------------------------------------------------------------

  predicate Distinct<T(==)>(order: seq<T>) { forall i, j :: 0 <= i < j < |order| ==> order[i] != order[j] }

  function Excluding<T(==)>(order: seq<T>, k: T): seq<T> {
    if order == [] then [] else if order[0] == k then Excluding(order[1..], k) else [order[0]] + Excluding(order[1..], k)
  }

  lemma {:induction false} ExcludingKeeps<T>(order: seq<T>, k: T)
    requires Distinct(order)
    ensures Distinct(Excluding(order, k)) && forall x :: x in Excluding(order, k) <==> x in order && x != k
  {
    if order != [] {
      assert Distinct(order[1..]);
      ExcludingKeeps(order[1..], k);
      assert forall x :: x in order <==> x == order[0] || x in order[1..];
      assert order[0] !in order[1..];
    }
  }

  lemma DistinctAppended<T>(order: seq<T>, k: T)
    requires Distinct(order) && k !in order
    ensures Distinct(order + [k])
  {
    forall i, j | 0 <= i < j < |order| + 1 ensures (order + [k])[i] != (order + [k])[j] {
      assert (order + [k])[i] == order[i];
    }
  }

  // ----- sizes of sets -------------------------------------------------------------------------------

  lemma SubsetCard<T>(a: set<T>, b: set<T>)
    requires a <= b
    ensures |a| <= |b|
  {
    if a != {} {
      var x :| x in a;
      SubsetCard(a - {x}, b - {x});
    }
  }

  lemma UnionCard<T>(a: set<T>, b: set<T>)
    ensures |a + b| <= |a| + |b|
  {
    assert |a + b| == |a| + |b - a| by { assert a + b == a + (b - a); }
    SubsetCard(b - a, b);
  }

  // ----- sums ----------------------------------------------------------------------------------------

  ghost function Sum<K(!new)>(m: map<K, nat>): nat {
    if m == map[] then 0 else
      var k :| k in m;
      m[k] + Sum(m - {k})
  }

  lemma {:induction false} SumDrop<K(!new)>(m: map<K, nat>, k: K)
    requires k in m
    ensures Sum(m) == m[k] + Sum(m - {k})
    decreases |m|
  {
    var b :| b in m && Sum(m) == m[b] + Sum(m - {b});
    if k != b {
      SumDrop(m - {b}, k);
      SumDrop(m - {k}, b);
      assert m - {b} - {k} == m - {k} - {b};
    }
  }
}
