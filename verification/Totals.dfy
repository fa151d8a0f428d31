/** Sums over finite maps, by a weight on the values: counts and byte totals of whatever is live. */
module Totals {

  /** The sum of `weight(m[k])` over the keys of `m`. */
  ghost function Total<K, V>(m: map<K, V>, weight: V -> nat): nat
    decreases |m|
  {
    if m == map[] then 0 else
      var k :| k in m;
      weight(m[k]) + Total(m - {k}, weight)
  }

  lemma {:induction false} TotalRemove<K, V>(m: map<K, V>, weight: V -> nat, k: K)
    requires k in m
    ensures Total(m, weight) == weight(m[k]) + Total(m - {k}, weight)
    decreases |m|
  {
    var first :| first in m && Total(m, weight) == weight(m[first]) + Total(m - {first}, weight);
    if first != k {
      TotalRemove(m - {first}, weight, k);
      TotalRemove(m - {k}, weight, first);
      assert (m - {first}) - {k} == (m - {k}) - {first};
    }
  }

  lemma TotalUpdate<K, V>(m: map<K, V>, weight: V -> nat, k: K, v: V)
    ensures Total(m[k := v], weight) == weight(v) + Total(m - {k}, weight)
    ensures k in m ==> Total(m[k := v], weight) + weight(m[k]) == Total(m, weight) + weight(v)
    ensures k !in m ==> Total(m[k := v], weight) == Total(m, weight) + weight(v)
  {
    TotalRemove(m[k := v], weight, k);
    assert m[k := v] - {k} == m - {k};
    if k in m {
      TotalRemove(m, weight, k);
    } else {
      assert m - {k} == m;
    }
  }

  lemma TotalBounds<K, V>(m: map<K, V>, weight: V -> nat, k: K)
    requires k in m
    ensures weight(m[k]) <= Total(m, weight)
  {
    TotalRemove(m, weight, k);
  }

  /** A weight that is nowhere larger has no larger total. */
  lemma {:induction false} TotalMonotone<K, V>(m: map<K, V>, small: V -> nat, large: V -> nat)
    requires forall k | k in m :: small(m[k]) <= large(m[k])
    ensures Total(m, small) <= Total(m, large)
    decreases |m|
  {
    if m != map[] {
      var k :| k in m;
      TotalRemove(m, small, k);
      TotalRemove(m, large, k);
      TotalMonotone(m - {k}, small, large);
    }
  }

  /** A total is zero exactly when every weight in the map is. */
  lemma {:induction false} TotalZero<K, V>(m: map<K, V>, weight: V -> nat)
    ensures Total(m, weight) == 0 <==> forall k | k in m :: weight(m[k]) == 0
    decreases |m|
  {
    if m != map[] {
      var k :| k in m;
      TotalRemove(m, weight, k);
      TotalZero(m - {k}, weight);
      assert forall j | j in m :: j == k || (j in m - {k} && (m - {k})[j] == m[j]);
    }
  }

  lemma SubsetSize<T>(a: set<T>, b: set<T>)
    requires a <= b
    ensures |a| <= |b|
  {
    if a != {} {
      var x :| x in a;
      SubsetSize(a - {x}, b - {x});
    }
  }
}
