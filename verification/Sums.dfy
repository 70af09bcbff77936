/** Sums of the values of a finite map, independent of the order of its keys. */
module Sums {
  ghost function Sum<K>(m: map<K, real>): real
  {
    if m == map[] then 0.0 else
      var k :| k in m;
      m[k] + Sum(m - {k})
  }

  lemma {:induction false} SumRemove<K>(m: map<K, real>, k: K)
    requires k in m
    ensures Sum(m) == m[k] + Sum(m - {k})
    decreases |m|
  {
    var first :| first in m && Sum(m) == m[first] + Sum(m - {first});
    if first != k {
      SumRemove(m - {first}, k);
      SumRemove(m - {k}, first);
      assert m - {first} - {k} == m - {k} - {first};
    }
  }

  lemma SumUpdate<K>(m: map<K, real>, k: K, v: real)
    ensures Sum(m[k := v]) == Sum(m) - (if k in m then m[k] else 0.0) + v
  {
    SumRemove(m[k := v], k);
    assert m[k := v] - {k} == m - {k};
    if k in m {
      SumRemove(m, k);
    } else {
      assert m - {k} == m;
    }
  }

  lemma {:induction false} SumNonNegative<K>(m: map<K, real>)
    requires forall k | k in m :: m[k] >= 0.0
    ensures Sum(m) >= 0.0
    ensures forall k | k in m :: m[k] <= Sum(m)
    decreases |m|
  {
    forall k | k in m ensures 0.0 <= m[k] <= Sum(m) {
      SumRemove(m, k);
      SumNonNegative(m - {k});
    }
    if m != map[] {
      var k :| k in m;
      assert m[k] <= Sum(m);
    }
  }

  lemma {:induction false} SumZero<K>(m: map<K, real>)
    requires forall k | k in m :: m[k] == 0.0
    ensures Sum(m) == 0.0
    decreases |m|
  {
    if m != map[] {
      var k :| k in m;
      SumRemove(m, k);
      SumZero(m - {k});
    }
  }
}
