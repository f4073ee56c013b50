/** Sums over the values of a finite map, used to state that a player's
    energy aggregates equal the sum of its buildings' contributions. */
module Sums {

  /** The sum of all values of `m`, taken in no particular key order. */
  ghost function Sum<K>(m: map<K, real>): real
    decreases m.Keys
  {
    if m.Keys == {} then 0.0
    else
      var k :| k in m.Keys;
      m[k] + Sum(m - {k})
  }

  /** Any key can be taken out first: the sum does not depend on the order. */
  lemma {:induction false} SumRemove<K>(m: map<K, real>, k: K)
    requires k in m
    ensures Sum(m) == m[k] + Sum(m - {k})
    decreases m.Keys
  {
    var j :| j in m.Keys && Sum(m) == m[j] + Sum(m - {j});
    if j != k {
      var rest := m - {j} - {k};
      assert (m - {j}) - {k} == rest;
      assert (m - {k}) - {j} == rest;
      SumRemove(m - {j}, k);
      SumRemove(m - {k}, j);
    }
  }

  /** Two maps with the same keys and the same value at each key are equal. */
  lemma SameEntries<K, V>(m: map<K, V>, m': map<K, V>)
    requires forall k :: (k in m <==> k in m') && (k in m ==> m[k] == m'[k])
    ensures m == m'
  {
  }

  /** Replacing (or adding) one entry shifts the sum by the difference. */
  lemma SumUpdate<K>(m: map<K, real>, k: K, v: real)
    ensures Sum(m[k := v]) == Sum(m) - (if k in m then m[k] else 0.0) + v
  {
    var m' := m[k := v];
    SumRemove(m', k);
    assert m' - {k} == m - {k};
    if k in m {
      SumRemove(m, k);
    } else {
      assert m - {k} == m;
    }
  }

  /** A sum of non-negative values is non-negative. */
  lemma {:induction false} SumNonNegative<K>(m: map<K, real>)
    requires forall k :: k in m ==> m[k] >= 0.0
    ensures Sum(m) >= 0.0
    decreases m.Keys
  {
    if m.Keys != {} {
      var k :| k in m.Keys && Sum(m) == m[k] + Sum(m - {k});
      SumNonNegative(m - {k});
    }
  }
}
