/** The sum of a weight over the entries of a map, and what one update does to it. */
module Sums {

  ghost function Pick<K, V>(m: map<K, V>): K
    requires m != map[]
  {
    assert m.Keys != {};
    var k :| k in m.Keys;
    k
  }

  ghost function Sum<K(!new), V(!new)>(m: map<K, V>, w: (K, V) -> nat): nat
    decreases |m|
  {
    if m == map[] then 0
    else
      var k := Pick(m);
      w(k, m[k]) + Sum(m - {k}, w)
  }

  /** Any entry may be taken out first. */
  lemma {:induction false} SumRemove<K(!new), V(!new)>(m: map<K, V>, w: (K, V) -> nat, k: K)
    requires k in m
    ensures Sum(m, w) == w(k, m[k]) + Sum(m - {k}, w)
    decreases |m|
  {
    var j := Pick(m);
    if j != k {
      SumRemove(m - {j}, w, k);
      SumRemove(m - {k}, w, j);
      assert m - {j} - {k} == m - {k} - {j};
    }
  }

  /** Writing one entry changes the sum by the difference of its weights. */
  lemma SumUpdate<K(!new), V(!new)>(m: map<K, V>, w: (K, V) -> nat, k: K, v: V)
    ensures Sum(m[k := v], w) == Sum(m, w) + w(k, v) - (if k in m then w(k, m[k]) else 0)
  {
    var m' := m[k := v];
    SumRemove(m', w, k);
    assert m' - {k} == m - {k};
    if k in m {
      SumRemove(m, w, k);
    } else {
      assert m - {k} == m;
    }
  }

  lemma SumAtLeast<K(!new), V(!new)>(m: map<K, V>, w: (K, V) -> nat, k: K)
    requires k in m
    ensures w(k, m[k]) <= Sum(m, w)
  {
    SumRemove(m, w, k);
  }

  /** Weights ordered entry by entry give sums in the same order. */
  lemma {:induction false} SumMono<K(!new), V(!new)>(m: map<K, V>, w: (K, V) -> nat, w': (K, V) -> nat)
    requires forall k | k in m :: w(k, m[k]) <= w'(k, m[k])
    ensures Sum(m, w) <= Sum(m, w')
    decreases |m|
  {
    if m != map[] {
      var k := Pick(m);
      SumMono(m - {k}, w, w');
    }
  }
}
