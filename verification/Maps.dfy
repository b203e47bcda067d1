/** Finite maps: updates, and sums over the values. */
module Maps {
  lemma SetTwice<K, V>(m: map<K, V>, k: K, v: V, w: V)
    ensures m[k := v][k := w] == m[k := w]
  {
  }

  lemma SetsTwice<K, V>(m: map<K, V>, k: K)
    ensures forall v, w {:trigger m[k := v][k := w]} :: m[k := v][k := w] == m[k := w]
  {
  }

  ghost function Sum<K(!new), V>(m: map<K, V>, f: V -> nat): nat
    decreases |m|
  {
    if m == map[] then 0 else
    var k :| k in m;
    f(m[k]) + Sum(m - {k}, f)
  }

  lemma {:induction false} SumSplit<K(!new), V>(m: map<K, V>, f: V -> nat, k: K)
    requires k in m
    ensures Sum(m, f) == f(m[k]) + Sum(m - {k}, f)
    decreases |m|
  {
    var first :| first in m && Sum(m, f) == f(m[first]) + Sum(m - {first}, f);
    if first != k {
      SumSplit(m - {first}, f, k);
      SumSplit(m - {k}, f, first);
      assert m - {first} - {k} == m - {k} - {first};
    }
  }

  lemma SumInsert<K(!new), V>(m: map<K, V>, f: V -> nat, k: K, v: V)
    requires k !in m
    ensures Sum(m[k := v], f) == Sum(m, f) + f(v)
  {
    SumSplit(m[k := v], f, k);
    assert m[k := v] - {k} == m;
  }

  lemma SumUpdate<K(!new), V>(m: map<K, V>, f: V -> nat, k: K, v: V)
    requires k in m
    ensures Sum(m[k := v], f) == Sum(m, f) - f(m[k]) + f(v)
  {
    SumSplit(m, f, k);
    SumSplit(m[k := v], f, k);
    assert m[k := v] - {k} == m - {k};
  }
}
