/** Sums over the entries of a finite map. */
module Sums {

  ghost function Total<K(!new), V(!new)>(m: map<K, V>, f: (K, V) -> int): int
    decreases |m|
  {
    if m == map[] then 0
    else
      var k :| k in m;
      Smaller(m, k);
      f(k, m[k]) + Total(m - {k}, f)
  }

  lemma Smaller<K, V>(m: map<K, V>, k: K)
    requires k in m
    ensures |m - {k}| < |m|
  {
    assert (m - {k}).Keys == m.Keys - {k};
  }

  /** Any entry can be split off. */
  lemma {:induction false} TotalRemove<K(!new), V(!new)>(m: map<K, V>, k: K, f: (K, V) -> int)
    requires k in m
    ensures Total(m, f) == f(k, m[k]) + Total(m - {k}, f)
    decreases |m|
  {
    var first :| first in m && Total(m, f) == f(first, m[first]) + Total(m - {first}, f);
    if first != k {
      Smaller(m, first);
      Smaller(m, k);
      TotalRemove(m - {first}, k, f);
      TotalRemove(m - {k}, first, f);
      assert m - {first} - {k} == m - {k} - {first};
    }
  }

  function At<K, V>(m: map<K, V>, k: K, f: (K, V) -> int): int {
    if k in m then f(k, m[k]) else 0
  }

  lemma TotalWithout<K(!new), V(!new)>(m: map<K, V>, k: K, f: (K, V) -> int)
    ensures Total(m - {k}, f) == Total(m, f) - At(m, k, f)
  {
    if k in m {
      TotalRemove(m, k, f);
    } else {
      assert m - {k} == m;
    }
  }

  lemma TotalUpdate<K(!new), V(!new)>(m: map<K, V>, k: K, v: V, f: (K, V) -> int)
    ensures Total(m[k := v], f) == Total(m, f) - At(m, k, f) + f(k, v)
  {
    TotalRemove(m[k := v], k, f);
    assert m[k := v] - {k} == m - {k};
    TotalWithout(m, k, f);
  }

  /** A sum of zeroes is zero. */
  lemma {:induction false} TotalZero<K(!new), V(!new)>(m: map<K, V>, f: (K, V) -> int)
    requires forall k :: k in m ==> f(k, m[k]) == 0
    ensures Total(m, f) == 0
    decreases |m|
  {
    if m != map[] {
      var k :| k in m;
      TotalRemove(m, k, f);
      Smaller(m, k);
      TotalZero(m - {k}, f);
    }
  }

  lemma {:induction false} TotalNonNegative<K(!new), V(!new)>(m: map<K, V>, f: (K, V) -> int)
    requires forall k :: k in m ==> f(k, m[k]) >= 0
    ensures Total(m, f) >= 0
    decreases |m|
  {
    if m != map[] {
      var k :| k in m;
      TotalRemove(m, k, f);
      Smaller(m, k);
      TotalNonNegative(m - {k}, f);
    }
  }
}
