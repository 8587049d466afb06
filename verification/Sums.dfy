/** Sums over the values of a finite map, as `files.values().map(..).sum()` takes them, and sizes of sets. */
module Sums {
  ghost function Sum<K>(m: map<K, nat>): nat
  {
    if m == map[] then 0
    else
      var k :| k in m;
      m[k] + Sum(m - {k})
  }

  /** The order in which the entries are added does not matter. */
  lemma {:induction false} SumRemove<K>(m: map<K, nat>, k: K)
    requires k in m
    ensures Sum(m) == m[k] + Sum(m - {k})
    decreases |m|
  {
    var first :| first in m && Sum(m) == m[first] + Sum(m - {first});
    if first != k {
      SumRemove(m - {first}, k);
      SumRemove(m - {k}, first);
      assert m - {first} - {k} == m - {k} - {first};
    }
  }

  /** Changing one entry changes the sum by the difference. */
  lemma SumUpdate<K>(m: map<K, nat>, k: K, v: nat)
    requires k in m
    ensures Sum(m[k := v]) + m[k] == Sum(m) + v
  {
    SumRemove(m, k);
    SumRemove(m[k := v], k);
    assert m[k := v] - {k} == m - {k};
  }

  /** Adding a new entry adds its value. */
  lemma SumInsert<K>(m: map<K, nat>, k: K, v: nat)
    requires k !in m
    ensures Sum(m[k := v]) == Sum(m) + v
  {
    SumRemove(m[k := v], k);
    assert m[k := v] - {k} == m;
  }

  /** Two pointwise smaller maps over disjoint keys stay below the sum over all keys. */
  lemma {:induction false} SumOfPartsBound<K>(a: map<K, nat>, b: map<K, nat>, whole: map<K, nat>)
    requires a.Keys !! b.Keys
    requires forall k :: k in a ==> k in whole && a[k] <= whole[k]
    requires forall k :: k in b ==> k in whole && b[k] <= whole[k]
    ensures Sum(a) + Sum(b) <= Sum(whole)
    decreases |a| + |b|
  {
    if a != map[] {
      var k :| k in a;
      SumRemove(a, k);
      SumRemove(whole, k);
      SumOfPartsBound(a - {k}, b, whole - {k});
    } else if b != map[] {
      var k :| k in b;
      SumRemove(b, k);
      SumRemove(whole, k);
      SumOfPartsBound(a, b - {k}, whole - {k});
    }
  }

  lemma SubsetSize<T>(a: set<T>, b: set<T>)
    requires a <= b
    ensures |a| <= |b|
  {
    assert b == a + (b - a);
  }
}
