/** Sums over the entries of a finite map. */
module FiniteSums {

  /** The sum of `f` over the map's entries, in any order. */
  ghost function Sum<K, V>(m: map<K, V>, f: (K, V) -> real): real {
    if m == map[] then 0.0
    else
      var k :| k in m;
      f(k, m[k]) + Sum(m - {k}, f)
  }

  /** Any entry can be taken out first. */
  lemma {:induction false} TakeOut<K, V>(m: map<K, V>, f: (K, V) -> real, k: K)
    requires k in m
    ensures Sum(m, f) == f(k, m[k]) + Sum(m - {k}, f)
    decreases |m|
  {
    var first :| first in m && Sum(m, f) == f(first, m[first]) + Sum(m - {first}, f);
    if first != k {
      TakeOut(m - {first}, f, k);
      TakeOut(m - {k}, f, first);
      assert m - {first} - {k} == m - {k} - {first};
    }
  }

  /** A new entry adds its own value. */
  lemma PutIn<K, V>(m: map<K, V>, f: (K, V) -> real, k: K, v: V)
    requires k !in m
    ensures Sum(m[k := v], f) == f(k, v) + Sum(m, f)
  {
    TakeOut(m[k := v], f, k);
    assert m[k := v] - {k} == m;
  }

  /** A replaced entry adds the difference. */
  lemma Replace<K, V>(m: map<K, V>, f: (K, V) -> real, k: K, v: V)
    requires k in m
    ensures Sum(m[k := v], f) == Sum(m, f) - f(k, m[k]) + f(k, v)
  {
    TakeOut(m[k := v], f, k);
    TakeOut(m, f, k);
    assert m[k := v] - {k} == m - {k};
  }

  /** Terms that are zero or above a bound sum to zero or above the bound, and to zero only when all are zero. */
  lemma {:induction false} ZeroOrAbove<K, V>(m: map<K, V>, f: (K, V) -> real, low: real)
    requires low >= 0.0
    requires forall k :: k in m ==> f(k, m[k]) == 0.0 || f(k, m[k]) > low
    ensures Sum(m, f) == 0.0 || Sum(m, f) > low
    ensures Sum(m, f) == 0.0 ==> forall k :: k in m ==> f(k, m[k]) == 0.0
    decreases |m|
  {
    if m != map[] {
      var k :| k in m;
      TakeOut(m, f, k);
      ZeroOrAbove(m - {k}, f, low);
      forall x | Sum(m, f) == 0.0 && x in m
        ensures f(x, m[x]) == 0.0
      {
        if x != k { assert x in m - {k}; }
      }
    }
  }

  lemma {:induction false} AllZero<K, V>(m: map<K, V>, f: (K, V) -> real)
    requires forall k :: k in m ==> f(k, m[k]) == 0.0
    ensures Sum(m, f) == 0.0
    decreases |m|
  {
    if m != map[] {
      var k :| k in m;
      TakeOut(m, f, k);
      AllZero(m - {k}, f);
    }
  }

  /** Term by term smaller, on the same keys, is smaller in sum. */
  lemma {:induction false} AtMost<K, V>(m: map<K, V>, n: map<K, V>, f: (K, V) -> real, g: (K, V) -> real)
    requires m.Keys == n.Keys && forall k :: k in m ==> f(k, m[k]) <= g(k, n[k])
    ensures Sum(m, f) <= Sum(n, g)
    decreases |m|
  {
    if m != map[] {
      var k :| k in m;
      TakeOut(m, f, k);
      TakeOut(n, g, k);
      AtMost(m - {k}, n - {k}, f, g);
    } else {
      assert n == map[];
    }
  }

  /** Leaving out entries that add nothing changes nothing. */
  lemma {:induction false} LeaveOut<K, V>(m: map<K, V>, gone: set<K>, f: (K, V) -> real)
    requires forall k :: k in m && k in gone ==> f(k, m[k]) == 0.0
    ensures Sum(m - gone, f) == Sum(m, f)
    decreases |m|
  {
    if k :| k in m && k in gone {
      TakeOut(m, f, k);
      LeaveOut(m - {k}, gone, f);
      assert m - {k} - gone == m - gone;
    } else {
      assert m - gone == m;
    }
  }
}
