/** Sums over the values of a table. */
module Totals {

  ghost function Total<K>(m: map<K, int>): int
    decreases |m|
  {
    if m == map[] then 0
    else
      var k :| k in m;
      m[k] + Total(m - {k})
  }

  /** Any key may be taken out first. */
  lemma {:induction false} TotalWithout<K>(m: map<K, int>, k: K)
    requires k in m
    ensures Total(m) == m[k] + Total(m - {k})
    decreases |m|
  {
    var p :| p in m && Total(m) == m[p] + Total(m - {p});
    if p != k {
      TotalWithout(m - {p}, k);
      TotalWithout(m - {k}, p);
      assert m - {p} - {k} == m - {k} - {p};
    }
  }

  /** Writing one entry changes the sum by the difference at that entry. */
  lemma TotalPut<K>(m: map<K, int>, k: K, v: int)
    ensures Total(m[k := v]) == Total(m) - (if k in m then m[k] else 0) + v
  {
    TotalWithout(m[k := v], k);
    assert m[k := v] - {k} == m - {k};
    if k in m {
      TotalWithout(m, k);
    } else {
      assert m - {k} == m;
    }
  }

  /** A sum of zeros is zero. */
  lemma {:induction false} TotalZero<K>(m: map<K, int>)
    requires forall k :: k in m ==> m[k] == 0
    ensures Total(m) == 0
    decreases |m|
  {
    if m != map[] {
      var k :| k in m;
      TotalWithout(m, k);
      TotalZero(m - {k});
    }
  }

  /** Sums of entrywise sums. */
  lemma {:induction false} TotalAdd<K>(m: map<K, int>, x: map<K, int>, y: map<K, int>)
    requires m.Keys == x.Keys == y.Keys
    requires forall k :: k in m ==> m[k] == x[k] + y[k]
    ensures Total(m) == Total(x) + Total(y)
    decreases |m|
  {
    if m == map[] {
      assert x == map[] && y == map[];
    } else {
      var k :| k in m;
      TotalWithout(m, k);
      TotalWithout(x, k);
      TotalWithout(y, k);
      TotalAdd(m - {k}, x - {k}, y - {k});
    }
  }

  /** Sums of entrywise differences. */
  lemma {:induction false} TotalMinus<K>(m: map<K, int>, x: map<K, int>, y: map<K, int>)
    requires m.Keys == x.Keys == y.Keys
    requires forall k :: k in m ==> m[k] == x[k] - y[k]
    ensures Total(m) == Total(x) - Total(y)
  {
    TotalAdd(x, m, y);
  }

  /** Entries that are zero may be left out. */
  lemma {:induction false} TotalSupport<K>(m: map<K, int>, n: map<K, int>)
    requires n.Keys <= m.Keys
    requires forall k :: k in m ==> m[k] == if k in n then n[k] else 0
    ensures Total(m) == Total(n)
    decreases |m|
  {
    if m == map[] {
      assert n == map[];
    } else {
      var k :| k in m;
      TotalWithout(m, k);
      if k in n {
        TotalWithout(n, k);
      } else {
        assert n - {k} == n;
      }
      TotalSupport(m - {k}, n - {k});
    }
  }

  lemma {:induction false} TotalNonNegative<K>(m: map<K, int>)
    requires forall k :: k in m ==> m[k] >= 0
    ensures Total(m) >= 0
    decreases |m|
  {
    if m != map[] {
      var k :| k in m;
      TotalWithout(m, k);
      TotalNonNegative(m - {k});
    }
  }
}
