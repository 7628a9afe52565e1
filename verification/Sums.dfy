/** Sums over the entries of a finite map. */
module Sums {

  ghost function Sum<K(!new)>(m: map<K, int>): int
    decreases |m|
  {
    if m == map[] then 0 else var k :| k in m; m[k] + Sum(m - {k})
  }

  /** Any entry can be taken out first. */
  lemma {:induction false} SumSplit<K(!new)>(m: map<K, int>, k: K)
    requires k in m
    ensures Sum(m) == m[k] + Sum(m - {k})
    decreases |m|
  {
    var c :| c in m && Sum(m) == m[c] + Sum(m - {c});
    if c != k {
      SumSplit(m - {c}, k);
      SumSplit(m - {k}, c);
      assert m - {c} - {k} == m - {k} - {c};
    }
  }

  lemma SumUpdate<K(!new)>(m: map<K, int>, k: K, v: int)
    ensures Sum(m[k := v]) == Sum(m) - (if k in m then m[k] else 0) + v
  {
    SumSplit(m[k := v], k);
    if k in m {
      SumSplit(m, k);
      assert m[k := v] - {k} == m - {k};
    } else {
      assert m[k := v] - {k} == m;
    }
  }

  lemma {:induction false} SumMonotone<K(!new)>(m: map<K, int>, n: map<K, int>)
    requires m.Keys == n.Keys && forall k :: k in m ==> m[k] <= n[k]
    ensures Sum(m) <= Sum(n)
    decreases |m|
  {
    if m != map[] {
      var k :| k in m;
      SumSplit(m, k);
      SumSplit(n, k);
      SumMonotone(m - {k}, n - {k});
    }
  }

  /** Entries that are nonnegative add up to something nonnegative. */
  lemma {:induction false} SumNonnegative<K(!new)>(m: map<K, int>)
    requires forall k :: k in m ==> 0 <= m[k]
    ensures 0 <= Sum(m)
    decreases |m|
  {
    if m != map[] {
      var k :| k in m;
      SumSplit(m, k);
      SumNonnegative(m - {k});
    }
  }

  lemma {:induction false} SumZero<K(!new)>(m: map<K, int>)
    requires forall k :: k in m ==> 0 <= m[k]
    ensures Sum(m) == 0 <==> forall k :: k in m ==> m[k] == 0
    decreases |m|
  {
    if m != map[] {
      var k :| k in m;
      SumSplit(m, k);
      SumNonnegative(m - {k});
      SumZero(m - {k});
      assert forall j :: j in m <==> j == k || j in m - {k};
    }
  }

  lemma {:induction false} SumDifference<K(!new)>(m: map<K, int>, n: map<K, int>, d: map<K, int>)
    requires m.Keys == n.Keys == d.Keys && forall k :: k in d ==> d[k] == m[k] - n[k]
    ensures Sum(d) == Sum(m) - Sum(n)
    decreases |m|
  {
    if m == map[] {
      assert n == map[] && d == map[];
    } else {
      var k :| k in m;
      SumSplit(m, k);
      SumSplit(n, k);
      SumSplit(d, k);
      SumDifference(m - {k}, n - {k}, d - {k});
    }
  }
}
