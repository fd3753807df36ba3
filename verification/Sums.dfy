/** Sums of the values of a finite map, and how they change with the map. */
module Sums {

  ghost function Sum<K>(m: map<K, int>): int
    decreases |m|
  {
    if m == map[] then 0 else
      var k :| k in m;
      assert |m - {k}| < |m| by { Smaller(m, k); }
      m[k] + Sum(m - {k})
  }

  lemma Smaller<K>(m: map<K, int>, k: K)
    requires k in m
    ensures |m - {k}| < |m|
  {
    assert (m - {k}).Keys == m.Keys - {k};
    assert |m.Keys - {k}| < |m.Keys|;
    assert |(m - {k}).Keys| == |m - {k}| && |m.Keys| == |m|;
  }

  /** The sum does not depend on the order in which keys are taken out. */
  lemma {:induction false} Take<K>(m: map<K, int>, k: K)
    requires k in m
    ensures Sum(m) == m[k] + Sum(m - {k})
    decreases |m|
  {
    var j :| j in m && Sum(m) == m[j] + Sum(m - {j});
    if j != k {
      Smaller(m, j);
      Smaller(m, k);
      Take(m - {j}, k);
      Take(m - {k}, j);
      assert m - {j} - {k} == m - {k} - {j};
    }
  }

  lemma Insert<K>(m: map<K, int>, k: K, v: int)
    requires k !in m
    ensures Sum(m[k := v]) == Sum(m) + v
  {
    Take(m[k := v], k);
    assert m[k := v] - {k} == m;
  }

  /** Renaming keys injectively keeps the sum. */
  lemma {:induction false} Rename<K, L>(m: map<K, int>, n: map<L, int>, f: map<K, L>)
    requires f.Keys == m.Keys
    requires forall k :: k in m ==> f[k] in n && n[f[k]] == m[k]
    requires forall j, k :: j in m && k in m && f[j] == f[k] ==> j == k
    requires forall l :: l in n ==> exists k :: k in m && f[k] == l
    ensures Sum(m) == Sum(n)
    decreases |m|
  {
    if m == map[] {
      assert forall l :: l !in n;
      assert n == map[];
    } else {
      var k :| k in m;
      var l := f[k];
      Take(m, k);
      Take(n, l);
      Smaller(m, k);
      forall i | i in n - {l} ensures exists j :: j in m - {k} && (f - {k})[j] == i {
        var j :| j in m && f[j] == i;
        assert j in m - {k} && (f - {k})[j] == i;
      }
      Rename(m - {k}, n - {l}, f - {k});
    }
  }

  lemma UnionWithout<K>(m: map<K, int>, n: map<K, int>, k: K)
    requires k in n && k !in m
    ensures (m + n) - {k} == m + (n - {k})
  {
    var a, b := (m + n) - {k}, m + (n - {k});
    assert a.Keys == b.Keys;
    forall j | j in a ensures a[j] == b[j] {}
  }

  /** Two maps with disjoint keys sum separately. */
  lemma {:induction false} Union<K>(m: map<K, int>, n: map<K, int>)
    requires m.Keys !! n.Keys
    ensures Sum(m + n) == Sum(m) + Sum(n)
    decreases |n|
  {
    if n == map[] {
      assert m + n == m;
    } else {
      var k :| k in n;
      assert k !in m.Keys;
      Smaller(n, k);
      assert (n - {k}).Keys <= n.Keys;
      Union(m, n - {k});
      Take(n, k);
      Take(m + n, k);
      UnionWithout(m, n, k);
    }
  }
}
