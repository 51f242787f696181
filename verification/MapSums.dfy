/** Sums over the values of a map. */
module MapSums {

  function Get<K(==)>(m: map<K, int>, k: K): int {
    if k in m then m[k] else 0
  }

  ghost function Pick<K, V>(m: map<K, V>): (k: K)
    requires m != map[]
    ensures k in m
  {
    assert m.Keys == {} ==> m == map[];
    var k :| k in m.Keys;
    k
  }

  ghost function Sum<K, V>(m: map<K, V>, f: V -> int): int
    decreases |m|
  {
    if m == map[] then 0
    else
      RemovedIsSmaller(m, Pick(m));
      f(m[Pick(m)]) + Sum(m - {Pick(m)}, f)
  }

  lemma RemovedIsSmaller<K, V>(m: map<K, V>, k: K)
    requires k in m
    ensures |m - {k}| == |m| - 1
  {
    assert (m - {k}).Keys == m.Keys - {k};
    assert |m.Keys| == |m| && |(m - {k}).Keys| == |m - {k}|;
  }

  /** Any key may be taken out first. */
  lemma {:induction false} SumRemove<K, V>(m: map<K, V>, k: K, f: V -> int)
    requires k in m
    ensures Sum(m, f) == Sum(m - {k}, f) + f(m[k])
    decreases |m|
  {
    var p := Pick(m);
    if p != k {
      RemovedIsSmaller(m, p);
      RemovedIsSmaller(m, k);
      SumRemove(m - {p}, k, f);
      SumRemove(m - {k}, p, f);
      assert m - {p} - {k} == m - {k} - {p};
    }
  }

  lemma SumUpdate<K, V>(m: map<K, V>, k: K, v: V, f: V -> int)
    ensures Sum(m[k := v], f) == Sum(m, f) - (if k in m then f(m[k]) else 0) + f(v)
  {
    SumRemove(m[k := v], k, f);
    assert m[k := v] - {k} == m - {k};
    if k in m {
      SumRemove(m, k, f);
    } else {
      assert m - {k} == m;
    }
  }

  lemma {:induction false} SumNonNegative<K, V>(m: map<K, V>, f: V -> int)
    requires forall k :: k in m ==> f(m[k]) >= 0
    ensures Sum(m, f) >= 0
    decreases |m|
  {
    if m != map[] {
      RemovedIsSmaller(m, Pick(m));
      SumNonNegative(m - {Pick(m)}, f);
    }
  }

  lemma {:induction false} SumOfZeros<K, V>(m: map<K, V>, f: V -> int)
    requires forall k :: k in m ==> f(m[k]) == 0
    ensures Sum(m, f) == 0
    decreases |m|
  {
    if m != map[] {
      RemovedIsSmaller(m, Pick(m));
      SumOfZeros(m - {Pick(m)}, f);
    }
  }

  /** A member contributes no more than the whole, when nothing is negative. */
  lemma SumAtLeast<K, V>(m: map<K, V>, k: K, f: V -> int)
    requires k in m && forall j :: j in m ==> f(m[j]) >= 0
    ensures 0 <= f(m[k]) <= Sum(m, f)
  {
    SumRemove(m, k, f);
    SumNonNegative(m - {k}, f);
  }

  ghost function Total<K>(m: map<K, int>): int {
    Sum(m, v => v)
  }

  lemma TotalUpdate<K>(m: map<K, int>, k: K, v: int)
    ensures Total(m[k := v]) == Total(m) - Get(m, k) + v
  {
    SumUpdate(m, k, v, (v: int) => v);
  }
}
