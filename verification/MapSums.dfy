/** Sums over the entries of a finite map, for totals over users, launches and cards. */
module MapSums {

  ghost function Sum<K, V>(m: map<K, V>, f: V -> int): int
    decreases |m|
  {
    if m == map[] then 0 else
      var k :| k in m;
      f(m[k]) + Sum(m - {k}, f)
  }

  lemma {:induction false} SumSplit<K, V>(m: map<K, V>, k: K, f: V -> int)
    requires k in m
    ensures Sum(m, f) == f(m[k]) + Sum(m - {k}, f)
    decreases |m|
  {
    var j :| j in m && Sum(m, f) == f(m[j]) + Sum(m - {j}, f);
    if j != k {
      SumSplit(m - {j}, k, f);
      SumSplit(m - {k}, j, f);
      assert m - {j} - {k} == m - {k} - {j};
    }
  }

  /** Writing one entry changes the sum by that entry's change. */
  lemma SumUpdate<K, V>(m: map<K, V>, k: K, v: V, f: V -> int)
    ensures Sum(m[k := v], f) == Sum(m, f) - (if k in m then f(m[k]) else 0) + f(v)
  {
    SumSplit(m[k := v], k, f);
    if k in m {
      SumSplit(m, k, f);
      assert m[k := v] - {k} == m - {k};
    } else {
      assert m[k := v] - {k} == m;
    }
  }

  lemma {:induction false} SumNonNegative<K, V>(m: map<K, V>, f: V -> int)
    requires forall k :: k in m ==> 0 <= f(m[k])
    ensures 0 <= Sum(m, f)
    decreases |m|
  {
    if m != map[] {
      var k :| k in m && Sum(m, f) == f(m[k]) + Sum(m - {k}, f);
      SumNonNegative(m - {k}, f);
    }
  }

  /** With no negative entry, no entry exceeds the sum. */
  lemma SumCoversEntry<K, V>(m: map<K, V>, k: K, f: V -> int)
    requires k in m && forall j :: j in m ==> 0 <= f(m[j])
    ensures f(m[k]) <= Sum(m, f)
  {
    SumSplit(m, k, f);
    SumNonNegative(m - {k}, f);
  }

  /** f + b * g, summed. */
  lemma {:induction false} SumAddScaled<K, V>(m: map<K, V>, f: V -> int, g: V -> int, h: V -> int, b: int)
    requires forall k :: k in m ==> h(m[k]) == f(m[k]) + b * g(m[k])
    ensures Sum(m, h) == Sum(m, f) + b * Sum(m, g)
    decreases |m|
  {
    if m != map[] {
      var k :| k in m && Sum(m, h) == h(m[k]) + Sum(m - {k}, h);
      SumSplit(m, k, f);
      SumSplit(m, k, g);
      SumAddScaled(m - {k}, f, g, h, b);
      assert b * (g(m[k]) + Sum(m - {k}, g)) == b * g(m[k]) + b * Sum(m - {k}, g);
    }
  }

  /** Entrywise a * f <= g gives the same of the sums. */
  lemma {:induction false} SumScaledBound<K, V>(m: map<K, V>, f: V -> int, g: V -> int, a: int)
    requires forall k :: k in m ==> a * f(m[k]) <= g(m[k])
    ensures a * Sum(m, f) <= Sum(m, g)
    decreases |m|
  {
    if m != map[] {
      var k :| k in m && Sum(m, f) == f(m[k]) + Sum(m - {k}, f);
      SumSplit(m, k, g);
      SumScaledBound(m - {k}, f, g, a);
      assert a * (f(m[k]) + Sum(m - {k}, f)) == a * f(m[k]) + a * Sum(m - {k}, f);
    }
  }

  lemma {:induction false} SumMonotone<K, V>(m: map<K, V>, f: V -> int, g: V -> int)
    requires forall k :: k in m ==> f(m[k]) <= g(m[k])
    ensures Sum(m, f) <= Sum(m, g)
    decreases |m|
  {
    if m != map[] {
      var k :| k in m && Sum(m, f) == f(m[k]) + Sum(m - {k}, f);
      SumSplit(m, k, g);
      SumMonotone(m - {k}, f, g);
    }
  }
}
