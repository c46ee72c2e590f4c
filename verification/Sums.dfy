/** Sums of an integer column over the rows of a table, a table being a finite map from key to row. */
module Sums {

  ghost function Sum<K, V>(m: map<K, V>, f: V -> int): int
    decreases |m|
  {
    if m == map[] then 0 else var k := Pick(m); f(m[k]) + Sum(m - {k}, f)
  }

  ghost function Pick<K, V>(m: map<K, V>): (k: K)
    requires m != map[]
    ensures k in m
  {
    assert m.Keys == {} ==> m == map[];
    var k :| k in m;
    k
  }

  /** A row's own contribution to a sum: the value in its column, or nothing when the row is missing. */
  ghost function Part<K, V>(m: map<K, V>, f: V -> int, k: K): int {
    if k in m then f(m[k]) else 0
  }

  lemma {:induction false} SumRemove<K, V>(m: map<K, V>, f: V -> int, k: K)
    ensures Sum(m, f) == Part(m, f, k) + Sum(m - {k}, f)
    decreases |m|
  {
    if k !in m {
      assert m - {k} == m;
    } else {
      var p := Pick(m);
      if p != k {
        SumRemove(m - {p}, f, k);
        SumRemove(m - {k}, f, p);
        assert m - {p} - {k} == m - {k} - {p};
      }
    }
  }

  /** Writing a row changes a sum by exactly the difference of the two rows. */
  lemma SumPut<K, V>(m: map<K, V>, f: V -> int, k: K, v: V)
    ensures Sum(m[k := v], f) == Sum(m, f) - Part(m, f, k) + f(v)
  {
    SumRemove(m, f, k);
    SumRemove(m[k := v], f, k);
    assert m[k := v] - {k} == m - {k};
  }

  lemma {:induction false} SumNonNegative<K, V>(m: map<K, V>, f: V -> int)
    requires forall k :: k in m ==> f(m[k]) >= 0
    ensures Sum(m, f) >= 0
    decreases |m|
  {
    if m != map[] {
      SumNonNegative(m - {Pick(m)}, f);
    }
  }

  /** With no negative rows, each row is bounded by the whole. */
  lemma SumBoundsRow<K, V>(m: map<K, V>, f: V -> int, k: K)
    requires k in m && forall j :: j in m ==> f(m[j]) >= 0
    ensures f(m[k]) <= Sum(m, f)
  {
    SumRemove(m, f, k);
    SumNonNegative(m - {k}, f);
  }

  /** Two tables whose rows contribute the same, key by key, have the same sum. */
  lemma {:induction false} SumAgree<K, V, W>(m: map<K, V>, f: V -> int, n: map<K, W>, g: W -> int)
    requires forall k :: k in m || k in n ==> Part(m, f, k) == Part(n, g, k)
    ensures Sum(m, f) == Sum(n, g)
    decreases |m| + |n|
  {
    if m != map[] {
      var k := Pick(m);
      SumRemove(n, g, k);
      SumAgreeStep(m, f, n, g, k);
      SumAgree(m - {k}, f, n - {k}, g);
    } else if n != map[] {
      var k := Pick(n);
      SumAgreeStep(m, f, n, g, k);
      SumAgree(m - {k}, f, n - {k}, g);
      assert m - {k} == m;
    }
  }

  lemma SumAgreeStep<K, V, W>(m: map<K, V>, f: V -> int, n: map<K, W>, g: W -> int, k: K)
    requires forall j :: j in m || j in n ==> Part(m, f, j) == Part(n, g, j)
    ensures forall j :: j in m - {k} || j in n - {k} ==> Part(m - {k}, f, j) == Part(n - {k}, g, j)
    ensures |n - {k}| == |n| - (if k in n then 1 else 0)
    ensures |m - {k}| == |m| - (if k in m then 1 else 0)
  {
    assert (n - {k}).Keys == n.Keys - {k};
    assert (m - {k}).Keys == m.Keys - {k};
    forall j | j in m - {k} || j in n - {k}
      ensures Part(m - {k}, f, j) == Part(n - {k}, g, j)
    {
      assert Part(m, f, j) == Part(n, g, j);
    }
  }

  /** SELECT SUM(column) FROM table, one row at a time. */
  method SumRows<K(==), V>(m: map<K, V>, f: V -> int) returns (total: int)
    ensures total == Sum(m, f)
  {
    total := 0;
    var rest := m;
    while rest != map[]
      invariant total + Sum(rest, f) == Sum(m, f)
      decreases |rest|
    {
      ghost var p := Pick(rest);
      var k :| k in rest;
      SumRemove(rest, f, k);
      assert (rest - {k}).Keys == rest.Keys - {k};
      total := total + f(rest[k]);
      rest := rest - {k};
    }
  }
}
