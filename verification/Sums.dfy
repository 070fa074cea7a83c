/** Finite sums over the values of a map: the bookkeeping behind every "sum over all accounts". */
module Sums {
  import opened Arith

  ghost function Sum<K>(m: map<K, int>): int
    decreases |m|
  {
    if m == map[] then 0
    else
      var k :| k in m;
      m[k] + Sum(m - {k})
  }

  lemma {:induction false} SumRemove<K>(m: map<K, int>, k: K)
    requires k in m
    ensures Sum(m) == m[k] + Sum(m - {k})
    decreases |m|
  {
    var c :| c in m && Sum(m) == m[c] + Sum(m - {c});
    if c != k {
      SumRemove(m - {c}, k);
      SumRemove(m - {k}, c);
      assert m - {c} - {k} == m - {k} - {c};
    }
  }

  lemma SumSet<K>(m: map<K, int>, k: K, v: int)
    ensures Sum(m[k := v]) == Sum(m) - (if k in m then m[k] else 0) + v
  {
    SumRemove(m[k := v], k);
    if k in m {
      SumRemove(m, k);
      assert m[k := v] - {k} == m - {k};
    } else {
      assert m[k := v] - {k} == m;
    }
  }

  /** r = a + c*b, at every key. */
  ghost predicate Linear<K>(a: map<K, int>, b: map<K, int>, r: map<K, int>, c: int) {
    a.Keys == b.Keys == r.Keys && forall k :: k in r ==> r[k] == a[k] + c * b[k]
  }

  lemma LinearRest<K>(a: map<K, int>, b: map<K, int>, r: map<K, int>, c: int, k: K)
    requires Linear(a, b, r, c)
    ensures Linear(a - {k}, b - {k}, r - {k}, c)
  {
  }

  lemma AddLinear(c: int, x: int, y: int, restX: int, restY: int)
    ensures x + c * y + (restX + c * restY) == x + restX + c * (y + restY)
  {
    Distribute(c, y, restY);
  }

  /** If r = a + c*b pointwise then the sums are related the same way. */
  lemma {:induction false} SumLinear<K>(a: map<K, int>, b: map<K, int>, r: map<K, int>, c: int)
    requires Linear(a, b, r, c)
    ensures Sum(r) == Sum(a) + c * Sum(b)
    decreases |r|
  {
    if r == map[] {
      assert a == map[] && b == map[];
    } else {
      var k :| k in r;
      SumRemove(a, k);
      SumRemove(b, k);
      SumRemove(r, k);
      LinearRest(a, b, r, c, k);
      SumLinear(a - {k}, b - {k}, r - {k}, c);
      AddLinear(c, a[k], b[k], Sum(a - {k}), Sum(b - {k}));
    }
  }

  /** Non-negative sums dominate each member. */
  lemma {:induction false} SumNonNegative<K>(m: map<K, int>)
    requires forall k :: k in m ==> 0 <= m[k]
    ensures 0 <= Sum(m)
    decreases |m|
  {
    if m != map[] {
      var k :| k in m;
      SumRemove(m, k);
      SumNonNegative(m - {k});
    }
  }

  lemma SumDominates<K>(m: map<K, int>, k: K)
    requires forall j :: j in m ==> 0 <= m[j]
    requires k in m
    ensures 0 <= m[k] <= Sum(m)
  {
    SumRemove(m, k);
    SumNonNegative(m - {k});
  }
}
