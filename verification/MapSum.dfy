/** Sums over the entries of a storage mapping. Counts are sums of zero-one weights. */
module MapSum {

  ghost function SumOf<K, V>(m: map<K, V>, f: (K, V) -> int): int
    decreases |m|
  {
    if m == map[] then 0
    else
      var k :| k in m;
      f(k, m[k]) + SumOf(m - {k}, f)
  }

  /** The sum does not depend on the order in which entries are taken. */
  lemma {:induction false} Pick<K, V>(m: map<K, V>, f: (K, V) -> int, k: K)
    requires k in m
    ensures SumOf(m, f) == f(k, m[k]) + SumOf(m - {k}, f)
    decreases |m|
  {
    var x :| x in m && SumOf(m, f) == f(x, m[x]) + SumOf(m - {x}, f);
    if x != k {
      Pick(m - {x}, f, k);
      Pick(m - {k}, f, x);
      assert m - {x} - {k} == m - {k} - {x};
    }
  }

  /** Inserting replaces the weight of the old entry, if there was one. */
  lemma Insert<K, V>(m: map<K, V>, f: (K, V) -> int, k: K, v: V)
    ensures SumOf(m[k := v], f) == SumOf(m, f) - (if k in m then f(k, m[k]) else 0) + f(k, v)
  {
    Pick(m[k := v], f, k);
    assert m[k := v] - {k} == m - {k};
    if k in m {
      Pick(m, f, k);
    } else {
      assert m - {k} == m;
    }
  }

  lemma MulDistributes(c: int, x: int, y: int)
    ensures c * (x + y) == c * x + c * y
  {
  }

  /** Weights related entry by entry have related sums. */
  lemma {:induction false} Linear<K, V>(m: map<K, V>, f: (K, V) -> int, g: (K, V) -> int, h: (K, V) -> int, c: int)
    requires forall k :: k in m ==> f(k, m[k]) == g(k, m[k]) + c * h(k, m[k])
    ensures SumOf(m, f) == SumOf(m, g) + c * SumOf(m, h)
    decreases |m|
  {
    if m == map[] {
    } else {
      var k :| k in m;
      Pick(m, f, k);
      Pick(m, g, k);
      Pick(m, h, k);
      Linear(m - {k}, f, g, h, c);
      MulDistributes(c, h(k, m[k]), SumOf(m - {k}, h));
    }
  }

  lemma {:induction false} Monotone<K, V>(m: map<K, V>, f: (K, V) -> int, g: (K, V) -> int)
    requires forall k :: k in m ==> f(k, m[k]) <= g(k, m[k])
    ensures SumOf(m, f) <= SumOf(m, g)
    decreases |m|
  {
    if m == map[] {
    } else {
      var k :| k in m;
      Pick(m, f, k);
      Pick(m, g, k);
      Monotone(m - {k}, f, g);
    }
  }

  lemma Congruent<K, V>(m: map<K, V>, f: (K, V) -> int, g: (K, V) -> int)
    requires forall k :: k in m ==> f(k, m[k]) == g(k, m[k])
    ensures SumOf(m, f) == SumOf(m, g)
  {
    Monotone(m, f, g);
    Monotone(m, g, f);
  }

  lemma {:induction false} NonNegative<K, V>(m: map<K, V>, f: (K, V) -> int)
    requires forall k :: k in m ==> 0 <= f(k, m[k])
    ensures 0 <= SumOf(m, f)
    decreases |m|
  {
    if m == map[] {
    } else {
      var k :| k in m;
      Pick(m, f, k);
      NonNegative(m - {k}, f);
    }
  }

  /** No single entry outweighs the whole. */
  lemma Dominates<K, V>(m: map<K, V>, f: (K, V) -> int, k: K)
    requires k in m && forall x :: x in m ==> 0 <= f(x, m[x])
    ensures f(k, m[k]) <= SumOf(m, f)
  {
    Pick(m, f, k);
    NonNegative(m - {k}, f);
  }

  /** Insertion under weights that changed for the inserted key only. */
  lemma InsertReweighed<K, V>(m: map<K, V>, f: (K, V) -> int, g: (K, V) -> int, k: K, v: V)
    requires forall x :: x in m && x != k ==> f(x, m[x]) == g(x, m[x])
    ensures SumOf(m[k := v], g) == SumOf(m, f) - (if k in m then f(k, m[k]) else 0) + g(k, v)
  {
    Congruent(m - {k}, f, g);
    Insert(m, f, k, v);
    Pick(m[k := v], f, k);
    Pick(m[k := v], g, k);
    assert m[k := v] - {k} == m - {k};
  }

  lemma StrictlyLess<K, V>(m: map<K, V>, f: (K, V) -> int, g: (K, V) -> int, k: K)
    requires k in m && f(k, m[k]) < g(k, m[k])
    requires forall x :: x in m ==> f(x, m[x]) <= g(x, m[x])
    ensures SumOf(m, f) < SumOf(m, g)
  {
    Pick(m, f, k);
    Pick(m, g, k);
    Monotone(m - {k}, f, g);
  }

  ghost function Times<K, V>(c: int, f: (K, V) -> int): (K, V) -> int {
    (k: K, v: V) => c * f(k, v)
  }

  lemma {:induction false} Scale<K, V>(m: map<K, V>, c: int, f: (K, V) -> int)
    ensures SumOf(m, Times(c, f)) == c * SumOf(m, f)
    decreases |m|
  {
    if m == map[] {
    } else {
      var k :| k in m;
      Pick(m, Times(c, f), k);
      Pick(m, f, k);
      Scale(m - {k}, c, f);
      MulDistributes(c, f(k, m[k]), SumOf(m - {k}, f));
    }
  }

  lemma {:induction false} AtMostBoth<K, V>(m: map<K, V>, f: (K, V) -> int, g: (K, V) -> int, h: (K, V) -> int)
    requires forall k :: k in m ==> f(k, m[k]) <= g(k, m[k]) + h(k, m[k])
    ensures SumOf(m, f) <= SumOf(m, g) + SumOf(m, h)
    decreases |m|
  {
    if m == map[] {
    } else {
      var k :| k in m;
      Pick(m, f, k);
      Pick(m, g, k);
      Pick(m, h, k);
      AtMostBoth(m - {k}, f, g, h);
    }
  }
}
