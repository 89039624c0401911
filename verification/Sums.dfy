/** Sums over finite maps, the shape of every SQL or dictionary total in the model. */
module Sums {
  ghost function Sum<K(!new)>(m: map<K, real>): real
    decreases |m.Keys|
  {
    if m == map[] then 0.0
    else
      var k :| k in m;
      assert (m - {k}).Keys == m.Keys - {k};
      m[k] + Sum(m - {k})
  }

  lemma {:induction false} SumRemove<K(!new)>(m: map<K, real>, k: K)
    requires k in m
    ensures Sum(m) == m[k] + Sum(m - {k})
    decreases |m.Keys|
  {
    var c :| c in m && Sum(m) == m[c] + Sum(m - {c});
    if c != k {
      var rest := m - {c};
      assert rest.Keys == m.Keys - {c};
      SumRemove(rest, k);
      var both := m - {k};
      assert both.Keys == m.Keys - {k} && c in both;
      SumRemove(both, c);
      assert rest - {k} == both - {c};
    }
  }

  lemma {:induction false} SumUpdate<K(!new)>(m: map<K, real>, k: K, v: real)
    ensures Sum(m[k := v]) == Sum(m) - (if k in m then m[k] else 0.0) + v
  {
    SumRemove(m[k := v], k);
    assert m[k := v] - {k} == m - {k};
    if k in m { SumRemove(m, k); } else { assert m - {k} == m; }
  }

  lemma {:induction false} SumNonNegative<K(!new)>(m: map<K, real>)
    requires forall k <- m :: m[k] >= 0.0
    ensures Sum(m) >= 0.0
    ensures forall k <- m :: m[k] <= Sum(m)
    decreases |m.Keys|
  {
    forall k | k in m ensures 0.0 <= m[k] <= Sum(m) {
      SumRemove(m, k);
      assert (m - {k}).Keys == m.Keys - {k};
      SumNonNegative(m - {k});
    }
    if m != map[] { var k :| k in m; assert 0.0 <= m[k] <= Sum(m); }
  }

  lemma {:induction false} SumNonPositive<K(!new)>(m: map<K, real>)
    requires forall k <- m :: m[k] <= 0.0
    ensures Sum(m) <= 0.0
    decreases |m.Keys|
  {
    if m != map[] {
      var k :| k in m;
      SumRemove(m, k);
      assert (m - {k}).Keys == m.Keys - {k};
      SumNonPositive(m - {k});
    }
  }

  lemma {:induction false} SumZero<K(!new)>(m: map<K, real>)
    requires forall k <- m :: m[k] == 0.0
    ensures Sum(m) == 0.0
  {
    SumNonNegative(m);
    SumNonPositive(m);
  }

  /** Pointwise order carries over to sums; a missing key counts as zero. */
  lemma {:induction false} SumLe<K(!new)>(a: map<K, real>, b: map<K, real>)
    requires forall k <- a :: a[k] <= if k in b then b[k] else 0.0
    requires forall k <- b :: k in a || b[k] >= 0.0
    ensures Sum(a) <= Sum(b)
    decreases |b.Keys|
  {
    if b != map[] {
      var k :| k in b;
      SumRemove(b, k);
      assert (b - {k}).Keys == b.Keys - {k};
      if k in a { SumRemove(a, k); } else { assert a - {k} == a; }
      SumLe(a - {k}, b - {k});
    } else {
      SumNonPositive(a);
    }
  }

  lemma {:induction false} SumAdd<K(!new)>(a: map<K, real>, b: map<K, real>, c: map<K, real>)
    requires a.Keys == b.Keys == c.Keys && forall k <- c :: c[k] == a[k] + b[k]
    ensures Sum(c) == Sum(a) + Sum(b)
    decreases |c.Keys|
  {
    if c != map[] {
      var k :| k in c;
      SumRemove(a, k);
      SumRemove(b, k);
      SumRemove(c, k);
      assert (c - {k}).Keys == c.Keys - {k};
      SumAdd(a - {k}, b - {k}, c - {k});
    } else {
      assert a == map[] && b == map[];
    }
  }

  /** As `SumAdd`, for a bound. */
  lemma {:induction false} SumLeAdd<K(!new)>(a: map<K, real>, b: map<K, real>, c: map<K, real>)
    requires a.Keys == b.Keys == c.Keys && forall k <- c :: c[k] <= a[k] + b[k]
    ensures Sum(c) <= Sum(a) + Sum(b)
    decreases |c.Keys|
  {
    if c != map[] {
      var k :| k in c;
      SumRemove(a, k);
      SumRemove(b, k);
      SumRemove(c, k);
      assert (c - {k}).Keys == c.Keys - {k};
      SumLeAdd(a - {k}, b - {k}, c - {k});
    } else {
      assert a == map[] && b == map[];
    }
  }

  /** The whole of a map is split in two by its keys. */
  ghost predicate Split<K(!new)>(m: map<K, real>, inside: map<K, real>, outside: map<K, real>) {
    && inside.Keys !! outside.Keys && m.Keys == inside.Keys + outside.Keys
    && (forall k <- inside :: m[k] == inside[k]) && (forall k <- outside :: m[k] == outside[k])
  }

  lemma {:induction false} SplitWithout<K(!new)>(m: map<K, real>, inside: map<K, real>, outside: map<K, real>, k: K)
    requires Split(m, inside, outside) && k in outside
    ensures Split(m - {k}, inside, outside - {k})
  {
  }

  /** A sum over keys inside and keys outside a set. */
  lemma {:induction false} SumSplit<K(!new)>(m: map<K, real>, inside: map<K, real>, outside: map<K, real>)
    requires Split(m, inside, outside)
    ensures Sum(m) == Sum(inside) + Sum(outside)
    decreases |outside.Keys|
  {
    if outside.Keys == {} {
      assert outside == map[] && m == inside;
    } else {
      var k :| k in outside;
      SumRemove(m, k);
      SumRemove(outside, k);
      SplitWithout(m, inside, outside, k);
      assert (outside - {k}).Keys == outside.Keys - {k};
      SumSplit(m - {k}, inside, outside - {k});
    }
  }
}
