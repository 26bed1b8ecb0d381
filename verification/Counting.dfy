/** Counting the pairs of a set of sessions. */
module Counting {
  import opened Types
  import R = Relay

  /** The pairs of distinct ids, each once, in order. */
  function OrderedPairs(ids: set<Id>): set<(Id, Id)> {
    set a, b | a in ids && b in ids && Before(a, b) :: (a, b)
  }

  function Image<X, Y>(xs: set<X>, m: map<X, Y>): set<Y>
    requires xs <= m.Keys
  {
    set x | x in xs :: m[x]
  }

  lemma {:induction false} SameSize<X, Y>(xs: set<X>, m: map<X, Y>)
    requires xs <= m.Keys
    requires forall x, y :: x in xs && y in xs && m[x] == m[y] ==> x == y
    ensures |Image(xs, m)| == |xs|
    decreases |xs|
  {
    if xs != {} {
      var x :| x in xs;
      var rest := xs - {x};
      SameSize(rest, m);
      assert Image(xs, m) == Image(rest, m) + {m[x]};
    } else {
      assert Image(xs, m) == {};
    }
  }

  lemma SmallerByInjection<X, Y>(xs: set<X>, m: map<X, Y>, ys: set<Y>)
    requires xs <= m.Keys && forall x :: x in xs ==> m[x] in ys
    requires forall x, y :: x in xs && y in xs && m[x] == m[y] ==> x == y
    ensures |xs| <= |ys|
  {
    SameSize(xs, m);
    assert ys == Image(xs, m) + (ys - Image(xs, m));
  }

  /** The pair that `x` makes with `y`. */
  function PairWith(x: Id, y: Id): (Id, Id) {
    if Before(x, y) then (x, y) else (y, x)
  }

  lemma PairWithIsOrdered(rest: set<Id>, x: Id, y: Id)
    requires x !in rest && y in rest
    ensures PairWith(x, y) in OrderedPairs(rest + {x}) && PairWith(x, y) !in OrderedPairs(rest)
  {
    BeforeIsStrictTotal(x, y);
  }

  function PairsWith(rest: set<Id>, x: Id): set<(Id, Id)> {
    set y | y in rest :: PairWith(x, y)
  }

  lemma OneMoreMakesPairs(rest: set<Id>, x: Id)
    requires x !in rest
    ensures OrderedPairs(rest + {x}) == OrderedPairs(rest) + PairsWith(rest, x)
    ensures OrderedPairs(rest) !! PairsWith(rest, x)
  {
    forall y | y in rest ensures PairWith(x, y) in OrderedPairs(rest + {x}) && PairWith(x, y) !in OrderedPairs(rest) {
      PairWithIsOrdered(rest, x, y);
    }
    forall p | p in OrderedPairs(rest + {x}) ensures p in OrderedPairs(rest) + PairsWith(rest, x) {
      BeforeIsStrictTotal(p.0, p.1);
      if p.0 == x { assert PairWith(x, p.1) == p; }
      if p.1 == x { assert PairWith(x, p.0) == p; }
    }
  }

  lemma PairsWithAreAsMany(rest: set<Id>, x: Id)
    requires x !in rest
    ensures |PairsWith(rest, x)| == |rest|
  {
    var m := map y | y in rest :: PairWith(x, y);
    forall y, z | y in rest && z in rest && m[y] == m[z] ensures y == z {
      BeforeIsStrictTotal(x, y);
      BeforeIsStrictTotal(x, z);
    }
    SameSize(rest, m);
    assert PairsWith(rest, x) == Image(rest, m);
  }

  lemma Triangle(n: int)
    ensures n * (n - 1) / 2 + n == (n + 1) * n / 2
  {
    assert (n + 1) * n == n * (n - 1) + 2 * n;
  }

  lemma {:induction false} CountPairs(ids: set<Id>)
    ensures |OrderedPairs(ids)| == |ids| * (|ids| - 1) / 2
    decreases |ids|
  {
    if ids == {} {
      assert OrderedPairs(ids) == {};
    } else {
      var x :| x in ids;
      var rest := ids - {x};
      assert ids == rest + {x};
      CountPairs(rest);
      OneMoreMakesPairs(rest, x);
      PairsWithAreAsMany(rest, x);
      var n := |rest|;
      Triangle(n);
      assert |ids| == n + 1;
    }
  }

  /** Tags that go up, at most one from each sender to each addressee, are no more
      than the pairs. */
  lemma AtMostOnePerPair(tags: set<R.Tag>, ids: set<Id>)
    requires forall t :: t in tags ==> Before(t.from, t.to) && t.from in ids && t.to in ids
    requires forall t, u :: t in tags && u in tags && t.from == u.from && t.to == u.to ==> t == u
    ensures |tags| <= |ids| * (|ids| - 1) / 2
  {
    var pairs := map t | t in tags :: (t.from, t.to);
    SmallerByInjection(tags, pairs, OrderedPairs(ids));
    CountPairs(ids);
  }
}
