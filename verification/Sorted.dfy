/** `sort` followed by `dedup`, over any strict total order. */
module Sorted {
  ghost predicate StrictOrder<T(!new)>(less: (T, T) -> bool) {
    && (forall a :: !less(a, a))
    && (forall a, b, c :: less(a, b) && less(b, c) ==> less(a, c))
    && (forall a, b :: a != b ==> less(a, b) || less(b, a))
  }

  ghost predicate Increasing<T>(s: seq<T>, less: (T, T) -> bool) {
    forall i, j :: 0 <= i < j < |s| ==> less(s[i], s[j])
  }

  function Elements<T>(s: seq<T>): set<T> {
    set x | x in s
  }

  method SortDistinct<T(==, !new)>(xs: seq<T>, less: (T, T) -> bool) returns (ys: seq<T>)
    requires StrictOrder(less)
    ensures Increasing(ys, less)
    ensures Elements(ys) == Elements(xs)
  {
    ys := [];
    for n := 0 to |xs|
      invariant Increasing(ys, less)
      invariant Elements(ys) == Elements(xs[..n])
    {
      var x := xs[n];
      var p := 0;
      while p < |ys| && less(ys[p], x)
        invariant 0 <= p <= |ys|
        invariant forall i :: 0 <= i < p ==> less(ys[i], x)
      {
        p := p + 1;
      }
      assert Elements(xs[..n + 1]) == Elements(xs[..n]) + {x} by {
        assert xs[..n + 1] == xs[..n] + [x];
      }
      if p == |ys| || ys[p] != x {
        Inserted(ys, p, x, less);
        ys := ys[..p] + [x] + ys[p..];
      } else {
        assert x in Elements(ys);
      }
    }
    assert xs[..|xs|] == xs;
  }

  lemma Inserted<T(!new)>(ys: seq<T>, p: nat, x: T, less: (T, T) -> bool)
    requires StrictOrder(less) && Increasing(ys, less) && p <= |ys|
    requires forall i :: 0 <= i < p ==> less(ys[i], x)
    requires p < |ys| ==> less(x, ys[p])
    ensures Increasing(ys[..p] + [x] + ys[p..], less)
    ensures Elements(ys[..p] + [x] + ys[p..]) == Elements(ys) + {x}
  {
    var zs := ys[..p] + [x] + ys[p..];
    assert forall i :: p < i < |ys| ==> less(ys[p], ys[i]);
    assert forall y :: y in zs <==> y in ys || y == x by {
      assert ys == ys[..p] + ys[p..];
    }
  }

  /** An increasing sequence is determined by its elements. */
  lemma {:induction false} IncreasingIsUnique<T(!new)>(s: seq<T>, t: seq<T>, less: (T, T) -> bool)
    requires StrictOrder(less) && Increasing(s, less) && Increasing(t, less)
    requires Elements(s) == Elements(t)
    ensures s == t
    decreases |s|
  {
    if s == [] {
      NoElements(t);
    } else {
      assert s[0] in Elements(t);
      assert t != [] && t[0] in Elements(s);
      var i :| 0 <= i < |t| && t[i] == s[0];
      var j :| 0 <= j < |s| && s[j] == t[0];
      assert s[0] == t[0];
      TailElements(s, less);
      TailElements(t, less);
      IncreasingIsUnique(s[1..], t[1..], less);
      assert s == [s[0]] + s[1..] && t == [t[0]] + t[1..];
    }
  }

  lemma NoElements<T>(s: seq<T>)
    ensures Elements(s) == {} ==> s == []
  {
    if s != [] { assert s[0] in Elements(s); }
  }

  lemma TailElements<T(!new)>(s: seq<T>, less: (T, T) -> bool)
    requires StrictOrder(less) && Increasing(s, less) && s != []
    ensures Increasing(s[1..], less) && Elements(s[1..]) == Elements(s) - {s[0]}
  {
    assert forall x :: x in s <==> x == s[0] || x in s[1..] by {
      assert s == [s[0]] + s[1..];
    }
    assert forall i :: 0 <= i < |s[1..]| ==> less(s[0], s[1..][i]);
  }
}
