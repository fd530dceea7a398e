/** Lists filtered by a predicate (`Array.prototype.filter`). */
module Lists {
  function Select<T>(xs: seq<T>, p: T -> bool): seq<T> {
    if xs == [] then []
    else
      var front := Select(xs[..|xs| - 1], p);
      if p(xs[|xs| - 1]) then front + [xs[|xs| - 1]] else front
  }

  lemma {:induction false} SelectCount<T>(xs: seq<T>, p: T -> bool, x: T)
    ensures multiset(Select(xs, p))[x] == (if p(x) then multiset(xs)[x] else 0)
  {
    if xs != [] {
      var n := |xs| - 1;
      assert xs == xs[..n] + [xs[n]];
      SelectCount(xs[..n], p, x);
    }
  }

  lemma {:induction false} SelectSome<T>(xs: seq<T>, p: T -> bool)
    ensures Select(xs, p) != [] <==> exists x :: x in xs && p(x)
    ensures forall x | x in Select(xs, p) :: p(x) && x in xs
  {
    if xs != [] {
      var n := |xs| - 1;
      assert xs == xs[..n] + [xs[n]];
      SelectSome(xs[..n], p);
    }
  }

  lemma {:induction false} SelectAll<T>(xs: seq<T>, p: T -> bool)
    requires forall x | x in xs :: p(x)
    ensures Select(xs, p) == xs
  {
    if xs != [] {
      var n := |xs| - 1;
      assert xs == xs[..n] + [xs[n]];
      SelectAll(xs[..n], p);
    }
  }

  /** One more element is kept last, or not at all. */
  lemma SelectMore<T>(xs: seq<T>, x: T, p: T -> bool)
    ensures Select(xs + [x], p) == Select(xs, p) + if p(x) then [x] else []
    ensures Select([], p) == []
  {
    assert (xs + [x])[..|xs|] == xs;
  }
}
