/** How many members of a list meet a condition, and how such counts divide. */
module Counting {
  function Count<T>(p: T -> bool, xs: seq<T>): nat {
    if xs == [] then 0
    else Count(p, xs[..|xs| - 1]) + if p(xs[|xs| - 1]) then 1 else 0
  }

  function Filter<T>(p: T -> bool, xs: seq<T>): seq<T> {
    if xs == [] then []
    else
      var before := Filter(p, xs[..|xs| - 1]);
      if p(xs[|xs| - 1]) then before + [xs[|xs| - 1]] else before
  }

  /** The places of the list the condition holds at. */
  ghost function Places<T>(p: T -> bool, xs: seq<T>): set<nat> {
    set i: nat | i < |xs| && p(xs[i])
  }

  /** A count is how many those are. */
  lemma {:induction false} CountIsSize<T>(p: T -> bool, xs: seq<T>)
    ensures Count(p, xs) == |Places(p, xs)|
  {
    if xs != [] {
      var n := |xs| - 1;
      CountIsSize(p, xs[..n]);
      assert Places(p, xs) == Places(p, xs[..n]) + if p(xs[n]) then {n} else {};
    }
  }

  lemma CountsTheSame<T>(p: T -> bool, q: T -> bool, xs: seq<T>)
    requires forall x :: x in xs ==> p(x) == q(x)
    ensures Count(p, xs) == |Places(q, xs)|
  {
    CountSame(p, q, xs);
    CountIsSize(q, xs);
  }

  /** A condition met in exactly one of two ways is counted by counting each way. */
  lemma {:induction false} CountSplits<T>(whole: T -> bool, left: T -> bool, right: T -> bool, xs: seq<T>)
    requires forall x :: x in xs ==> (whole(x) <==> left(x) || right(x)) && !(left(x) && right(x))
    ensures Count(whole, xs) == Count(left, xs) + Count(right, xs)
  {
    if xs != [] {
      assert xs[|xs| - 1] in xs;
      CountSplits(whole, left, right, xs[..|xs| - 1]);
    }
  }

  /** A narrower condition is met no more often. */
  lemma {:induction false} CountGrows<T>(p: T -> bool, q: T -> bool, xs: seq<T>)
    requires forall x :: x in xs && p(x) ==> q(x)
    ensures Count(p, xs) <= Count(q, xs)
    ensures Count(p, xs) == Count(q, xs) <==> forall x :: x in xs && q(x) ==> p(x)
  {
    if xs != [] {
      var n := |xs| - 1;
      CountGrows(p, q, xs[..n]);
      assert xs == xs[..n] + [xs[n]];
    }
  }

  lemma CountSame<T>(p: T -> bool, q: T -> bool, xs: seq<T>)
    requires forall x :: x in xs ==> p(x) == q(x)
    ensures Count(p, xs) == Count(q, xs)
  {
    CountGrows(p, q, xs);
  }

  /** Nothing is counted exactly when nothing meets the condition. */
  lemma {:induction false} CountsNone<T>(p: T -> bool, xs: seq<T>)
    ensures Count(p, xs) == 0 <==> forall x :: x in xs ==> !p(x)
  {
    if xs != [] {
      var n := |xs| - 1;
      CountsNone(p, xs[..n]);
      assert xs == xs[..n] + [xs[n]];
    }
  }

  /** Counting within a filtered list is counting both conditions. */
  lemma {:induction false} CountFiltered<T>(p: T -> bool, q: T -> bool, both: T -> bool, xs: seq<T>)
    requires forall x :: x in xs ==> (both(x) <==> q(x) && p(x))
    ensures Count(p, Filter(q, xs)) == Count(both, xs)
  {
    if xs != [] {
      var n := |xs| - 1;
      assert xs[n] in xs;
      CountFiltered(p, q, both, xs[..n]);
      var before := Filter(q, xs[..n]);
      assert (before + [xs[n]])[..|before|] == before;
    }
  }

  lemma {:induction false} FilterCounts<T>(p: T -> bool, xs: seq<T>)
    ensures |Filter(p, xs)| == Count(p, xs)
    ensures forall x :: x in Filter(p, xs) <==> x in xs && p(x)
  {
    if xs != [] {
      var n := |xs| - 1;
      FilterCounts(p, xs[..n]);
      assert xs == xs[..n] + [xs[n]];
    }
  }

  lemma {:induction false} CountConcat<T>(p: T -> bool, xs: seq<T>, ys: seq<T>)
    ensures Count(p, xs + ys) == Count(p, xs) + Count(p, ys)
  {
    if ys == [] {
      assert xs + ys == xs;
    } else {
      var n := |ys| - 1;
      CountConcat(p, xs, ys[..n]);
      assert (xs + ys)[..|xs + ys| - 1] == xs + ys[..n];
    }
  }

  /** Moving one member of a list leaves the count as it was. */
  lemma CountFirst<T>(p: T -> bool, x: T, xs: seq<T>)
    ensures Count(p, [x] + xs) == (if p(x) then 1 else 0) + Count(p, xs)
  {
    CountConcat(p, [x], xs);
    assert [x][..0] == [];
  }

  lemma {:induction false} CountsAll<T>(p: T -> bool, xs: seq<T>)
    requires forall x :: x in xs ==> p(x)
    ensures Count(p, xs) == |xs|
  {
    if xs != [] {
      var n := |xs| - 1;
      assert xs == xs[..n] + [xs[n]];
      CountsAll(p, xs[..n]);
    }
  }

  /** What a filter keeps does not depend on order, as a multiset. */
  lemma {:induction false} FilterKeeps<T>(p: T -> bool, xs: seq<T>, x: T)
    ensures multiset(Filter(p, xs))[x] == if p(x) then multiset(xs)[x] else 0
  {
    if xs != [] {
      var n := |xs| - 1;
      FilterKeeps(p, xs[..n], x);
      assert xs == xs[..n] + [xs[n]];
    }
  }

  lemma FilterIgnoresOrder<T>(p: T -> bool, xs: seq<T>, ys: seq<T>)
    requires multiset(xs) == multiset(ys)
    ensures multiset(Filter(p, xs)) == multiset(Filter(p, ys))
  {
    var a, b := multiset(Filter(p, xs)), multiset(Filter(p, ys));
    forall x | x in a + b ensures a[x] == b[x] {
      FilterKeeps(p, xs, x);
      FilterKeeps(p, ys, x);
    }
    assert a <= b && b <= a;
  }

  function Total<T>(value: T -> int, xs: seq<T>): int {
    if xs == [] then 0 else Total(value, xs[..|xs| - 1]) + value(xs[|xs| - 1])
  }
}
