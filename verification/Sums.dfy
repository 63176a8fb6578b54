/** Finite sums over sequences, and the few sequence combinators the models share. */
module Sums {

  function SumOver<T>(xs: seq<T>, f: T -> real): real {
    if xs == [] then 0.0 else f(xs[0]) + SumOver(xs[1..], f)
  }

  function Map<T, U>(m: T -> U, xs: seq<T>): (ys: seq<U>)
    ensures |ys| == |xs|
    ensures forall i :: 0 <= i < |xs| ==> ys[i] == m(xs[i])
  {
    if xs == [] then [] else [m(xs[0])] + Map(m, xs[1..])
  }

  function Filter<T>(p: T -> bool, xs: seq<T>): (ys: seq<T>)
    ensures forall x | x in ys :: x in xs && p(x)
    ensures forall x | x in xs && p(x) :: x in ys
    ensures |ys| <= |xs|
  {
    if xs == [] then []
    else if p(xs[0]) then [xs[0]] + Filter(p, xs[1..])
    else Filter(p, xs[1..])
  }

  /** 0, 1, .., n - 1 */
  function Range(n: nat): (ys: seq<nat>)
    ensures |ys| == n
    ensures forall i :: 0 <= i < n ==> ys[i] == i
  {
    seq(n, i requires 0 <= i => i)
  }

  ghost predicate NoDuplicates<T>(xs: seq<T>) {
    forall i, j :: 0 <= i < j < |xs| ==> xs[i] != xs[j]
  }

  lemma {:induction false} SumConcat<T>(xs: seq<T>, ys: seq<T>, f: T -> real)
    ensures SumOver(xs + ys, f) == SumOver(xs, f) + SumOver(ys, f)
  {
    if xs == [] {
      assert xs + ys == ys;
    } else {
      assert (xs + ys)[1..] == xs[1..] + ys;
      SumConcat(xs[1..], ys, f);
    }
  }

  lemma {:induction false} SumSnoc<T>(xs: seq<T>, x: T, f: T -> real)
    ensures SumOver(xs + [x], f) == SumOver(xs, f) + f(x)
  {
    SumConcat(xs, [x], f);
    assert [x][1..] == [];
  }

  lemma RangeSnoc(n: nat, f: nat -> real)
    ensures Range(n + 1) == Range(n) + [n] && SumOver(Range(n + 1), f) == SumOver(Range(n), f) + f(n)
  {
    SumSnoc(Range(n), n, f);
    assert Range(n + 1) == Range(n) + [n];
  }

  lemma {:induction false} SumExt<T>(xs: seq<T>, f: T -> real, g: T -> real)
    requires forall x | x in xs :: f(x) == g(x)
    ensures SumOver(xs, f) == SumOver(xs, g)
  {
    if xs != [] {
      assert xs[0] in xs;
      assert forall x | x in xs[1..] :: x in xs;
      SumExt(xs[1..], f, g);
    }
  }

  lemma {:induction false} SumMonotone<T>(xs: seq<T>, f: T -> real, g: T -> real)
    requires forall x | x in xs :: f(x) <= g(x)
    ensures SumOver(xs, f) <= SumOver(xs, g)
  {
    if xs != [] {
      assert xs[0] in xs;
      assert forall x | x in xs[1..] :: x in xs;
      SumMonotone(xs[1..], f, g);
    }
  }

  lemma {:induction false} SumOfFractions<T>(xs: seq<T>, f: T -> real)
    requires forall x | x in xs :: 0.0 <= f(x) <= 1.0
    ensures 0.0 <= SumOver(xs, f) <= |xs| as real
  {
    if xs != [] {
      assert xs[0] in xs;
      assert forall x | x in xs[1..] :: x in xs;
      SumOfFractions(xs[1..], f);
    }
  }

  lemma {:induction false} SumNonNegative<T>(xs: seq<T>, f: T -> real)
    requires forall x | x in xs :: 0.0 <= f(x)
    ensures 0.0 <= SumOver(xs, f)
  {
    if xs != [] {
      assert xs[0] in xs;
      assert forall x | x in xs[1..] :: x in xs;
      SumNonNegative(xs[1..], f);
    }
  }

  /** Striking one term out of a sum. */
  lemma SumStrikeOut<T>(ys: seq<T>, i: nat, f: T -> real)
    requires i < |ys|
    ensures SumOver(ys, f) == f(ys[i]) + SumOver(ys[..i] + ys[i+1..], f)
  {
    assert ys == ys[..i] + [ys[i]] + ys[i+1..];
    SumMiddle(ys[..i], ys[i], ys[i+1..], f);
  }

  lemma SumMiddle<T>(xs: seq<T>, x: T, ys: seq<T>, f: T -> real)
    ensures SumOver(xs + [x] + ys, f) == f(x) + SumOver(xs + ys, f)
  {
    SumConcat(xs + [x], ys, f);
    SumSnoc(xs, x, f);
    SumConcat(xs, ys, f);
  }

  lemma PlaceIn<T>(xs: seq<T>, x: T) returns (i: nat)
    requires x in xs
    ensures i < |xs| && xs[i] == x
  {
    i :| 0 <= i < |xs| && xs[i] == x;
  }

  /** The first element of a sequence can be struck out of any permutation of it. */
  lemma StrikeOut<T>(xs: seq<T>, ys: seq<T>) returns (i: nat)
    requires xs != [] && multiset(xs) == multiset(ys)
    ensures i < |ys| && ys[i] == xs[0]
    ensures multiset(xs[1..]) == multiset(ys[..i] + ys[i+1..])
  {
    SameMembers(xs, ys, xs[0]);
    i := PlaceIn(ys, xs[0]);
    WithoutOne(xs, 0);
    WithoutOne(ys, i);
    assert xs[..0] + xs[1..] == xs[1..];
  }

  lemma WithoutOne<T>(xs: seq<T>, i: nat)
    requires i < |xs|
    ensures multiset(xs[..i] + xs[i+1..]) == multiset(xs) - multiset{xs[i]}
  {
    assert xs == xs[..i] + ([xs[i]] + xs[i+1..]);
    assert multiset(xs) == multiset(xs[..i]) + (multiset{xs[i]} + multiset(xs[i+1..]));
  }

  /** A sum does not depend on the order of its terms. */
  lemma {:induction false} SumPermute<T>(xs: seq<T>, ys: seq<T>, f: T -> real)
    requires multiset(xs) == multiset(ys)
    ensures SumOver(xs, f) == SumOver(ys, f)
  {
    assert |xs| == |multiset(xs)| == |multiset(ys)| == |ys|;
    if xs != [] {
      var i := StrikeOut(xs, ys);
      SumPermute(xs[1..], ys[..i] + ys[i+1..], f);
      SumStrikeOut(ys, i, f);
    }
  }

  /** Two duplicate-free sequences over the same set are permutations of each other. */
  lemma {:induction false} SameSetSameMultiset<T>(xs: seq<T>, ys: seq<T>)
    requires NoDuplicates(xs) && NoDuplicates(ys)
    requires forall x | x in xs :: x in ys
    requires forall x | x in ys :: x in xs
    ensures multiset(xs) == multiset(ys)
  {
    forall x
      ensures multiset(xs)[x] == multiset(ys)[x]
    {
      OccursAtMostOnce(xs, x);
      OccursAtMostOnce(ys, x);
    }
  }

  lemma {:induction false} OccursAtMostOnce<T>(xs: seq<T>, x: T)
    requires NoDuplicates(xs)
    ensures multiset(xs)[x] == if x in xs then 1 else 0
  {
    if xs != [] {
      assert xs == [xs[0]] + xs[1..];
      assert multiset(xs) == multiset{xs[0]} + multiset(xs[1..]);
      OccursAtMostOnce(xs[1..], x);
    }
  }

  lemma {:induction false} FilterNoDuplicates<T>(p: T -> bool, xs: seq<T>)
    requires NoDuplicates(xs)
    ensures NoDuplicates(Filter(p, xs))
  {
    if xs != [] {
      FilterNoDuplicates(p, xs[1..]);
      assert forall i, j :: 0 <= i < j < |xs[1..]| ==> xs[1..][i] == xs[i+1] && xs[1..][j] == xs[j+1];
      assert xs[0] !in xs[1..];
    }
  }

  lemma FilterHead<T>(p: T -> bool, xs: seq<T>)
    requires xs != []
    ensures Filter(p, xs) == (if p(xs[0]) then [xs[0]] else []) + Filter(p, xs[1..])
  {
  }

  lemma {:induction false} FilterConcat<T>(p: T -> bool, xs: seq<T>, ys: seq<T>)
    ensures Filter(p, xs + ys) == Filter(p, xs) + Filter(p, ys)
  {
    if xs == [] {
      assert xs + ys == ys;
    } else {
      hide Filter;
      assert (xs + ys)[1..] == xs[1..] + ys;
      FilterConcat(p, xs[1..], ys);
      FilterHead(p, xs + ys);
      FilterHead(p, xs);
    }
  }

  /** Filtering permuted sequences gives permuted sequences. */
  lemma {:induction false} FilterPermute<T>(p: T -> bool, xs: seq<T>, ys: seq<T>)
    requires multiset(xs) == multiset(ys)
    ensures multiset(Filter(p, xs)) == multiset(Filter(p, ys))
  {
    assert |xs| == |multiset(xs)| == |multiset(ys)| == |ys|;
    if xs != [] {
      var i := StrikeOut(xs, ys);
      assert ys == ys[..i] + ([ys[i]] + ys[i+1..]);
      FilterPermute(p, xs[1..], ys[..i] + ys[i+1..]);
      FilterConcat(p, ys[..i], [ys[i]] + ys[i+1..]);
      FilterConcat(p, [ys[i]], ys[i+1..]);
      FilterConcat(p, ys[..i], ys[i+1..]);
      assert Filter(p, [ys[i]]) == if p(ys[i]) then [ys[i]] else [];
    }
  }

  lemma SameLength<T>(xs: seq<T>, ys: seq<T>)
    requires multiset(xs) == multiset(ys)
    ensures |xs| == |ys|
  {
    assert |xs| == |multiset(xs)| == |multiset(ys)| == |ys|;
  }

  lemma SameMembers<T>(xs: seq<T>, ys: seq<T>, x: T)
    requires multiset(xs) == multiset(ys)
    ensures x in xs <==> x in ys
  {
    assert x in xs <==> x in multiset(xs);
    assert x in ys <==> x in multiset(ys);
  }

  lemma {:induction false} MapConcat<T, U>(m: T -> U, xs: seq<T>, ys: seq<T>)
    ensures Map(m, xs + ys) == Map(m, xs) + Map(m, ys)
  {
    assert forall i | 0 <= i < |xs + ys| :: Map(m, xs + ys)[i] == (Map(m, xs) + Map(m, ys))[i];
  }

  lemma {:induction false} MapPermute<T, U>(m: T -> U, xs: seq<T>, ys: seq<T>)
    requires multiset(xs) == multiset(ys)
    ensures multiset(Map(m, xs)) == multiset(Map(m, ys))
  {
    SameLength(xs, ys);
    if xs != [] {
      hide Map;
      var i := StrikeOut(xs, ys);
      MapPermute(m, xs[1..], ys[..i] + ys[i+1..]);
      MapWithoutOne(m, xs, 0);
      MapWithoutOne(m, ys, i);
      assert xs[..0] + xs[1..] == xs[1..];
    }
  }

  lemma MapWithoutOne<T, U>(m: T -> U, xs: seq<T>, i: nat)
    requires i < |xs|
    ensures multiset(Map(m, xs)) == multiset{m(xs[i])} + multiset(Map(m, xs[..i] + xs[i+1..]))
  {
    hide Map;
    var mapped := Map(m, xs);
    WithoutOne(mapped, i);
    assert mapped[..i] + mapped[i+1..] == Map(m, xs[..i] + xs[i+1..]);
  }

  lemma {:induction false} SumStrict<T>(xs: seq<T>, f: T -> real, g: T -> real, at: T)
    requires at in xs && f(at) < g(at) && forall x | x in xs :: f(x) <= g(x)
    ensures SumOver(xs, f) < SumOver(xs, g)
  {
    assert xs[0] in xs;
    if xs[0] == at {
      SumMonotone(xs[1..], f, g);
    } else {
      SumStrict(xs[1..], f, g, at);
    }
  }
}
