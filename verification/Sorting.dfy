/** Stable sorting, specified once for every `sorted`, `list.sort` and stable `argsort` of the source. */
module Sorting {
  import opened Sums

  ghost predicate TotalPreorder<T(!new)>(le: (T, T) -> bool) {
    && (forall x, y :: le(x, y) || le(y, x))
    && (forall x, y, z :: le(x, y) && le(y, z) ==> le(x, z))
  }

  ghost predicate SortedBy<T>(le: (T, T) -> bool, xs: seq<T>) {
    forall i, j :: 0 <= i < j < |xs| ==> le(xs[i], xs[j])
  }

  /** Puts x in front of the first element it may precede, so equal keys keep their order. */
  function Insert<T>(le: (T, T) -> bool, x: T, xs: seq<T>): (ys: seq<T>)
    ensures multiset(ys) == multiset{x} + multiset(xs)
  {
    if xs == [] || le(x, if xs == [] then x else xs[0]) then [x] + xs
    else
      assert xs == [xs[0]] + xs[1..];
      [xs[0]] + Insert(le, x, xs[1..])
  }

  function StableSort<T>(le: (T, T) -> bool, xs: seq<T>): (ys: seq<T>)
    ensures multiset(ys) == multiset(xs)
  {
    if xs == [] then []
    else
      assert xs == [xs[0]] + xs[1..];
      Insert(le, xs[0], StableSort(le, xs[1..]))
  }

  lemma {:induction false} InsertSorted<T(!new)>(le: (T, T) -> bool, x: T, xs: seq<T>)
    requires TotalPreorder(le) && SortedBy(le, xs)
    ensures SortedBy(le, Insert(le, x, xs))
  {
    if xs != [] && !le(x, xs[0]) {
      InsertSorted(le, x, xs[1..]);
      var rest := Insert(le, x, xs[1..]);
      forall j | 0 <= j < |rest|
        ensures le(xs[0], rest[j])
      {
        assert rest[j] in multiset(rest);
        assert rest[j] == x || rest[j] in xs[1..];
      }
    }
  }

  lemma {:induction false} StableSortSorted<T(!new)>(le: (T, T) -> bool, xs: seq<T>)
    requires TotalPreorder(le)
    ensures SortedBy(le, StableSort(le, xs))
  {
    if xs != [] {
      StableSortSorted(le, xs[1..]);
      InsertSorted(le, xs[0], StableSort(le, xs[1..]));
    }
  }

  lemma {:induction false} InsertMap<T, U>(m: T -> U, le: (T, T) -> bool, le': (U, U) -> bool, x: T, xs: seq<T>)
    requires forall y | y in xs :: le(x, y) == le'(m(x), m(y))
    ensures Map(m, Insert(le, x, xs)) == Insert(le', m(x), Map(m, xs))
  {
    if xs == [] {
      assert Map(m, [x]) == [m(x)];
    } else {
      assert xs[0] in xs;
      assert Map(m, xs)[1..] == Map(m, xs[1..]);
      if le(x, xs[0]) {
        assert ([x] + xs)[1..] == xs;
      } else {
        assert forall y | y in xs[1..] :: y in xs;
        InsertMap(m, le, le', x, xs[1..]);
        var rest := Insert(le, x, xs[1..]);
        assert ([xs[0]] + rest)[1..] == rest;
      }
    }
  }

  /** A key change that keeps every comparison keeps the sorted order. */
  lemma {:induction false} StableSortMap<T, U>(m: T -> U, le: (T, T) -> bool, le': (U, U) -> bool, xs: seq<T>)
    requires forall x, y | x in xs && y in xs :: le(x, y) == le'(m(x), m(y))
    ensures Map(m, StableSort(le, xs)) == StableSort(le', Map(m, xs))
  {
    if xs != [] {
      assert xs[0] in xs;
      assert forall x | x in xs[1..] :: x in xs;
      StableSortMap(m, le, le', xs[1..]);
      assert Map(m, xs)[1..] == Map(m, xs[1..]);
      var rest := StableSort(le, xs[1..]);
      forall y | y in rest
        ensures y in xs
      {
        assert y in multiset(rest);
        assert y in xs[1..];
      }
      InsertMap(m, le, le', xs[0], rest);
    }
  }
}
