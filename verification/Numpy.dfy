/** The array primitives that the samplers and the grouping code are written with. */
module Numpy {
  import opened Sums
  import opened Sorting

  function Key(keys: seq<int>, i: nat): int { if i < |keys| then keys[i] else 0 }

  function ByKey(keys: seq<int>): (nat, nat) -> bool { (a: nat, b: nat) => Key(keys, a) <= Key(keys, b) }

  /** `np.argsort(keys, kind="stable")` */
  function Argsort(keys: seq<int>): (idx: seq<nat>)
    ensures multiset(idx) == multiset(Range(|keys|))
  {
    StableSort(ByKey(keys), Range(|keys|))
  }

  /** Fancy indexing `xs[idx]`. */
  function Gather<T>(xs: seq<T>, idx: seq<nat>): (ys: seq<T>)
    requires forall i | i in idx :: i < |xs|
    ensures |ys| == |idx|
    ensures forall k :: 0 <= k < |idx| ==> idx[k] in idx && ys[k] == xs[idx[k]]
  {
    seq(|idx|, k requires 0 <= k < |idx| => assert idx[k] in idx; xs[idx[k]])
  }

  /** `np.flatnonzero(mask)` */
  function Flatnonzero(mask: seq<bool>): (idx: seq<nat>)
    ensures forall i: nat :: i in idx <==> i < |mask| && mask[i]
  {
    if mask == [] then []
    else
      var n := |mask| - 1;
      if mask[n] then Flatnonzero(mask[..n]) + [n] else Flatnonzero(mask[..n])
  }

  function CountCode(codes: seq<nat>, c: nat): nat {
    if codes == [] then 0 else CountCode(codes[..|codes|-1], c) + if codes[|codes|-1] == c then 1 else 0
  }

  /** `np.bincount(codes, minlength=m)` when every code is below m. */
  function Bincount(codes: seq<nat>, m: nat): (counts: seq<nat>)
    ensures |counts| == m
    ensures forall c :: 0 <= c < m ==> counts[c] == CountCode(codes, c)
  {
    seq(m, c requires 0 <= c < m => CountCode(codes, c))
  }

  /** `np.cumsum(xs)` */
  function Cumsum(xs: seq<nat>): (ys: seq<nat>)
    ensures |ys| == |xs|
  {
    if xs == [] then []
    else
      var n := |xs| - 1;
      var ys := Cumsum(xs[..n]);
      ys + [(if n == 0 then 0 else ys[n-1]) + xs[n]]
  }

  /** `np.searchsorted(a, t, side="right")` */
  function SearchRight(a: seq<nat>, t: nat): (g: nat)
    ensures g <= |a|
    ensures forall j :: 0 <= j < g ==> a[j] <= t
    ensures g < |a| ==> t < a[g]
  {
    if a == [] || t < a[0] then 0 else 1 + SearchRight(a[1..], t)
  }

  // ---------------------------------------------------------------- stable order

  ghost predicate Lex(keys: seq<int>, a: nat, b: nat) {
    Key(keys, a) < Key(keys, b) || (Key(keys, a) == Key(keys, b) && a < b)
  }

  /** Strictly ordered by key, then by index. */
  ghost predicate LexSorted(keys: seq<int>, xs: seq<nat>) {
    forall i, j :: 0 <= i < j < |xs| ==> Lex(keys, xs[i], xs[j])
  }

  ghost predicate Ascending(xs: seq<int>) {
    forall i, j :: 0 <= i < j < |xs| ==> xs[i] < xs[j]
  }

  lemma AscendingInjective(xs: seq<int>, i: nat, j: nat)
    requires Ascending(xs) && i < |xs| && j < |xs| && xs[i] == xs[j]
    ensures i == j
  {
  }

  lemma {:induction false} InsertLex(keys: seq<int>, x: nat, xs: seq<nat>)
    requires LexSorted(keys, xs) && forall y | y in xs :: x < y
    ensures LexSorted(keys, Insert(ByKey(keys), x, xs))
  {
    if xs == [] {
    } else if ByKey(keys)(x, xs[0]) {
      forall j | 0 <= j < |xs|
        ensures Lex(keys, x, xs[j])
      {
        assert xs[j] in xs;
        assert j > 0 ==> Lex(keys, xs[0], xs[j]);
      }
    } else {
      assert forall y | y in xs[1..] :: y in xs;
      InsertLex(keys, x, xs[1..]);
      var rest := Insert(ByKey(keys), x, xs[1..]);
      forall j | 0 <= j < |rest|
        ensures Lex(keys, xs[0], rest[j])
      {
        assert rest[j] in multiset(rest);
        if rest[j] != x {
          assert rest[j] in xs[1..];
          var i :| 0 <= i < |xs[1..]| && xs[1..][i] == rest[j];
          assert Lex(keys, xs[0], xs[i+1]);
        }
      }
    }
  }

  lemma {:induction false} SortLex(keys: seq<int>, xs: seq<nat>)
    requires Ascending(xs)
    ensures LexSorted(keys, StableSort(ByKey(keys), xs))
  {
    if xs != [] {
      SortLex(keys, xs[1..]);
      var rest := StableSort(ByKey(keys), xs[1..]);
      forall y | y in rest
        ensures xs[0] < y
      {
        assert y in multiset(rest);
        assert y in xs[1..];
      }
      InsertLex(keys, xs[0], rest);
    }
  }

  /** A stable argsort lists every index once, by key and then by position. */
  lemma ArgsortOrder(keys: seq<int>)
    ensures LexSorted(keys, Argsort(keys))
    ensures |Argsort(keys)| == |keys|
    ensures forall i: nat :: i in Argsort(keys) <==> i < |keys|
  {
    var idx := Argsort(keys);
    SortLex(keys, Range(|keys|));
    assert |idx| == |multiset(idx)| == |multiset(Range(|keys|))|;
    forall i: nat
      ensures i in idx <==> i < |keys|
    {
      assert i in idx <==> i in multiset(idx);
      assert i < |keys| ==> Range(|keys|)[i] == i;
      assert i in multiset(Range(|keys|)) <==> i in Range(|keys|);
    }
  }

  /** The order determines the sequence. */
  lemma {:induction false} LexUnique(keys: seq<int>, xs: seq<nat>, ys: seq<nat>)
    requires LexSorted(keys, xs) && LexSorted(keys, ys)
    requires forall x: nat :: x in xs <==> x in ys
    ensures xs == ys
  {
    assert xs == [] || xs[0] in ys;
    assert ys == [] || ys[0] in xs;
    if xs != [] {
      assert xs[0] == ys[0];
      forall x: nat
        ensures x in xs[1..] <==> x in ys[1..]
      {
        TailMembers(keys, xs, x);
        TailMembers(keys, ys, x);
      }
      LexUnique(keys, xs[1..], ys[1..]);
    }
  }

  lemma TailMembers(keys: seq<int>, xs: seq<nat>, x: nat)
    requires LexSorted(keys, xs) && xs != []
    ensures x in xs[1..] <==> x in xs && x != xs[0]
  {
    if x in xs[1..] {
      var i :| 0 <= i < |xs[1..]| && xs[1..][i] == x;
      assert Lex(keys, xs[0], xs[i+1]);
    }
  }

  lemma {:induction false} FlatnonzeroAscending(mask: seq<bool>)
    ensures Ascending(Flatnonzero(mask))
  {
    if mask != [] {
      FlatnonzeroAscending(mask[..|mask|-1]);
      var rest := Flatnonzero(mask[..|mask|-1]);
      assert forall i | 0 <= i < |rest| :: rest[i] in rest;
    }
  }
}
