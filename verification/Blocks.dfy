/** Rows laid out user by user: concatenated blocks, who owns which place, and two ways to look it up. */
module Blocks {
  import opened Numpy

  function Flatten<T>(bs: seq<seq<T>>): seq<T> {
    if bs == [] then [] else Flatten(bs[..|bs|-1]) + bs[|bs|-1]
  }

  /** Where block g begins. */
  function Start<T>(bs: seq<seq<T>>, g: nat): nat
    requires g <= |bs|
  {
    |Flatten(bs[..g])|
  }

  function Lengths<T>(bs: seq<seq<T>>): (ns: seq<nat>)
    ensures |ns| == |bs|
    ensures forall g :: 0 <= g < |bs| ==> ns[g] == |bs[g]|
  {
    seq(|bs|, g requires 0 <= g < |bs| => |bs[g]|)
  }

  /** `np.repeat(np.arange(m), counts)` */
  function Repeat(counts: seq<nat>): seq<nat> {
    if counts == [] then []
    else
      var n := |counts| - 1;
      Repeat(counts[..n]) + seq(counts[n], _ => n)
  }

  lemma StartStep<T>(bs: seq<seq<T>>, g: nat)
    requires g < |bs|
    ensures Start(bs, 0) == 0
    ensures Start(bs, g + 1) == Start(bs, g) + |bs[g]|
    ensures Start(bs, |bs|) == |Flatten(bs)|
  {
    assert bs[..g+1][..g] == bs[..g];
    assert bs[..|bs|] == bs;
  }

  lemma {:induction false} StartMonotone<T>(bs: seq<seq<T>>, g: nat, h: nat)
    requires g <= h <= |bs|
    ensures Start(bs, g) <= Start(bs, h)
  {
    if g < h {
      StartStep(bs, h - 1);
      StartMonotone(bs, g, h - 1);
    }
  }

  lemma {:induction false} FlattenAt<T>(bs: seq<seq<T>>, g: nat, i: nat)
    requires g < |bs| && i < |bs[g]|
    ensures Start(bs, g) + i < |Flatten(bs)|
    ensures Flatten(bs)[Start(bs, g) + i] == bs[g][i]
  {
    var n := |bs| - 1;
    if g < n {
      assert bs[..n][..g] == bs[..g];
      FlattenAt(bs[..n], g, i);
    }
  }

  lemma {:induction false} CumsumIsStart<T>(bs: seq<seq<T>>, g: nat)
    requires g < |bs|
    ensures Cumsum(Lengths(bs))[g] == Start(bs, g + 1)
  {
    var n := |bs| - 1;
    assert Lengths(bs)[..n] == Lengths(bs[..n]);
    if g < n {
      assert bs[..n][..g+1] == bs[..g+1];
      CumsumIsStart(bs[..n], g);
    } else {
      assert bs[..n+1] == bs;
      assert Flatten(bs) == Flatten(bs[..n]) + bs[n];
      if n > 0 {
        CumsumIsStart(bs[..n], n - 1);
        assert bs[..n][..n] == bs[..n];
        assert Cumsum(Lengths(bs[..n]))[n-1] == |Flatten(bs[..n])|;
      } else {
        assert bs[..n] == [];
      }
      assert Cumsum(Lengths(bs))[n] == |Flatten(bs[..n])| + |bs[n]|;
    }
  }

  /** g is the block that place t of the concatenation lies in */
  ghost predicate Owns<T>(bs: seq<seq<T>>, g: nat, t: nat) {
    g < |bs| && Start(bs, g) <= t < Start(bs, g + 1)
  }

  lemma OwnerUnique<T>(bs: seq<seq<T>>, g: nat, h: nat, t: nat)
    requires Owns(bs, g, t) && Owns(bs, h, t)
    ensures g == h
  {
    if g < h {
      StartMonotone(bs, g + 1, h);
    } else if h < g {
      StartMonotone(bs, h + 1, g);
    }
  }

  /** The place of a block's i-th entry. */
  lemma PlaceOwned<T>(bs: seq<seq<T>>, g: nat, i: nat)
    requires g < |bs| && i < |bs[g]|
    ensures Owns(bs, g, Start(bs, g) + i)
  {
    StartStep(bs, g);
  }

  /** Binary search in the cumulative counts finds the owner. */
  lemma SearchFindsOwner<T>(bs: seq<seq<T>>, t: nat)
    requires t < |Flatten(bs)|
    ensures Owns(bs, SearchRight(Cumsum(Lengths(bs)), t), t)
  {
    var cum := Cumsum(Lengths(bs));
    var g := SearchRight(cum, t);
    assert bs != [];
    StartStep(bs, |bs| - 1);
    CumsumIsStart(bs, |bs| - 1);
    CumsumIsStart(bs, g);
    if g > 0 {
      CumsumIsStart(bs, g - 1);
      assert cum[g-1] <= t;
    } else {
      StartStep(bs, 0);
    }
  }

  /** So does the repeat table. */
  lemma {:induction false} RepeatFindsOwner<T>(bs: seq<seq<T>>, t: nat)
    requires t < |Flatten(bs)|
    ensures |Repeat(Lengths(bs))| == |Flatten(bs)|
    ensures Owns(bs, Repeat(Lengths(bs))[t], t)
  {
    var n := |bs| - 1;
    assert Lengths(bs)[..n] == Lengths(bs[..n]);
    StartStep(bs, n);
    RepeatLength(bs);
    RepeatLength(bs[..n]);
    if t < |Flatten(bs[..n])| {
      RepeatFindsOwner(bs[..n], t);
      var g := Repeat(Lengths(bs[..n]))[t];
      assert bs[..n][..g] == bs[..g] && bs[..n][..g+1] == bs[..g+1];
    }
  }

  lemma {:induction false} RepeatLength<T>(bs: seq<seq<T>>)
    ensures |Repeat(Lengths(bs))| == |Flatten(bs)|
  {
    if bs != [] {
      var n := |bs| - 1;
      assert Lengths(bs)[..n] == Lengths(bs[..n]);
      RepeatLength(bs[..n]);
    }
  }

  /** Every place of the concatenation is one entry of one block, and conversely. */
  lemma FlattenPlaces<T>(bs: seq<seq<T>>, t: nat) returns (g: nat, i: nat)
    requires t < |Flatten(bs)|
    ensures g < |bs| && i < |bs[g]| && t == Start(bs, g) + i && Flatten(bs)[t] == bs[g][i]
  {
    g := SearchRight(Cumsum(Lengths(bs)), t);
    SearchFindsOwner(bs, t);
    StartStep(bs, g);
    i := t - Start(bs, g);
    FlattenAt(bs, g, i);
  }

  // ---------------------------------------------------------------- blocks of row indices

  /** The rows that carry key c, ascending. */
  function Members(keys: seq<int>, c: int): (idx: seq<nat>)
    ensures forall i: nat :: i in idx <==> i < |keys| && keys[i] == c
  {
    if keys == [] then []
    else
      var n := |keys| - 1;
      if keys[n] == c then Members(keys[..n], c) + [n] else Members(keys[..n], c)
  }

  /** Those of the listed rows that carry label l, in the listed order. */
  function Select(rels: seq<int>, idx: seq<nat>, l: int): (sel: seq<nat>)
    ensures forall i: nat :: i in sel <==> i in idx && Key(rels, i) == l
    ensures |sel| <= |idx|
  {
    if idx == [] then []
    else if Key(rels, idx[0]) == l then [idx[0]] + Select(rels, idx[1..], l)
    else Select(rels, idx[1..], l)
  }

  /** One block of rows per user, in the given order of users. */
  function MemberBlocks(keys: seq<int>, us: seq<int>): (bs: seq<seq<nat>>)
    ensures |bs| == |us|
    ensures forall g :: 0 <= g < |us| ==> bs[g] == Members(keys, us[g])
  {
    seq(|us|, g requires 0 <= g < |us| => Members(keys, us[g]))
  }

  lemma {:induction false} MembersAscending(keys: seq<int>, c: int)
    ensures Ascending(Members(keys, c))
  {
    if keys != [] {
      MembersAscending(keys[..|keys|-1], c);
      var rest := Members(keys[..|keys|-1], c);
      assert forall i | 0 <= i < |rest| :: rest[i] in rest;
    }
  }

  lemma {:induction false} SelectAscending(rels: seq<int>, idx: seq<nat>, l: int)
    requires Ascending(idx)
    ensures Ascending(Select(rels, idx, l))
  {
    if idx != [] {
      SelectAscending(rels, idx[1..], l);
      var rest := Select(rels, idx[1..], l);
      forall i | 0 <= i < |rest|
        ensures idx[0] < rest[i]
      {
        assert rest[i] in rest;
        assert rest[i] in idx[1..];
      }
    }
  }

  lemma {:induction false} MembersCount(keys: seq<nat>, c: nat)
    ensures |Members(keys, c)| == CountCode(keys, c)
  {
    if keys != [] {
      MembersCount(keys[..|keys|-1], c);
    }
  }

  /** Blocks with ascending keys, each ascending inside, are in stable order when laid end to end. */
  lemma {:induction false} BlocksLexSorted(keys: seq<int>, ks: seq<int>, bs: seq<seq<nat>>)
    requires |ks| == |bs| && Ascending(ks)
    requires forall g | 0 <= g < |bs| :: Ascending(bs[g]) && forall i | i in bs[g] :: Key(keys, i) == ks[g]
    ensures LexSorted(keys, Flatten(bs))
    ensures bs != [] ==> forall i | i in Flatten(bs) :: Key(keys, i) <= ks[|bs|-1]
  {
    if bs != [] {
      var n := |bs| - 1;
      BlocksLexSorted(keys, ks[..n], bs[..n]);
      var front, last := Flatten(bs[..n]), bs[n];
      assert n > 0 ==> ks[n-1] < ks[n];
      forall i, j | 0 <= i < j < |front + last|
        ensures Lex(keys, (front + last)[i], (front + last)[j])
      {
        if i < |front| {
          assert front[i] in front;
        } else {
          assert last[i-|front|] in last;
        }
        if j >= |front| {
          assert last[j-|front|] in last;
        }
      }
    }
  }

  lemma {:induction false} FlattenMembers<T>(bs: seq<seq<T>>, x: T)
    ensures x in Flatten(bs) <==> exists g :: 0 <= g < |bs| && x in bs[g]
  {
    if bs != [] {
      var n := |bs| - 1;
      FlattenMembers(bs[..n], x);
      if x in Flatten(bs[..n]) {
        var g :| 0 <= g < n && x in bs[..n][g];
        assert x in bs[g];
      }
      if g :| 0 <= g < |bs| && x in bs[g] {
        assert g < n ==> x in bs[..n][g];
      }
    }
  }

  /** Block g is the slice between its start and the next. */
  lemma SliceOfFlatten<T>(bs: seq<seq<T>>, g: nat)
    requires g < |bs|
    ensures Start(bs, g) <= Start(bs, g + 1) <= |Flatten(bs)|
    ensures Flatten(bs)[Start(bs, g)..Start(bs, g + 1)] == bs[g]
  {
    StartStep(bs, g);
    StartMonotone(bs, g + 1, |bs|);
    var slice := Flatten(bs)[Start(bs, g)..Start(bs, g + 1)];
    forall i: nat | i < |bs[g]|
      ensures slice[i] == bs[g][i]
    {
      FlattenAt(bs, g, i);
    }
  }
}
