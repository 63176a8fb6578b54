/** Which pair every draw names, on the logged rows themselves: tickets and offsets count rows. */
module PairOrder {
  import opened Sums
  import opened Numpy
  import opened Blocks
  import opened Grouping
  import opened PairLayout

  /** The user has a row with either label. */
  lemma MixedExactly(groups: seq<int>, rels: seq<int>, u: int)
    requires |groups| == |rels|
    ensures MixedUser(groups, rels, u)
       <==> exists p, n | 0 <= p < |groups| && 0 <= n < |groups| ::
              groups[p] == u && groups[n] == u && rels[p] == 1 && rels[n] == 0
  {
    if MixedUser(groups, rels, u) {
      RowOf(groups, rels, u, 1, 0);
      RowOf(groups, rels, u, 0, 0);
    }
    if p, n :| 0 <= p < |groups| && 0 <= n < |groups| && groups[p] == u && groups[n] == u && rels[p] == 1 && rels[n] == 0 {
      assert p in RowsWith(groups, rels, u, 1) && n in RowsWith(groups, rels, u, 0);
    }
  }

  /** The positive rows of mixed-label users that come before row p: those of users with a smaller key, and the earlier
      ones of the same user. */
  ghost function PositivesBefore(groups: seq<int>, rels: seq<int>, key: int -> int, p: nat): (s: set<nat>)
    requires p < |groups| == |rels|
    ensures forall r: nat ::
              r in s
              <==> && r < |groups| && rels[r] == 1
                   && (exists n | 0 <= n < |groups| :: groups[n] == groups[r] && rels[n] == 0)
                   && (key(groups[r]) < key(groups[p]) || (key(groups[r]) == key(groups[p]) && r < p))
  {
    set r: nat | r < |groups| && rels[r] == 1
                 && (exists n | 0 <= n < |groups| :: groups[n] == groups[r] && rels[n] == 0)
                 && (key(groups[r]) < key(groups[p]) || (key(groups[r]) == key(groups[p]) && r < p))
  }

  /** The negative rows of the same user before row n. */
  ghost function NegativesBefore(groups: seq<int>, rels: seq<int>, n: nat): (s: set<nat>)
    requires n < |groups| == |rels|
    ensures forall r: nat :: r in s <==> r < n && groups[r] == groups[n] && rels[r] == 0
  {
    set r: nat | r < n && groups[r] == groups[n] && rels[r] == 0
  }

  /** The mixed-label users with a smaller key. */
  ghost function MixedBefore(groups: seq<int>, rels: seq<int>, key: int -> int, u: int): (s: set<int>)
    requires |groups| == |rels|
    ensures forall v ::
              v in s
              <==> && v in groups && key(v) < key(u)
                   && exists p, n | 0 <= p < |groups| && 0 <= n < |groups| ::
                        groups[p] == v && groups[n] == v && rels[p] == 1 && rels[n] == 0
  {
    set v | v in groups && key(v) < key(u)
            && exists p, n | 0 <= p < |groups| && 0 <= n < |groups| ::
                 groups[p] == v && groups[n] == v && rels[p] == 1 && rels[n] == 0
  }

  /** All mixed-label users. */
  ghost function MixedUsers(groups: seq<int>, rels: seq<int>): (s: set<int>)
    requires |groups| == |rels|
    ensures forall v ::
              v in s
              <==> v in groups && exists p, n | 0 <= p < |groups| && 0 <= n < |groups| ::
                                    groups[p] == v && groups[n] == v && rels[p] == 1 && rels[n] == 0
  {
    set v | v in groups && exists p, n | 0 <= p < |groups| && 0 <= n < |groups| ::
              groups[p] == v && groups[n] == v && rels[p] == 1 && rels[n] == 0
  }

  /** The rows with label l of users that have the other label too. */
  ghost function MixedRows(groups: seq<int>, rels: seq<int>, l: int): (s: set<nat>)
    requires |groups| == |rels|
    ensures forall r: nat ::
              r in s
              <==> && r < |groups| && rels[r] == l
                   && exists n | 0 <= n < |groups| :: groups[n] == groups[r] && rels[n] == 1 - l
  {
    set r: nat | r < |groups| && rels[r] == l
                 && exists n | 0 <= n < |groups| :: groups[n] == groups[r] && rels[n] == 1 - l
  }

  /** The two counts of some positive and some negative row of one user. */
  ghost predicate CountsOfPair(groups: seq<int>, rels: seq<int>, key: int -> int, t: nat, o: nat): (counts: bool)
    requires |groups| == |rels|
    ensures counts
       <==> exists p: nat, n: nat | p < |rels| && n < |rels| ::
              && groups[p] == groups[n] && rels[p] == 1 && rels[n] == 0
              && t == |PositivesBefore(groups, rels, key, p)| && o == |NegativesBefore(groups, rels, n)|
  {
    exists p: nat, n: nat | p < |rels| && n < |rels| ::
      && groups[p] == groups[n] && rels[p] == 1 && rels[n] == 0
      && t == |PositivesBefore(groups, rels, key, p)| && o == |NegativesBefore(groups, rels, n)|
  }

  // ---------------------------------------------------------------- places as counts

  lemma {:induction false} DistinctSize<T>(xs: seq<T>, s: set<T>)
    requires NoDuplicates(xs) && forall x :: x in s <==> x in xs
    ensures |s| == |xs|
  {
    if xs == [] {
      assert s == {};
    } else {
      var n := |xs| - 1;
      assert xs[n] !in xs[..n];
      forall x
        ensures x in s - {xs[n]} <==> x in xs[..n]
      {
        if x in xs && x != xs[n] {
          var i :| 0 <= i < |xs| && xs[i] == x;
          assert xs[..n][i] == x;
        }
      }
      DistinctSize(xs[..n], s - {xs[n]});
    }
  }

  /** Entry t of a strictly ordered list has t entries before it in that order. */
  lemma PlaceCounts(keys: seq<int>, xs: seq<nat>, t: nat, s: set<nat>)
    requires LexSorted(keys, xs) && t < |xs|
    requires forall r: nat :: r in s <==> r in xs && Lex(keys, r, xs[t])
    ensures |s| == t
  {
    forall r: nat
      ensures r in s <==> r in xs[..t]
    {
      if r in s {
        var i :| 0 <= i < |xs| && xs[i] == r;
        assert xs[..t][i] == r;
      }
      if r in xs[..t] {
        var i :| 0 <= i < t && xs[i] == r;
        assert Lex(keys, xs[i], xs[t]);
      }
    }
    DistinctSize(xs[..t], s);
  }

  ghost predicate OrderedBy(us: seq<int>, key: int -> int) {
    forall i, j | 0 <= i < j < |us| :: key(us[i]) < key(us[j])
  }

  lemma MixedOnlyListed(groups: seq<int>, rels: seq<int>, us: seq<int>, i: nat)
    requires i < |MixedOnly(groups, rels, us)|
    ensures MixedOnly(groups, rels, us)[i] in us
  {
    hide MixedUser;
    assert MixedOnly(groups, rels, us)[i] in MixedOnly(groups, rels, us);
  }

  lemma {:induction false} MixedOnlyOrdered(groups: seq<int>, rels: seq<int>, us: seq<int>, key: int -> int)
    requires OrderedBy(us, key)
    ensures OrderedBy(MixedOnly(groups, rels, us), key)
  {
    if us != [] {
      var n := |us| - 1;
      var front := MixedOnly(groups, rels, us[..n]);
      MixedOnlyOrdered(groups, rels, us[..n], key);
      forall i | 0 <= i < |front|
        ensures key(front[i]) < key(us[n])
      {
        MixedOnlyListed(groups, rels, us[..n], i);
      }
    }
  }

  /** One key for each row: that of its user. */
  ghost function RowKeys(groups: seq<int>, key: int -> int): (ks: seq<int>)
    ensures |ks| == |groups| && forall r | 0 <= r < |groups| :: ks[r] == key(groups[r])
  {
    seq(|groups|, r requires 0 <= r < |groups| => key(groups[r]))
  }

  ghost function UserKeys(us: seq<int>, key: int -> int): (ks: seq<int>)
    ensures |ks| == |us| && forall g | 0 <= g < |us| :: ks[g] == key(us[g])
  {
    RowKeys(us, key)
  }

  /** The rows of a layout are in the order of their users' keys. */
  lemma RowsOrdered(groups: seq<int>, rels: seq<int>, us: seq<int>, key: int -> int, l: int)
    requires |groups| == |rels| && OrderedBy(us, key)
    ensures LexSorted(RowKeys(groups, key), Flatten(RowBlocks(groups, rels, us, l)))
  {
    var bs := RowBlocks(groups, rels, us, l);
    forall g | 0 <= g < |bs|
      ensures Ascending(bs[g]) && forall r | r in bs[g] :: Key(RowKeys(groups, key), r) == UserKeys(us, key)[g]
    {
      MembersAscending(groups, us[g]);
      SelectAscending(rels, Members(groups, us[g]), l);
    }
    BlocksLexSorted(RowKeys(groups, key), UserKeys(us, key), bs);
  }

  lemma RowsListed(groups: seq<int>, rels: seq<int>, us: seq<int>, l: int, r: nat)
    requires ListsMixedUsers(groups, rels, us) && (l == 0 || l == 1)
    ensures r in Flatten(RowBlocks(groups, rels, us, l))
       <==> r < |groups| && rels[r] == l && exists n | 0 <= n < |groups| :: groups[n] == groups[r] && rels[n] == 1 - l
  {
    var bs := RowBlocks(groups, rels, us, l);
    FlattenMembers(bs, r);
    if g :| 0 <= g < |bs| && r in bs[g] {
      assert us[g] in us;
      MixedExactly(groups, rels, us[g]);
    }
    if r < |groups| && rels[r] == l && exists n | 0 <= n < |groups| :: groups[n] == groups[r] && rels[n] == 1 - l {
      var n :| 0 <= n < |groups| && groups[n] == groups[r] && rels[n] == 1 - l;
      MixedExactly(groups, rels, groups[r]);
      var g :| 0 <= g < |us| && us[g] == groups[r];
      assert r in bs[g];
    }
  }

  /** A ticket counts the positive rows before its own. */
  lemma TicketCounts(groups: seq<int>, rels: seq<int>, us: seq<int>, key: int -> int, t: nat)
    requires ListsMixedUsers(groups, rels, us) && OrderedBy(us, key)
    requires t < |LayoutOf(groups, rels, us).positives|
    ensures LayoutOf(groups, rels, us).positives[t] < |groups|
    ensures |PositivesBefore(groups, rels, key, LayoutOf(groups, rels, us).positives[t])| == t
  {
    hide ListsMixedUsers, OrderedBy, Flatten, RowBlocks;
    var xs, keys := LayoutOf(groups, rels, us).positives, RowKeys(groups, key);
    assert |groups| == |rels| by { Aligned(groups, rels, us); }
    RowsListed(groups, rels, us, 1, xs[t]);
    RowsOrdered(groups, rels, us, key, 1);
    var s := PositivesBefore(groups, rels, key, xs[t]);
    forall r: nat
      ensures r in s <==> r in xs && Lex(keys, r, xs[t])
    {
      RowsListed(groups, rels, us, 1, r);
    }
    PlaceCounts(keys, xs, t, s);
  }

  lemma Aligned(groups: seq<int>, rels: seq<int>, us: seq<int>)
    requires ListsMixedUsers(groups, rels, us)
    ensures |groups| == |rels|
  {
  }

  /** An offset counts the negative rows of the user before its own. */
  lemma OffsetCounts(groups: seq<int>, rels: seq<int>, u: int, o: nat)
    requires |groups| == |rels| && o < |RowsWith(groups, rels, u, 0)|
    ensures RowsWith(groups, rels, u, 0)[o] < |groups|
    ensures |NegativesBefore(groups, rels, RowsWith(groups, rels, u, 0)[o])| == o
  {
    var xs := RowsWith(groups, rels, u, 0);
    RowOf(groups, rels, u, 0, o);
    MembersAscending(groups, u);
    SelectAscending(rels, Members(groups, u), 0);
    PlaceCounts([], xs, o, NegativesBefore(groups, rels, xs[o]));
  }

  /** A group number counts the mixed-label users before its own. */
  lemma GroupCounts(groups: seq<int>, rels: seq<int>, us: seq<int>, key: int -> int, g: nat)
    requires ListsMixedUsers(groups, rels, us) && OrderedBy(us, key) && g < |us|
    ensures |MixedBefore(groups, rels, key, us[g])| == g
  {
    var s := MixedBefore(groups, rels, key, us[g]);
    forall v
      ensures v in s <==> v in us[..g]
    {
      MixedExactly(groups, rels, v);
      if v in s {
        var i :| 0 <= i < |us| && us[i] == v;
        assert us[..g][i] == v;
      }
      if v in us[..g] {
        var i :| 0 <= i < g && us[i] == v;
        assert us[i] in us;
      }
    }
    DistinctSize(us[..g], s);
  }

  /** The sizes of a layout. */
  lemma LayoutSizes(groups: seq<int>, rels: seq<int>, us: seq<int>, key: int -> int)
    requires ListsMixedUsers(groups, rels, us) && OrderedBy(us, key) && |groups| == |rels|
    ensures |us| == |MixedUsers(groups, rels)|
    ensures |LayoutOf(groups, rels, us).positives| == |MixedRows(groups, rels, 1)|
    ensures |LayoutOf(groups, rels, us).negatives| == |MixedRows(groups, rels, 0)|
  {
    forall v
      ensures v in MixedUsers(groups, rels) <==> v in us
    {
      MixedExactly(groups, rels, v);
      assert v in us <==> MixedUser(groups, rels, v);
    }
    DistinctSize(us, MixedUsers(groups, rels));
    RowsCounted(groups, rels, us, key, 1);
    RowsCounted(groups, rels, us, key, 0);
  }

  lemma RowsCounted(groups: seq<int>, rels: seq<int>, us: seq<int>, key: int -> int, l: int)
    requires ListsMixedUsers(groups, rels, us) && OrderedBy(us, key) && |groups| == |rels| && (l == 0 || l == 1)
    ensures |Flatten(RowBlocks(groups, rels, us, l))| == |MixedRows(groups, rels, l)|
  {
    hide ListsMixedUsers, OrderedBy, Flatten, RowBlocks;
    var xs := Flatten(RowBlocks(groups, rels, us, l));
    RowsOrdered(groups, rels, us, key, l);
    forall r: nat
      ensures r in MixedRows(groups, rels, l) <==> r in xs
    {
      RowsListed(groups, rels, us, l, r);
    }
    assert NoDuplicates(xs) by {
      assert forall i, j | 0 <= i < j < |xs| :: Lex(RowKeys(groups, key), xs[i], xs[j]);
    }
    DistinctSize(xs, MixedRows(groups, rels, l));
  }

  /** Everything a draw is, for users listed in the order of their keys: a positive and a negative row of one user, the
      ticket counts the positives of mixed-label users before the one, the offset the user's negatives before the other,
      and the group number the mixed-label users before it. */
  lemma DrawCounts(groups: seq<int>, rels: seq<int>, us: seq<int>, key: int -> int, t: nat, o: nat)
    requires ListsMixedUsers(groups, rels, us) && OrderedBy(us, key)
    requires ValidDraw(LayoutOf(groups, rels, us), t, o)
    ensures var pair, g := PairOf(LayoutOf(groups, rels, us), t, o), GroupOf(LayoutOf(groups, rels, us), t);
            && pair.positive < |groups| && pair.negative < |groups| && |groups| == |rels|
            && groups[pair.positive] == groups[pair.negative] && rels[pair.positive] == 1 && rels[pair.negative] == 0
            && t == |PositivesBefore(groups, rels, key, pair.positive)|
            && o == |NegativesBefore(groups, rels, pair.negative)|
            && g == |MixedBefore(groups, rels, key, groups[pair.positive])|
  {
    hide ListsMixedUsers, OrderedBy, Start, Flatten, MixedUser;
    var ps, ns := RowBlocks(groups, rels, us, 1), RowBlocks(groups, rels, us, 0);
    Aligned(groups, rels, us);
    var g, i := LocateDraw(groups, rels, us, t, o);
    TicketOfBlock(ps, ns, g, i);
    RowOf(groups, rels, us[g], 1, i);
    RowOf(groups, rels, us[g], 0, o);
    TicketCounts(groups, rels, us, key, t);
    OffsetCounts(groups, rels, us[g], o);
    GroupCounts(groups, rels, us, key, g);
  }

  /** Conversely every pair of a positive and a negative row of one user is drawn by these counts. */
  lemma CountsAreDrawn(groups: seq<int>, rels: seq<int>, us: seq<int>, key: int -> int, p: nat, n: nat)
    requires ListsMixedUsers(groups, rels, us) && OrderedBy(us, key)
    requires p < |groups| == |rels| && n < |groups| && groups[p] == groups[n] && rels[p] == 1 && rels[n] == 0
    ensures var t, o := |PositivesBefore(groups, rels, key, p)|, |NegativesBefore(groups, rels, n)|;
            ValidDraw(LayoutOf(groups, rels, us), t, o) && PairOf(LayoutOf(groups, rels, us), t, o) == Pair(p, n)
  {
    hide ListsMixedUsers, OrderedBy, ValidDraw;
    var t, o := LoggedPairsAreDrawn(groups, rels, us, Pair(p, n));
    DrawCounts(groups, rels, us, key, t, o);
  }

  /** The valid draws are exactly the counts of such pairs. */
  lemma DrawsExactly(groups: seq<int>, rels: seq<int>, us: seq<int>, key: int -> int, t: nat, o: nat)
    requires ListsMixedUsers(groups, rels, us) && OrderedBy(us, key) && |groups| == |rels|
    ensures ValidDraw(LayoutOf(groups, rels, us), t, o) <==> CountsOfPair(groups, rels, key, t, o)
  {
    hide ListsMixedUsers, OrderedBy, RowBlocks, LayoutFrom;
    if ValidDraw(LayoutOf(groups, rels, us), t, o) {
      DrawCounts(groups, rels, us, key, t, o);
    }
    if p: nat, n: nat :| && p < |rels| && n < |rels| && groups[p] == groups[n] && rels[p] == 1 && rels[n] == 0
                         && t == |PositivesBefore(groups, rels, key, p)| && o == |NegativesBefore(groups, rels, n)| {
      CountsAreDrawn(groups, rels, us, key, p, n);
    }
  }

  // ---------------------------------------------------------------- the two orders of the users

  /** The first row of a user. */
  ghost function FirstRow(groups: seq<int>): (key: int -> int)
    ensures forall u | u in groups :: key(u) == FirstIndex(groups, u)
  {
    (u: int) => if u in groups then FirstIndex(groups, u) else |groups|
  }

  /** The user code itself. */
  ghost function OwnCode(): (key: int -> int)
    ensures forall u :: key(u) == u
  {
    (u: int) => u
  }

  lemma FirstSeenOrdered(groups: seq<int>, rels: seq<int>)
    ensures OrderedBy(MixedOnly(groups, rels, FirstSeen(groups)), FirstRow(groups))
  {
    var us := FirstSeen(groups);
    forall i, j | 0 <= i < j < |us|
      ensures FirstRow(groups)(us[i]) < FirstRow(groups)(us[j])
    {
      FirstSeenOrder(groups, i, j);
    }
    MixedOnlyOrdered(groups, rels, us, FirstRow(groups));
  }

  lemma SortedDistinctOrdered(groups: seq<int>, rels: seq<int>)
    ensures OrderedBy(MixedOnly(groups, rels, SortedDistinct(groups)), OwnCode())
  {
    SortedDistinctAscending(groups);
    MixedOnlyOrdered(groups, rels, SortedDistinct(groups), OwnCode());
  }
}
