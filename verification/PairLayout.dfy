/** The linear-memory layout of same-user pairs, what a draw from it returns, and its exact expectation.
    Both samplers of the repository fill this layout; they differ in the order of the users and in how a
    ticket finds its user. */
module PairLayout {
  import opened Sums
  import opened Numpy
  import opened Blocks

  /** positives and negatives hold row indices block by block, one block per eligible user. */
  datatype Layout = Layout(
    positives: seq<nat>, negatives: seq<nat>,
    cumulativePositives: seq<nat>, negativeOffsets: seq<nat>, negativeCounts: seq<nat>)

  datatype Pair = Pair(positive: nat, negative: nat)

  function RowsWith(groups: seq<int>, rels: seq<int>, u: int, l: int): (idx: seq<nat>)
    ensures forall i: nat :: i in idx <==> i < |groups| && groups[i] == u && Key(rels, i) == l
  {
    Select(rels, Members(groups, u), l)
  }

  predicate MixedUser(groups: seq<int>, rels: seq<int>, u: int) {
    RowsWith(groups, rels, u, 1) != [] && RowsWith(groups, rels, u, 0) != []
  }

  function RowBlocks(groups: seq<int>, rels: seq<int>, us: seq<int>, l: int): (bs: seq<seq<nat>>)
    ensures |bs| == |us|
    ensures forall g :: 0 <= g < |us| ==> bs[g] == RowsWith(groups, rels, us[g], l)
  {
    seq(|us|, g requires 0 <= g < |us| => RowsWith(groups, rels, us[g], l))
  }

  function Starts<T>(bs: seq<seq<T>>): (ss: seq<nat>)
    ensures |ss| == |bs|
    ensures forall g :: 0 <= g < |bs| ==> ss[g] == Start(bs, g)
  {
    seq(|bs|, g requires 0 <= g < |bs| => Start(bs, g))
  }

  function LayoutFrom(ps: seq<seq<nat>>, ns: seq<seq<nat>>): Layout {
    Layout(Flatten(ps), Flatten(ns), Cumsum(Lengths(ps)), Starts(ns), Lengths(ns))
  }

  function LayoutOf(groups: seq<int>, rels: seq<int>, us: seq<int>): Layout {
    LayoutFrom(RowBlocks(groups, rels, us, 1), RowBlocks(groups, rels, us, 0))
  }

  /** us lists every mixed-label user exactly once */
  ghost predicate ListsMixedUsers(groups: seq<int>, rels: seq<int>, us: seq<int>) {
    && |groups| == |rels|
    && NoDuplicates(us)
    && (forall u :: u in us <==> MixedUser(groups, rels, u))
  }

  /** The user block that a ticket falls in (`searchsorted(cumulative, ticket, side="right")`). */
  function GroupOf(l: Layout, t: nat): nat { SearchRight(l.cumulativePositives, t) }

  /** A ticket with room for at least one draw. */
  predicate ValidDraw(l: Layout, t: nat, o: nat) {
    && t < |l.positives|
    && GroupOf(l, t) < |l.negativeCounts| == |l.negativeOffsets|
    && o < l.negativeCounts[GroupOf(l, t)]
    && l.negativeOffsets[GroupOf(l, t)] + o < |l.negatives|
  }

  /** The row pair that a ticket and an offset name. */
  function PairOf(l: Layout, t: nat, o: nat): Pair
    requires ValidDraw(l, t, o)
  {
    Pair(l.positives[t], l.negatives[l.negativeOffsets[GroupOf(l, t)] + o])
  }

  // ---------------------------------------------------------------- reading the layout block by block

  /** Ticket Start + i is the i-th positive of block g. */
  lemma TicketOfBlock(ps: seq<seq<nat>>, ns: seq<seq<nat>>, g: nat, i: nat)
    requires g < |ps| && i < |ps[g]|
    ensures var l, t := LayoutFrom(ps, ns), Start(ps, g) + i;
            t < |l.positives| && GroupOf(l, t) == g && l.positives[t] == ps[g][i]
  {
    var t := Start(ps, g) + i;
    FlattenAt(ps, g, i);
    PlaceOwned(ps, g, i);
    SearchFindsOwner(ps, t);
    OwnerUnique(ps, g, SearchRight(Cumsum(Lengths(ps)), t), t);
  }

  /** Conversely every ticket belongs to one block. */
  lemma BlockOfTicket(ps: seq<seq<nat>>, ns: seq<seq<nat>>, t: nat) returns (g: nat, i: nat)
    requires t < |Flatten(ps)|
    ensures g < |ps| && i < |ps[g]| && t == Start(ps, g) + i
    ensures GroupOf(LayoutFrom(ps, ns), t) == g && Flatten(ps)[t] == ps[g][i]
  {
    g, i := FlattenPlaces(ps, t);
    TicketOfBlock(ps, ns, g, i);
  }

  /** A draw is valid exactly when its offset lies below the negative count of the ticket's own block;
      it then names the i-th positive and the o-th negative of that block. */
  lemma DrawOfBlock(ps: seq<seq<nat>>, ns: seq<seq<nat>>, g: nat, i: nat, o: nat)
    requires |ps| == |ns| && g < |ps| && i < |ps[g]|
    ensures ValidDraw(LayoutFrom(ps, ns), Start(ps, g) + i, o) <==> o < |ns[g]|
    ensures o < |ns[g]| ==> PairOf(LayoutFrom(ps, ns), Start(ps, g) + i, o) == Pair(ps[g][i], ns[g][o])
  {
    TicketOfBlock(ps, ns, g, i);
    if o < |ns[g]| {
      FlattenAt(ns, g, o);
    }
  }

  /** A ticket below the positive count with an offset below the negative count of its group is a valid draw. */
  lemma BlockDraw(ps: seq<seq<nat>>, ns: seq<seq<nat>>, t: nat, o: nat)
    requires |ps| == |ns| && t < |Flatten(ps)|
    requires var l := LayoutFrom(ps, ns); GroupOf(l, t) < |l.negativeCounts| ==> o < l.negativeCounts[GroupOf(l, t)]
    ensures ValidDraw(LayoutFrom(ps, ns), t, o)
  {
    var g, i := BlockOfTicket(ps, ns, t);
    DrawOfBlock(ps, ns, g, i, o);
  }

  /** the logged same-user pairs: one positive and one negative row of the same user */
  ghost predicate LoggedPair(groups: seq<int>, rels: seq<int>, pair: Pair) {
    && pair.positive < |groups| && pair.negative < |groups|
    && groups[pair.positive] == groups[pair.negative]
    && Key(rels, pair.positive) == 1 && Key(rels, pair.negative) == 0
  }

  /** Where a valid draw lands: a user, a place among its positives and one among its negatives. */
  lemma LocateDraw(groups: seq<int>, rels: seq<int>, us: seq<int>, t: nat, o: nat) returns (g: nat, i: nat)
    requires ValidDraw(LayoutOf(groups, rels, us), t, o)
    ensures g < |us| && i < |RowsWith(groups, rels, us[g], 1)| && o < |RowsWith(groups, rels, us[g], 0)|
    ensures t == Start(RowBlocks(groups, rels, us, 1), g) + i
    ensures PairOf(LayoutOf(groups, rels, us), t, o)
         == Pair(RowsWith(groups, rels, us[g], 1)[i], RowsWith(groups, rels, us[g], 0)[o])
  {
    hide Start;
    var ps, ns := RowBlocks(groups, rels, us, 1), RowBlocks(groups, rels, us, 0);
    g, i := BlockOfTicket(ps, ns, t);
    DrawOfBlock(ps, ns, g, i, o);
  }

  lemma RowOf(groups: seq<int>, rels: seq<int>, u: int, l: int, i: nat)
    requires i < |RowsWith(groups, rels, u, l)|
    ensures var r := RowsWith(groups, rels, u, l)[i];
            r < |groups| && groups[r] == u && Key(rels, r) == l
  {
    assert RowsWith(groups, rels, u, l)[i] in RowsWith(groups, rels, u, l);
  }

  lemma PlaceOf(groups: seq<int>, rels: seq<int>, r: nat) returns (i: nat)
    requires r < |groups| == |rels|
    ensures i < |RowsWith(groups, rels, groups[r], rels[r])| && RowsWith(groups, rels, groups[r], rels[r])[i] == r
  {
    assert r in RowsWith(groups, rels, groups[r], rels[r]);
    i :| 0 <= i < |RowsWith(groups, rels, groups[r], rels[r])| && RowsWith(groups, rels, groups[r], rels[r])[i] == r;
  }

  /** Every draw names a logged same-user pair. */
  lemma DrawsAreLogged(groups: seq<int>, rels: seq<int>, us: seq<int>, t: nat, o: nat)
    requires ValidDraw(LayoutOf(groups, rels, us), t, o)
    ensures var pair := PairOf(LayoutOf(groups, rels, us), t, o);
            && LoggedPair(groups, rels, pair)
            && pair.positive < |groups| && pair.negative < |groups| && groups[pair.positive] == groups[pair.negative]
  {
    var g, i := LocateDraw(groups, rels, us, t, o);
    RowOf(groups, rels, us[g], 1, i);
    RowOf(groups, rels, us[g], 0, o);
  }

  /** Every logged same-user pair is some draw. */
  lemma LoggedPairsAreDrawn(groups: seq<int>, rels: seq<int>, us: seq<int>, pair: Pair) returns (t: nat, o: nat)
    requires ListsMixedUsers(groups, rels, us) && LoggedPair(groups, rels, pair)
    ensures ValidDraw(LayoutOf(groups, rels, us), t, o)
    ensures PairOf(LayoutOf(groups, rels, us), t, o) == pair
  {
    hide Start, RowsWith, ListsMixedUsers, LoggedPair, ValidDraw, PairOf;
    var g, i;
    g, i, o := PairPlaces(groups, rels, us, pair);
    t := Start(RowBlocks(groups, rels, us, 1), g) + i;
    DrawOfBlock(RowBlocks(groups, rels, us, 1), RowBlocks(groups, rels, us, 0), g, i, o);
  }

  lemma PairPlaces(groups: seq<int>, rels: seq<int>, us: seq<int>, pair: Pair) returns (g: nat, i: nat, o: nat)
    requires ListsMixedUsers(groups, rels, us) && LoggedPair(groups, rels, pair)
    ensures g < |us|
    ensures i < |RowsWith(groups, rels, us[g], 1)| && RowsWith(groups, rels, us[g], 1)[i] == pair.positive
    ensures o < |RowsWith(groups, rels, us[g], 0)| && RowsWith(groups, rels, us[g], 0)[o] == pair.negative
  {
    i := PlaceOf(groups, rels, pair.positive);
    o := PlaceOf(groups, rels, pair.negative);
    g := MixedUserListed(groups, rels, us, groups[pair.positive]);
  }

  lemma MixedUserListed(groups: seq<int>, rels: seq<int>, us: seq<int>, u: int) returns (g: nat)
    requires ListsMixedUsers(groups, rels, us) && RowsWith(groups, rels, u, 1) != [] && RowsWith(groups, rels, u, 0) != []
    ensures g < |us| && us[g] == u
  {
    assert MixedUser(groups, rels, u);
    g :| g < |us| && us[g] == u;
  }

  lemma RowsWithInjective(groups: seq<int>, rels: seq<int>, u: int, l: int, i: nat, j: nat)
    requires i < |RowsWith(groups, rels, u, l)| && j < |RowsWith(groups, rels, u, l)|
    requires RowsWith(groups, rels, u, l)[i] == RowsWith(groups, rels, u, l)[j]
    ensures i == j
  {
    MembersAscending(groups, u);
    SelectAscending(rels, Members(groups, u), l);
    AscendingInjective(RowsWith(groups, rels, u, l), i, j);
  }

  /** And no two draws name the same pair: together, a bijection. */
  lemma DrawsAreDistinct(groups: seq<int>, rels: seq<int>, us: seq<int>, t: nat, o: nat, t': nat, o': nat)
    requires NoDuplicates(us)
    requires ValidDraw(LayoutOf(groups, rels, us), t, o) && ValidDraw(LayoutOf(groups, rels, us), t', o')
    requires PairOf(LayoutOf(groups, rels, us), t, o) == PairOf(LayoutOf(groups, rels, us), t', o')
    ensures t == t' && o == o'
  {
    var g, i := LocateDraw(groups, rels, us, t, o);
    var g', i' := LocateDraw(groups, rels, us, t', o');
    RowOf(groups, rels, us[g], 1, i);
    RowOf(groups, rels, us[g'], 1, i');
    assert us[g] == us[g'];
    RowsWithInjective(groups, rels, us[g], 1, i, i');
    RowsWithInjective(groups, rels, us[g], 0, o, o');
  }

  // ---------------------------------------------------------------- the mixed-label users

  /** The mixed-label users among those listed, in the listed order. */
  function MixedOnly(groups: seq<int>, rels: seq<int>, us: seq<int>): (es: seq<int>)
    ensures forall u :: u in es <==> u in us && MixedUser(groups, rels, u)
  {
    if us == [] then []
    else
      var n := |us| - 1;
      if MixedUser(groups, rels, us[n]) then MixedOnly(groups, rels, us[..n]) + [us[n]]
      else MixedOnly(groups, rels, us[..n])
  }

  lemma {:induction false} MixedOnlyListsOnce(groups: seq<int>, rels: seq<int>, us: seq<int>)
    requires NoDuplicates(us)
    ensures NoDuplicates(MixedOnly(groups, rels, us))
  {
    if us != [] {
      var n := |us| - 1;
      MixedOnlyListsOnce(groups, rels, us[..n]);
      assert us[n] !in us[..n];
    }
  }

  /** Any duplicate-free list of the users that occur leads to a full list of the mixed users. */
  lemma MixedOnlyIsComplete(groups: seq<int>, rels: seq<int>, us: seq<int>)
    requires |groups| == |rels| && NoDuplicates(us)
    requires forall u :: u in us <==> u in groups
    ensures ListsMixedUsers(groups, rels, MixedOnly(groups, rels, us))
  {
    MixedOnlyListsOnce(groups, rels, us);
    forall u | MixedUser(groups, rels, u)
      ensures u in us
    {
      RowOf(groups, rels, u, 1, 0);
    }
  }
}
