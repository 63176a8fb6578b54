/** `within_user_pairs` of candidate_seed/model_impl.py: the same pair distribution by sorting and a repeat table. */
module WithinUserPairs {
  import opened Results
  import opened Auc
  import opened Evaluate
  import opened Numpy
  import opened Blocks
  import opened Grouping
  import opened PairLayout
  import opened PairExpectation
  import opened PairOrder
  import opened PairSampler

  /** One block per distinct user, in ascending order of the user code. */
  function AscendingBlocks(groups: seq<int>): seq<seq<nat>> { MemberBlocks(groups, SortedDistinct(groups)) }

  /** The users the layout lists: mixed-label users in ascending order. */
  function AscendingMixed(groups: seq<int>, rels: seq<int>): seq<int> {
    MixedOnly(groups, rels, SortedDistinct(groups))
  }

  lemma AscendingMixedIsComplete(groups: seq<int>, rels: seq<int>)
    requires |groups| == |rels|
    ensures ListsMixedUsers(groups, rels, AscendingMixed(groups, rels))
  {
    SortedDistinctAscending(groups);
    MixedOnlyIsComplete(groups, rels, SortedDistinct(groups));
  }

  lemma NoEmptyBlock(groups: seq<int>, g: nat)
    requires g < |SortedDistinct(groups)|
    ensures |AscendingBlocks(groups)[g]| > 0
  {
    var vs := SortedDistinct(groups);
    assert vs[g] in vs;
    assert FirstIndex(groups, vs[g]) in Members(groups, vs[g]);
  }

  /** Sorting the rows by user lays them out in these blocks. */
  lemma SortedRows(groups: seq<int>)
    ensures Argsort(groups) == Flatten(AscendingBlocks(groups))
  {
    var vs, bs := SortedDistinct(groups), AscendingBlocks(groups);
    SortedDistinctAscending(groups);
    ArgsortOrder(groups);
    forall g | 0 <= g < |bs|
      ensures Ascending(bs[g]) && forall i | i in bs[g] :: Key(groups, i) == vs[g]
    {
      MembersAscending(groups, vs[g]);
    }
    BlocksLexSorted(groups, vs, bs);
    forall i: nat
      ensures i in Argsort(groups) <==> i in Flatten(bs)
    {
      FlattenMembers(bs, i);
      if i < |groups| {
        assert groups[i] in vs;
        assert i in bs[FirstIndex(vs, groups[i])];
      }
    }
    LexUnique(groups, Argsort(groups), Flatten(bs));
  }

  // ---------------------------------------------------------------- where the user changes

  /** `xs[1:] != xs[:-1]` */
  function Changes(xs: seq<int>): (mask: seq<bool>)
    ensures |mask| == if xs == [] then 0 else |xs| - 1
    ensures forall i :: 0 <= i < |mask| ==> mask[i] == (xs[i+1] != xs[i])
  {
    if xs == [] then [] else seq(|xs| - 1, i requires 0 <= i < |xs| - 1 => xs[i+1] != xs[i])
  }

  /** `np.flatnonzero(xs[1:] != xs[:-1]) + 1` */
  function Boundaries(xs: seq<int>): (cuts: seq<nat>) {
    var idx := Flatnonzero(Changes(xs));
    seq(|idx|, k requires 0 <= k < |idx| => idx[k] + 1)
  }

  lemma BoundaryMembers(xs: seq<int>, t: nat)
    ensures t in Boundaries(xs) <==> 0 < t < |xs| && xs[t] != xs[t-1]
    ensures Ascending(Boundaries(xs))
  {
    var idx := Flatnonzero(Changes(xs));
    FlatnonzeroAscending(Changes(xs));
    if t in Boundaries(xs) {
      var k :| 0 <= k < |idx| && Boundaries(xs)[k] == t;
      assert idx[k] in idx;
    }
    if 0 < t < |xs| && xs[t] != xs[t-1] {
      assert t - 1 in idx;
      var k :| 0 <= k < |idx| && idx[k] == t - 1;
      assert Boundaries(xs)[k] == t;
    }
  }

  /** the column xs holds vs[g] throughout block g, and neighbouring blocks differ */
  ghost predicate ConstantOnBlocks<T>(bs: seq<seq<T>>, vs: seq<int>, xs: seq<int>) {
    && |vs| == |bs| && |xs| == |Flatten(bs)|
    && Ascending(vs)
    && (forall g :: 0 <= g < |bs| ==> |bs[g]| > 0)
    && (forall g: nat, t: nat :: Owns(bs, g, t) ==> t < |xs| && xs[t] == vs[g])
  }

  lemma OwnerOf<T>(bs: seq<seq<T>>, t: nat) returns (g: nat)
    requires t < |Flatten(bs)|
    ensures Owns(bs, g, t)
  {
    var i;
    g, i := FlattenPlaces(bs, t);
    PlaceOwned(bs, g, i);
  }

  /** A place inside the concatenation starts a block exactly when its predecessor has another owner. */
  lemma CutIsStart<T>(bs: seq<seq<T>>, vs: seq<int>, xs: seq<int>, t: nat)
    requires ConstantOnBlocks(bs, vs, xs) && 0 < t < |xs|
    ensures xs[t] != xs[t-1] <==> t in Starts(bs)
  {
    var g := OwnerOf(bs, t);
    var h := OwnerOf(bs, t - 1);
    if xs[t] != xs[t-1] {
      if Start(bs, g) < t {
        OwnerUnique(bs, g, h, t - 1);
      }
      assert Starts(bs)[g] == t;
    }
    if t in Starts(bs) {
      var w: nat :| w < |bs| && Starts(bs)[w] == t;
      PlaceOwned(bs, w, 0);
      OwnerUnique(bs, g, w, t);
      assert h != g;
      AscendingDistinct(vs, g, h);
    }
  }

  lemma AscendingDistinct(vs: seq<int>, i: nat, j: nat)
    requires Ascending(vs) && i < |vs| && j < |vs| && i != j
    ensures vs[i] != vs[j]
  {
  }

  lemma StartsAscending<T>(bs: seq<seq<T>>)
    requires forall g :: 0 <= g < |bs| ==> |bs[g]| > 0
    ensures Ascending(Starts(bs))
    ensures forall t | t in Starts(bs) :: t < |Flatten(bs)|
  {
    forall g, h | 0 <= g < h < |bs|
      ensures Start(bs, g) < Start(bs, h)
    {
      StartStep(bs, g);
      StartMonotone(bs, g + 1, h);
    }
    forall t | t in Starts(bs)
      ensures t < |Flatten(bs)|
    {
      var g: nat :| g < |bs| && Starts(bs)[g] == t;
      FlattenAt(bs, g, 0);
    }
  }

  /** So the change points of the sorted column are where the blocks start. */
  lemma CutsAreStarts<T>(bs: seq<seq<T>>, vs: seq<int>, xs: seq<int>)
    requires ConstantOnBlocks(bs, vs, xs) && bs != []
    ensures [0] + Boundaries(xs) == Starts(bs)
  {
    StartsAscending(bs);
    StartStep(bs, 0);
    assert Starts(bs)[0] == 0;
    var cuts := [0] + Boundaries(xs);
    forall t: nat
      ensures t in cuts <==> t in Starts(bs)
    {
      BoundaryMembers(xs, t);
      if 0 < t < |xs| {
        CutIsStart(bs, vs, xs, t);
      }
    }
    forall i, j | 0 <= i < j < |cuts|
      ensures cuts[i] < cuts[j]
    {
      BoundaryMembers(xs, cuts[j]);
      assert Boundaries(xs)[j-1] in Boundaries(xs);
    }
    LexUnique([], cuts, Starts(bs));
  }

  /** `user_groups[order]` */
  function SortedColumn(groups: seq<int>): (xs: seq<int>)
    ensures |xs| == |groups|
  {
    ArgsortOrder(groups);
    Gather(groups, Argsort(groups))
  }

  lemma SortedColumnIsConstant(groups: seq<int>)
    ensures ConstantOnBlocks(AscendingBlocks(groups), SortedDistinct(groups), SortedColumn(groups))
  {
    hide AscendingBlocks, SortedDistinct, SortedColumn, Start, Flatten;
    var vs, bs := SortedDistinct(groups), AscendingBlocks(groups);
    SortedColumnShape(groups);
    SortedDistinctAscending(groups);
    forall g | 0 <= g < |bs|
      ensures |bs[g]| > 0
    {
      NoEmptyBlock(groups, g);
    }
    forall g: nat, t: nat | Owns(bs, g, t)
      ensures t < |groups| && SortedColumn(groups)[t] == vs[g]
    {
      OwnedColumn(groups, g, t);
    }
  }

  lemma SortedColumnShape(groups: seq<int>)
    ensures |SortedDistinct(groups)| == |AscendingBlocks(groups)|
    ensures |SortedColumn(groups)| == |Flatten(AscendingBlocks(groups))| == |groups|
  {
    SortedRows(groups);
    ArgsortOrder(groups);
  }

  lemma OwnedColumn(groups: seq<int>, g: nat, t: nat)
    requires Owns(AscendingBlocks(groups), g, t)
    ensures g < |SortedDistinct(groups)|
    ensures t < |groups| && |SortedColumn(groups)| == |groups| && SortedColumn(groups)[t] == SortedDistinct(groups)[g]
  {
    hide Flatten, SortedDistinct, Start;
    var bs := AscendingBlocks(groups);
    SortedColumnShape(groups);
    StartStep(bs, g);
    FlattenAt(bs, g, t - Start(bs, g));
    assert bs[g][t - Start(bs, g)] in bs[g];
    SortedRows(groups);
    ArgsortOrder(groups);
  }

  // ---------------------------------------------------------------- the sampler

  datatype Picks = Picks(positives: seq<nat>, negatives: seq<nat>)

  /** The segments the source cuts out of the sorted order; an empty input yields one empty segment. */
  function Segments(groups: seq<int>): seq<seq<nat>> {
    if groups == [] then [[]] else AscendingBlocks(groups)
  }

  /** `order[start:end]` for consecutive boundaries. */
  lemma SegmentRows(groups: seq<int>, k: nat)
    requires k < |Segments(groups)|
    ensures var starts := [0] + Boundaries(SortedColumn(groups));
            var ends := Boundaries(SortedColumn(groups)) + [|groups|];
            && |starts| == |ends| == |Segments(groups)|
            && starts[k] <= ends[k] <= |Argsort(groups)| && Argsort(groups)[starts[k]..ends[k]] == Segments(groups)[k]
  {
    SortedRows(groups);
    ArgsortOrder(groups);
    if groups == [] {
      assert Argsort(groups)[0..0] == [];
    } else {
      SegmentCuts(groups, k);
      SliceOfFlatten(AscendingBlocks(groups), k);
    }
  }

  /** The two boundary lists hold where block k starts and where it ends. */
  lemma SegmentCuts(groups: seq<int>, k: nat)
    requires groups != [] && k < |AscendingBlocks(groups)|
    ensures var starts := [0] + Boundaries(SortedColumn(groups));
            var ends := Boundaries(SortedColumn(groups)) + [|groups|];
            && |starts| == |ends| == |AscendingBlocks(groups)|
            && starts[k] == Start(AscendingBlocks(groups), k) && ends[k] == Start(AscendingBlocks(groups), k + 1)
  {
    hide AscendingBlocks, SortedDistinct, SortedColumn, Flatten, Boundaries;
    var bs, xs := AscendingBlocks(groups), SortedColumn(groups);
    SortedColumnShape(groups);
    SortedColumnIsConstant(groups);
    CutsAreStarts(bs, SortedDistinct(groups), xs);
    StartStep(bs, k);
    var starts, ends := [0] + Boundaries(xs), Boundaries(xs) + [|groups|];
    assert k + 1 < |bs| ==> ends[k] == starts[k+1];
  }

  /** The mixed-label users among the first k segments. */
  ghost function MixedUpTo(groups: seq<int>, rels: seq<int>, k: nat): seq<int> {
    var vs := SortedDistinct(groups);
    if k <= |vs| then MixedOnly(groups, rels, vs[..k]) else MixedOnly(groups, rels, vs)
  }

  /** One segment contributes its two blocks when both are non-empty, and nothing otherwise. */
  lemma CollectStep(groups: seq<int>, rels: seq<int>, k: nat, l: int)
    requires |groups| == |rels| && k < |Segments(groups)|
    ensures var rows := Segments(groups)[k];
            RowBlocks(groups, rels, MixedUpTo(groups, rels, k + 1), l)
            == if Select(rels, rows, 1) != [] && Select(rels, rows, 0) != []
               then RowBlocks(groups, rels, MixedUpTo(groups, rels, k), l) + [Select(rels, rows, l)]
               else RowBlocks(groups, rels, MixedUpTo(groups, rels, k), l)
  {
    hide RowBlocks, Segments, MixedUpTo, SortedDistinct;
    if groups != [] {
      SegmentAt(groups, k);
      MixedUpToStep(groups, rels, k);
      RowBlocksSnoc(groups, rels, MixedUpTo(groups, rels, k), SortedDistinct(groups)[k], l);
    } else {
      NoSegments(groups, rels, k);
    }
  }

  lemma SegmentAt(groups: seq<int>, k: nat)
    requires groups != [] && k < |Segments(groups)|
    ensures k < |SortedDistinct(groups)| && Segments(groups)[k] == Members(groups, SortedDistinct(groups)[k])
  {
  }

  lemma MixedUpToStep(groups: seq<int>, rels: seq<int>, k: nat)
    requires k < |SortedDistinct(groups)|
    ensures var v := SortedDistinct(groups)[k];
            MixedUpTo(groups, rels, k + 1)
            == if MixedUser(groups, rels, v) then MixedUpTo(groups, rels, k) + [v] else MixedUpTo(groups, rels, k)
  {
    hide SortedDistinct, MixedUser;
    var vs := SortedDistinct(groups);
    assert vs[..k+1][..k] == vs[..k];
  }

  lemma NoSegments(groups: seq<int>, rels: seq<int>, k: nat)
    requires groups == [] && k < |Segments(groups)|
    ensures Segments(groups)[k] == [] && MixedUpTo(groups, rels, k + 1) == MixedUpTo(groups, rels, k)
  {
  }

  lemma RowBlocksSnoc(groups: seq<int>, rels: seq<int>, us: seq<int>, u: int, l: int)
    ensures RowBlocks(groups, rels, us + [u], l) == RowBlocks(groups, rels, us, l) + [RowsWith(groups, rels, u, l)]
  {
  }

  lemma SegmentCount(groups: seq<int>)
    ensures |Segments(groups)| == |Boundaries(SortedColumn(groups))| + 1
  {
    assert groups != [] ==> groups[0] in SortedDistinct(groups);
    SegmentRows(groups, 0);
  }

  lemma AllSegmentsCollected(groups: seq<int>, rels: seq<int>)
    ensures MixedUpTo(groups, rels, |Segments(groups)|) == AscendingMixed(groups, rels)
    ensures MixedUpTo(groups, rels, 0) == []
  {
    var vs := SortedDistinct(groups);
    assert vs[..|vs|] == vs && vs[..0] == [];
  }

  /** The loop over segments: the blocks of the mixed-label users, in ascending order of the user. */
  method CollectBlocks(groups: seq<int>, rels: seq<int>) returns (ps: seq<seq<nat>>, ns: seq<seq<nat>>)
    requires |groups| == |rels|
    ensures ps == RowBlocks(groups, rels, AscendingMixed(groups, rels), 1)
    ensures ns == RowBlocks(groups, rels, AscendingMixed(groups, rels), 0)
  {
    var order := Argsort(groups);
    var boundaries := Boundaries(SortedColumn(groups));
    var starts, ends := [0] + boundaries, boundaries + [|groups|];
    SegmentCount(groups);
    AllSegmentsCollected(groups, rels);
    ps, ns := [], [];
    for k := 0 to |starts|
      invariant ps == RowBlocks(groups, rels, MixedUpTo(groups, rels, k), 1)
      invariant ns == RowBlocks(groups, rels, MixedUpTo(groups, rels, k), 0)
    {
      SegmentRows(groups, k);
      CollectStep(groups, rels, k, 1);
      CollectStep(groups, rels, k, 0);
      var rows := order[starts[k]..ends[k]];
      var positives, negatives := Select(rels, rows, 1), Select(rels, rows, 0);
      if positives != [] && negatives != [] {
        ps, ns := ps + [positives], ns + [negatives];
      }
    }
  }

  /** The layout this sampler draws from. */
  ghost function PairsLayout(groups: seq<int>, rels: seq<int>): Layout {
    LayoutOf(groups, rels, AscendingMixed(groups, rels))
  }

  /** This sampler, too, follows the metric exactly. */
  lemma PairsFollowGauc(groups: seq<int>, rels: seq<Label>, scores: seq<real>)
    requires |groups| == |rels| == |scores| && exists u :: MixedUser(groups, rels, u)
    ensures Expectation(PairsLayout(groups, rels), scores) == GaucOf(RowsFrom(groups, rels, scores))
  {
    AscendingMixedIsComplete(groups, rels);
    ExpectationIsGauc(groups, rels, AscendingMixed(groups, rels), scores);
  }

  lemma {:induction false} CumsumPrefix(xs: seq<nat>)
    requires xs != []
    ensures Cumsum(xs)[..|xs|-1] == Cumsum(xs[..|xs|-1])
  {
  }

  /** The repeat table and the binary search name the same user for every ticket. */
  lemma LookupsAgree(ps: seq<seq<nat>>, ns: seq<seq<nat>>, t: nat)
    requires t < |Flatten(ps)|
    ensures t < |Repeat(Lengths(ps))| && Repeat(Lengths(ps))[t] == GroupOf(LayoutFrom(ps, ns), t)
  {
    RepeatFindsOwner(ps, t);
    SearchFindsOwner(ps, t);
    OwnerUnique(ps, Repeat(Lengths(ps))[t], SearchRight(Cumsum(Lengths(ps)), t), t);
  }

  /** Negative starts: a zero followed by all but the last cumulative count. */
  lemma NegativeStarts(ns: seq<seq<nat>>)
    requires ns != []
    ensures [0] + Cumsum(Lengths(ns))[..|ns|-1] == Starts(ns)
  {
    OffsetsAreStarts(ns);
    CumsumPrefix(Lengths(ns));
  }

  /** the picked rows are the pairs that the draws name */
  ghost predicate Realises(l: Layout, picked: seq<nat>, offsets: seq<nat>, picks: Picks) {
    && |picked| == |offsets|
    && |picks.positives| == |picks.negatives| <= |picked|
    && forall k | 0 <= k < |picks.positives| ::
         && ValidDraw(l, picked[k], offsets[k])
         && Pair(picks.positives[k], picks.negatives[k]) == PairOf(l, picked[k], offsets[k])
  }

  ghost predicate AllDraws(l: Layout, picked: seq<nat>, offsets: seq<nat>) {
    |picked| == |offsets| && forall k | 0 <= k < |picked| :: ValidDraw(l, picked[k], offsets[k])
  }

  /** The generator's ranges: picked below the positive count, each offset below the negative count of its group. */
  ghost predicate AllInRange(l: Layout, picked: seq<nat>, offsets: seq<nat>) {
    && |picked| == |offsets|
    && forall k | 0 <= k < |picked| ::
         && picked[k] < |l.positives|
         && (GroupOf(l, picked[k]) < |l.negativeCounts| ==> offsets[k] < l.negativeCounts[GroupOf(l, picked[k])])
  }

  /** In the layout of any blocks the generator's ranges leave every index inside its array. */
  lemma RangesAreDraws(ps: seq<seq<nat>>, ns: seq<seq<nat>>, picked: seq<nat>, offsets: seq<nat>)
    requires |ps| == |ns| && AllInRange(LayoutFrom(ps, ns), picked, offsets)
    ensures AllDraws(LayoutFrom(ps, ns), picked, offsets)
  {
    forall k | 0 <= k < |picked|
      ensures ValidDraw(LayoutFrom(ps, ns), picked[k], offsets[k])
    {
      BlockDraw(ps, ns, picked[k], offsets[k]);
    }
  }

  /** What one realised pick is on the columns. */
  lemma PickedRows(groups: seq<int>, rels: seq<int>, picked: seq<nat>, offsets: seq<nat>, picks: Picks, k: nat)
    requires |groups| == |rels| && Realises(PairsLayout(groups, rels), picked, offsets, picks) && k < |picks.positives|
    ensures |picks.positives| == |picks.negatives| <= |picked| == |offsets|
    ensures var p, n := picks.positives[k], picks.negatives[k];
            && p < |rels| && n < |rels| && groups[p] == groups[n] && rels[p] == 1 && rels[n] == 0
            && picked[k] == |PositivesBefore(groups, rels, OwnCode(), p)|
            && offsets[k] == |NegativesBefore(groups, rels, n)|
  {
    hide ListsMixedUsers, OrderedBy, AscendingMixed, RowBlocks, LayoutFrom, ValidDraw;
    AscendingMixedIsComplete(groups, rels);
    AscendingMixedOrdered(groups, rels);
    DrawCounts(groups, rels, AscendingMixed(groups, rels), OwnCode(), picked[k], offsets[k]);
  }

  lemma AscendingMixedOrdered(groups: seq<int>, rels: seq<int>)
    ensures OrderedBy(AscendingMixed(groups, rels), OwnCode())
  {
    SortedDistinctOrdered(groups, rels);
  }

  /** The generator's ranges are exactly the counts of the pairs of a positive and a negative row of one user. */
  lemma RangesExactly(groups: seq<int>, rels: seq<int>, picked: seq<nat>, offsets: seq<nat>)
    requires |groups| == |rels|
    ensures AllInRange(PairsLayout(groups, rels), picked, offsets)
       <==> && |picked| == |offsets|
            && forall k | 0 <= k < |picked| :: CountsOfPair(groups, rels, OwnCode(), picked[k], offsets[k])
  {
    hide ListsMixedUsers, OrderedBy, AscendingMixed, RowBlocks, LayoutFrom, CountsOfPair;
    var es, l := AscendingMixed(groups, rels), PairsLayout(groups, rels);
    AscendingMixedIsComplete(groups, rels);
    AscendingMixedOrdered(groups, rels);
    if |picked| == |offsets| {
      forall k | 0 <= k < |picked|
        ensures ValidDraw(l, picked[k], offsets[k]) <==> CountsOfPair(groups, rels, OwnCode(), picked[k], offsets[k])
      {
        DrawsExactly(groups, rels, es, OwnCode(), picked[k], offsets[k]);
      }
    }
    if AllInRange(l, picked, offsets) {
      RangesAreDraws(RowBlocks(groups, rels, es, 1), RowBlocks(groups, rels, es, 0), picked, offsets);
    }
  }

  lemma SomeAscendingMixed(groups: seq<int>, rels: seq<int>)
    requires |groups| == |rels|
    ensures AscendingMixed(groups, rels) != []
       <==> exists p, n | 0 <= p < |groups| && 0 <= n < |groups| ::
              groups[p] == groups[n] && rels[p] == 1 && rels[n] == 0
  {
    hide MixedUser, AscendingMixed;
    AscendingMixedIsComplete(groups, rels);
    var es := AscendingMixed(groups, rels);
    if es != [] {
      assert es[0] in es;
      MixedExactly(groups, rels, es[0]);
    }
    if p, n :| 0 <= p < |groups| && 0 <= n < |groups| && groups[p] == groups[n] && rels[p] == 1 && rels[n] == 0 {
      MixedExactly(groups, rels, groups[p]);
      assert groups[p] in es;
    }
  }

  /** One drawn pair from the concatenated blocks. */
  method PickPair(ghost ps: seq<seq<nat>>, ghost ns: seq<seq<nat>>, positiveRows: seq<nat>, negativeRows: seq<nat>,
                  groupOfPositive: seq<nat>, negativeStarts: seq<nat>, picked: nat, offset: nat)
    returns (pair: Pair)
    requires |ps| == |ns| && ValidDraw(LayoutFrom(ps, ns), picked, offset)
    requires positiveRows == Flatten(ps) && negativeRows == Flatten(ns)
    requires groupOfPositive == Repeat(Lengths(ps)) && negativeStarts == Starts(ns)
    ensures pair == PairOf(LayoutFrom(ps, ns), picked, offset)
  {
    LookupsAgree(ps, ns, picked);
    var g := groupOfPositive[picked];
    pair := Pair(positiveRows[picked], negativeRows[negativeStarts[g] + offset]);
  }

  /** The closing array expressions. */
  method PickAll(ps: seq<seq<nat>>, ns: seq<seq<nat>>, picked: seq<nat>, offsets: seq<nat>) returns (picks: Picks)
    requires |ps| == |ns| > 0 && AllDraws(LayoutFrom(ps, ns), picked, offsets)
    ensures Realises(LayoutFrom(ps, ns), picked, offsets, picks) && |picks.positives| == |picked|
  {
    var positiveRows, negativeRows := Flatten(ps), Flatten(ns);
    var groupOfPositive := Repeat(Lengths(ps));
    var negativeStarts := [0] + Cumsum(Lengths(ns))[..|ns|-1];
    NegativeStarts(ns);
    picks := Picks([], []);
    for k := 0 to |picked|
      invariant |picks.positives| == k && Realises(LayoutFrom(ps, ns), picked, offsets, picks)
    {
      var pair := PickPair(ps, ns, positiveRows, negativeRows, groupOfPositive, negativeStarts, picked[k], offsets[k]);
      picks := Picks(picks.positives + [pair.positive], picks.negatives + [pair.negative]);
    }
  }

  /** picked and offsets stand for the generator's integers, which are in range and no more. */
  method SamplePairs(targets: seq<int>, groups: seq<int>, picked: seq<nat>, offsets: seq<nat>)
    returns (r: Result<Picks, string>)
    requires |targets| == |groups| && AscendingMixed(groups, targets) != [] ==>
               AllInRange(PairsLayout(groups, targets), picked, offsets)
    ensures r.Success?
       <==> && |targets| == |groups| && picked != []
            && exists p, n | 0 <= p < |groups| && 0 <= n < |groups| ::
                 groups[p] == groups[n] && targets[p] == 1 && targets[n] == 0
    ensures r.Success? ==> Realises(PairsLayout(groups, targets), picked, offsets, r.value)
    ensures r.Success? ==>
              && |r.value.positives| == |r.value.negatives| == |picked| == |offsets|
              && forall k | 0 <= k < |picked| ::
                   var p, n := r.value.positives[k], r.value.negatives[k];
                   && p < |groups| && n < |groups| && groups[p] == groups[n] && targets[p] == 1 && targets[n] == 0
                   && picked[k] == |PositivesBefore(groups, targets, OwnCode(), p)|
                   && offsets[k] == |NegativesBefore(groups, targets, n)|
  {
    if |targets| != |groups| {
      return Failure("targets and user_groups must be aligned one-dimensional");
    }
    SomeAscendingMixed(groups, targets);
    if picked == [] {
      return Failure("pair count must be a positive integer");
    }
    var ps, ns := CollectBlocks(groups, targets);
    if ps == [] {
      return Failure("no GAUC eligible user has both a positive and a negative");
    }
    RangesAreDraws(ps, ns, picked, offsets);
    var picks := PickAll(ps, ns, picked, offsets);
    forall k | 0 <= k < |picked|
      ensures var p, n := picks.positives[k], picks.negatives[k];
              && p < |groups| && n < |groups| && groups[p] == groups[n] && targets[p] == 1 && targets[n] == 0
              && picked[k] == |PositivesBefore(groups, targets, OwnCode(), p)|
              && offsets[k] == |NegativesBefore(groups, targets, n)|
    {
      PickedRows(groups, targets, picked, offsets, picks, k);
    }
    return Success(picks);
  }
}
