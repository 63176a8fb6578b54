/** `GAUCPairSampler` of candidate_templates/pairwise_fm/candidate.py. */
module PairSampler {
  import opened Results
  import opened Sums
  import opened Auc
  import opened Evaluate
  import opened Numpy
  import opened Blocks
  import opened Grouping
  import opened PairLayout
  import opened PairExpectation
  import opened PairOrder

  const MAX_SAMPLED_PAIRS: nat := 1_000_000

  predicate Binary(targets: seq<int>) { forall i | 0 <= i < |targets| :: targets[i] == 0 || targets[i] == 1 }

  // ---------------------------------------------------------------- the counts

  lemma GatherFront(codes: seq<nat>, idx: seq<nat>)
    requires idx != [] && forall i | i in idx :: i < |codes|
    ensures Gather(codes, idx)[..|idx|-1] == Gather(codes, idx[..|idx|-1])
    ensures Gather(codes, idx)[|idx|-1] == codes[idx[|idx|-1]]
  {
  }

  lemma {:induction false} CountOfGathered(codes: seq<nat>, c: nat, idx: seq<nat>)
    requires forall i | i in idx :: i < |codes|
    ensures CountCode(Gather(codes, idx), c) == |Select(codes, idx, c)|
  {
    if idx != [] {
      var n := |idx| - 1;
      assert idx == idx[..n] + [idx[n]];
      assert forall i | i in idx[..n] :: i in idx;
      CountOfGathered(codes, c, idx[..n]);
      GatherFront(codes, idx);
      SelectSnoc(codes, idx[..n], idx[n], c);
    }
  }

  lemma SelectionsCommute(groups: seq<int>, rels: seq<Label>, l: Label, c: nat)
    requires |groups| == |rels| && c < |FirstSeen(groups)|
    ensures Select(RowCodes(groups), Members(rels, l), c) == RowsWith(groups, rels, FirstSeen(groups)[c], l)
  {
    var codes, us := RowCodes(groups), FirstSeen(groups);
    var xs, ys := Select(codes, Members(rels, l), c), RowsWith(groups, rels, us[c], l);
    MembersAscending(rels, l);
    SelectAscending(codes, Members(rels, l), c);
    MembersAscending(groups, us[c]);
    SelectAscending(rels, Members(groups, us[c]), l);
    forall r: nat
      ensures r in xs <==> r in ys
    {
      if r < |groups| {
        assert us[codes[r]] == groups[r];
      }
    }
    LexUnique([], xs, ys);
  }

  /** `bincount(row_codes[binary == l], minlength=m)` counts each user's rows with label l. */
  lemma LabelCounts(groups: seq<int>, rels: seq<Label>, l: Label)
    requires |groups| == |rels|
    ensures Bincount(Gather(RowCodes(groups), Members(rels, l)), |FirstSeen(groups)|)
         == Lengths(RowBlocks(groups, rels, FirstSeen(groups), l))
  {
    var codes, us := RowCodes(groups), FirstSeen(groups);
    forall c | 0 <= c < |us|
      ensures CountCode(Gather(codes, Members(rels, l)), c) == |RowsWith(groups, rels, us[c], l)|
    {
      CountOfGathered(codes, c, Members(rels, l));
      SelectionsCommute(groups, rels, l, c);
    }
  }

  /** `np.logical_and(positive_counts > 0, negative_counts > 0)` */
  function EligibleMask(pos: seq<nat>, neg: seq<nat>): (mask: seq<bool>)
    requires |pos| == |neg|
    ensures |mask| == |pos|
    ensures forall c :: 0 <= c < |pos| ==> mask[c] == (pos[c] > 0 && neg[c] > 0)
  {
    seq(|pos|, c requires 0 <= c < |pos| => pos[c] > 0 && neg[c] > 0)
  }

  lemma {:induction false} EligibleCodesAreMixed(groups: seq<int>, rels: seq<Label>, us: seq<int>, mask: seq<bool>)
    requires |mask| == |us|
    requires forall c | 0 <= c < |us| :: mask[c] == MixedUser(groups, rels, us[c])
    ensures Gather(us, Flatnonzero(mask)) == MixedOnly(groups, rels, us)
  {
    if us != [] {
      var n := |us| - 1;
      EligibleCodesAreMixed(groups, rels, us[..n], mask[..n]);
      var idx := Flatnonzero(mask[..n]);
      assert Gather(us, idx) == Gather(us[..n], idx);
      if mask[n] {
        assert Gather(us, idx + [n]) == Gather(us, idx) + [us[n]];
      }
    }
  }

  // ---------------------------------------------------------------- the row order

  /** An index list that covers every place gathers every element. */
  lemma GatherAll(xs: seq<nat>, idx: seq<nat>)
    requires forall p: nat :: p in idx <==> p < |xs|
    ensures forall r: nat :: r in Gather(xs, idx) <==> r in xs
  {
    var ys := Gather(xs, idx);
    forall r: nat
      ensures r in ys <==> r in xs
    {
      if r in ys {
        var k :| 0 <= k < |ys| && ys[k] == r;
        assert idx[k] in idx;
      }
      if r in xs {
        var p: nat :| p < |xs| && xs[p] == r;
        assert p in idx;
        var k :| 0 <= k < |idx| && idx[k] == p;
        assert ys[k] == r;
      }
    }
  }

  lemma GatheredInOrder(rowKeys: seq<int>, xs: seq<nat>, keys: seq<int>)
    requires Ascending(xs) && |keys| == |xs|
    requires forall k | 0 <= k < |xs| :: keys[k] == Key(rowKeys, xs[k])
    ensures forall i | i in Argsort(keys) :: i < |xs|
    ensures var ys := Gather(xs, Argsort(keys)); forall i, j | 0 <= i < j < |ys| :: Lex(rowKeys, ys[i], ys[j])
  {
    var idx := Argsort(keys);
    ArgsortOrder(keys);
    var ys := Gather(xs, idx);
    forall i, j | 0 <= i < j < |ys|
      ensures Lex(rowKeys, ys[i], ys[j])
    {
      assert Lex(keys, idx[i], idx[j]);
      assert idx[i] in idx && idx[j] in idx;
    }
  }

  /** Reordering an ascending row list by a stable argsort of its keys lays it out in blocks. */
  lemma SortedIntoBlocks(rowKeys: seq<int>, xs: seq<nat>, keys: seq<int>, bs: seq<seq<nat>>)
    requires Ascending(xs) && |keys| == |xs|
    requires forall k | 0 <= k < |xs| :: keys[k] == Key(rowKeys, xs[k])
    requires forall g | 0 <= g < |bs| :: Ascending(bs[g]) && forall r | r in bs[g] :: Key(rowKeys, r) == g
    requires forall r: nat :: r in xs <==> r in Flatten(bs)
    ensures (forall i | i in Argsort(keys) :: i < |xs|) && Gather(xs, Argsort(keys)) == Flatten(bs)
  {
    var idx := Argsort(keys);
    ArgsortOrder(keys);
    GatheredInOrder(rowKeys, xs, keys);
    var ys := Gather(xs, idx);
    GatherAll(xs, idx);
    BlocksLexSorted(rowKeys, Range(|bs|), bs);
    LexUnique(rowKeys, ys, Flatten(bs));
  }

  /** `np.logical_and(binary == l, eligible[row_codes])` */
  function EligibleRows(codes: seq<nat>, rels: seq<Label>, eligible: seq<bool>, l: Label): (mask: seq<bool>)
    requires |codes| == |rels| && forall i | 0 <= i < |codes| :: codes[i] < |eligible|
    ensures |mask| == |codes|
    ensures forall i :: 0 <= i < |codes| ==> mask[i] == (rels[i] == l && eligible[codes[i]])
  {
    seq(|codes|, i requires 0 <= i < |codes| => rels[i] == l && eligible[codes[i]])
  }

  /** What the compact codes mean: the position of an eligible user, and -1 for the others. */
  ghost predicate CompactTable(compact: seq<int>, eligible: seq<bool>) {
    var codes := Flatnonzero(eligible);
    && |compact| == |eligible|
    && (forall g | 0 <= g < |codes| :: codes[g] < |compact| && compact[codes[g]] == g)
  }

  /** The rows listed for label l are exactly the rows of the eligible users' blocks. */
  lemma EligibleRowsAreBlockRows(groups: seq<int>, rels: seq<Label>, eligible: seq<bool>, l: Label, r: nat)
    requires |groups| == |rels| && |eligible| == |FirstSeen(groups)|
    requires l == 0 || l == 1
    ensures r in Flatnonzero(EligibleRows(RowCodes(groups), rels, eligible, l))
       <==> r in Flatten(RowBlocks(groups, rels, Gather(FirstSeen(groups), Flatnonzero(eligible)), l))
  {
    var codes, us := RowCodes(groups), FirstSeen(groups);
    var ec := Flatnonzero(eligible);
    var es := Gather(us, ec);
    var bs := RowBlocks(groups, rels, es, l);
    FlattenMembers(bs, r);
    if r in Flatnonzero(EligibleRows(codes, rels, eligible, l)) {
      assert codes[r] in ec;
      var g :| 0 <= g < |ec| && ec[g] == codes[r];
      assert es[g] == groups[r];
      assert r in bs[g];
    }
    if g :| 0 <= g < |bs| && r in bs[g] {
      assert ec[g] in ec;
      assert us[codes[r]] == us[ec[g]];
      assert codes[r] == ec[g];
    }
  }

  lemma BlockKeys(groups: seq<int>, rels: seq<Label>, eligible: seq<bool>, compact: seq<int>, l: Label, g: nat)
    requires |groups| == |rels| && |eligible| == |FirstSeen(groups)| && CompactTable(compact, eligible)
    requires g < |Flatnonzero(eligible)|
    ensures var es := Gather(FirstSeen(groups), Flatnonzero(eligible));
            && Ascending(RowsWith(groups, rels, es[g], l))
            && forall r | r in RowsWith(groups, rels, es[g], l) :: Key(Gather(compact, RowCodes(groups)), r) == g
  {
    var codes, us, ec := RowCodes(groups), FirstSeen(groups), Flatnonzero(eligible);
    var es := Gather(us, ec);
    MembersAscending(groups, es[g]);
    SelectAscending(rels, Members(groups, es[g]), l);
    assert ec[g] in ec;
    forall r | r in RowsWith(groups, rels, es[g], l)
      ensures Key(Gather(compact, codes), r) == g
    {
      assert us[codes[r]] == us[ec[g]];
      assert codes[r] == ec[g];
    }
  }

  /** The source's row list for one label: filter, then reorder by compact code. */
  lemma RowListIsBlocks(groups: seq<int>, rels: seq<Label>, eligible: seq<bool>, compact: seq<int>, l: Label)
    requires |groups| == |rels| && |eligible| == |FirstSeen(groups)| && CompactTable(compact, eligible)
    requires l == 0 || l == 1
    ensures var rows := Flatnonzero(EligibleRows(RowCodes(groups), rels, eligible, l));
            var keys := Gather(Gather(compact, RowCodes(groups)), rows);
            var es := Gather(FirstSeen(groups), Flatnonzero(eligible));
            && (forall i | i in Argsort(keys) :: i < |rows|)
            && Gather(rows, Argsort(keys)) == Flatten(RowBlocks(groups, rels, es, l))
  {
    var codes := RowCodes(groups);
    var rowKeys := Gather(compact, codes);
    var rows := Flatnonzero(EligibleRows(codes, rels, eligible, l));
    var es := Gather(FirstSeen(groups), Flatnonzero(eligible));
    var bs := RowBlocks(groups, rels, es, l);
    FlatnonzeroAscending(EligibleRows(codes, rels, eligible, l));
    forall g | 0 <= g < |bs|
      ensures Ascending(bs[g]) && forall r | r in bs[g] :: Key(rowKeys, r) == g
    {
      BlockKeys(groups, rels, eligible, compact, l, g);
    }
    forall r: nat
      ensures r in rows <==> r in Flatten(bs)
    {
      EligibleRowsAreBlockRows(groups, rels, eligible, l, r);
    }
    SortedIntoBlocks(rowKeys, rows, Gather(rowKeys, rows), bs);
  }

  // ---------------------------------------------------------------- the sampler

  datatype PairBatch = PairBatch(positives: seq<nat>, negatives: seq<nat>, groups: seq<nat>)

  /** The layout a sampler over these columns must hold: eligible users in first-seen order. */
  function SamplerLayout(groups: seq<int>, rels: seq<Label>): Layout {
    LayoutOf(groups, rels, MixedOnly(groups, rels, FirstSeen(groups)))
  }

  lemma SamplerUsers(groups: seq<int>, rels: seq<Label>)
    requires |groups| == |rels|
    ensures ListsMixedUsers(groups, rels, MixedOnly(groups, rels, FirstSeen(groups)))
  {
    MixedOnlyIsComplete(groups, rels, FirstSeen(groups));
  }

  /** The class comment made exact: positive-weighted sampling follows the metric, whatever the scores. */
  lemma SamplerFollowsGauc(groups: seq<int>, rels: seq<Label>, scores: seq<real>)
    requires |groups| == |rels| == |scores| && exists u :: MixedUser(groups, rels, u)
    ensures Expectation(SamplerLayout(groups, rels), scores) == GaucOf(RowsFrom(groups, rels, scores))
  {
    SamplerUsers(groups, rels);
    ExpectationIsGauc(groups, rels, MixedOnly(groups, rels, FirstSeen(groups)), scores);
  }

  /** `cumsum` of all but the last count, after a leading zero, gives where each block starts. */
  lemma {:induction false} OffsetsAreStarts<T>(bs: seq<seq<T>>)
    requires bs != []
    ensures [0] + Cumsum(Lengths(bs)[..|bs|-1]) == Starts(bs)
  {
    var n := |bs| - 1;
    assert Lengths(bs)[..n] == Lengths(bs[..n]);
    forall g | 0 <= g < |bs|
      ensures ([0] + Cumsum(Lengths(bs)[..n]))[g] == Start(bs, g)
    {
      if g > 0 {
        CumsumIsStart(bs[..n], g - 1);
        assert bs[..n][..g] == bs[..g];
      }
    }
  }

  class GAUCPairSampler {
    const positiveIndices: seq<nat>
    const negativeIndices: seq<nat>
    const cumulativePositiveCounts: seq<nat>
    const negativeOffsets: seq<nat>
    const negativeCounts: seq<nat>
    const eligibleUserCount: nat
    const eligiblePositiveCount: nat
    const storedRowIndexCount: nat
    const pairSpaceSize: nat

    /** The arrays are frozen after construction, so the layout is a function of the object. */
    ghost function Contents(): Layout {
      Layout(positiveIndices, negativeIndices, cumulativePositiveCounts, negativeOffsets, negativeCounts)
    }

    /** The object serves these columns. */
    ghost predicate Serves(groups: seq<int>, rels: seq<Label>) {
      var es := MixedOnly(groups, rels, FirstSeen(groups));
      && |groups| == |rels|
      && es != []
      && Contents() == SamplerLayout(groups, rels)
      && eligibleUserCount == |es|
      && eligiblePositiveCount == |positiveIndices|
      && storedRowIndexCount == |positiveIndices| + |negativeIndices|
      && pairSpaceSize == |LoggedPairs(groups, rels)|
    }

    constructor (positives: seq<nat>, negatives: seq<nat>, positiveCounts: seq<nat>, negativeCounts: seq<nat>)
      requires |positiveCounts| == |negativeCounts| > 0
      ensures Contents() == Layout(positives, negatives, Cumsum(positiveCounts),
                                        [0] + Cumsum(negativeCounts[..|negativeCounts|-1]), negativeCounts)
      ensures eligibleUserCount == |positiveCounts|
      ensures eligiblePositiveCount == Cumsum(positiveCounts)[|positiveCounts|-1]
      ensures storedRowIndexCount == |positives| + |negatives|
      ensures pairSpaceSize == PairSpaceSize(positiveCounts, negativeCounts)
    {
      var cumulative := Cumsum(positiveCounts);
      this.positiveIndices := positives;
      this.negativeIndices := negatives;
      this.cumulativePositiveCounts := cumulative;
      this.negativeOffsets := [0] + Cumsum(negativeCounts[..|negativeCounts|-1]);
      this.negativeCounts := negativeCounts;
      this.eligibleUserCount := |positiveCounts|;
      this.eligiblePositiveCount := cumulative[|cumulative|-1];
      this.storedRowIndexCount := |positives| + |negatives|;
      this.pairSpaceSize := PairSpaceSize(positiveCounts, negativeCounts);
    }

    /** The generator's range: a ticket below the positive count, an offset below the count of the ticket's group. */
    ghost predicate InRange(ticket: nat, offset: nat) {
      var g := SearchRight(cumulativePositiveCounts, ticket);
      ticket < eligiblePositiveCount && (g < |negativeCounts| ==> offset < negativeCounts[g])
    }

    /** Whatever the generator draws in its range, every index lies inside its array. */
    lemma RangeIsDraw(userColumn: seq<int>, rels: seq<Label>, ticket: nat, offset: nat)
      requires Serves(userColumn, rels) && InRange(ticket, offset)
      ensures ValidDraw(Contents(), ticket, offset)
    {
      var es := MixedOnly(userColumn, rels, FirstSeen(userColumn));
      BlockDraw(RowBlocks(userColumn, rels, es, 1), RowBlocks(userColumn, rels, es, 0), ticket, offset);
    }

    /** All of the generator's integers are in their ranges. */
    ghost predicate AllInRange(tickets: seq<nat>, offsets: seq<nat>) {
      |tickets| == |offsets| && forall k | 0 <= k < |tickets| :: InRange(tickets[k], offsets[k])
    }

    ghost predicate AllDraws(tickets: seq<nat>, offsets: seq<nat>) {
      |tickets| == |offsets| && forall k | 0 <= k < |tickets| :: ValidDraw(Contents(), tickets[k], offsets[k])
    }

    lemma RangesAreDraws(userColumn: seq<int>, rels: seq<Label>, tickets: seq<nat>, offsets: seq<nat>)
      requires Serves(userColumn, rels) && AllInRange(tickets, offsets)
      ensures AllDraws(tickets, offsets)
    {
      forall k | 0 <= k < |tickets|
        ensures ValidDraw(Contents(), tickets[k], offsets[k])
      {
        RangeIsDraw(userColumn, rels, tickets[k], offsets[k]);
      }
    }

    /** The batch holds, place by place, the rows and the group of each draw. */
    ghost predicate Holds(batch: PairBatch, tickets: seq<nat>, offsets: seq<nat>)
      requires AllDraws(tickets, offsets)
    {
      && |batch.positives| == |batch.negatives| == |batch.groups| == |tickets|
      && forall k | 0 <= k < |tickets| ::
           && Pair(batch.positives[k], batch.negatives[k]) == PairOf(Contents(), tickets[k], offsets[k])
           && batch.groups[k] == GroupOf(Contents(), tickets[k])
    }

    /** What a batch that holds these draws is on the columns. */
    lemma HeldRows(userColumn: seq<int>, rels: seq<Label>, batch: PairBatch, tickets: seq<nat>, offsets: seq<nat>,
                   k: nat)
      requires Serves(userColumn, rels) && AllDraws(tickets, offsets) && Holds(batch, tickets, offsets)
      requires k < |tickets|
      ensures |batch.positives| == |batch.negatives| == |batch.groups| == |tickets| == |offsets|
      ensures |userColumn| == |rels|
      ensures var p, n := batch.positives[k], batch.negatives[k];
              && p < |rels| && n < |rels| && userColumn[p] == userColumn[n] && rels[p] == 1 && rels[n] == 0
              && tickets[k] == |PositivesBefore(userColumn, rels, FirstRow(userColumn), p)|
              && offsets[k] == |NegativesBefore(userColumn, rels, n)|
              && batch.groups[k] == |MixedBefore(userColumn, rels, FirstRow(userColumn), userColumn[p])|
    {
      hide ListsMixedUsers, OrderedBy, MixedOnly, FirstSeen, RowBlocks, LayoutFrom, ValidDraw;
      var es := MixedOnly(userColumn, rels, FirstSeen(userColumn));
      SamplerUsers(userColumn, rels);
      FirstSeenOrdered(userColumn, rels);
      assert ValidDraw(LayoutOf(userColumn, rels, es), tickets[k], offsets[k]);
      DrawCounts(userColumn, rels, es, FirstRow(userColumn), tickets[k], offsets[k]);
    }

    /** The generator's ranges are exactly the counts of the pairs of a positive and a negative row of one user. */
    lemma RangesExactly(userColumn: seq<int>, rels: seq<Label>, ticket: nat, offset: nat)
      requires Serves(userColumn, rels) && |userColumn| == |rels|
      ensures InRange(ticket, offset) <==> CountsOfPair(userColumn, rels, FirstRow(userColumn), ticket, offset)
    {
      hide ListsMixedUsers, OrderedBy, MixedOnly, FirstSeen, RowBlocks, LayoutFrom, CountsOfPair;
      SamplerUsers(userColumn, rels);
      FirstSeenOrdered(userColumn, rels);
      DrawsExactly(userColumn, rels, MixedOnly(userColumn, rels, FirstSeen(userColumn)), FirstRow(userColumn), ticket,
                   offset);
      if InRange(ticket, offset) {
        RangeIsDraw(userColumn, rels, ticket, offset);
      }
    }

    /** Draws a batch; tickets and offsets stand for the generator's integers, which are in range and no more. */
    method Sample(ghost userColumn: seq<int>, ghost rels: seq<Label>, tickets: seq<nat>, offsets: seq<nat>)
      returns (r: Result<PairBatch, string>)
      requires Serves(userColumn, rels)
      requires |tickets| == |offsets| && forall k | 0 <= k < |tickets| :: InRange(tickets[k], offsets[k])
      ensures |userColumn| == |rels| && AllDraws(tickets, offsets)
      ensures r.Success? <==> 1 <= |tickets| <= 1_000_000
      ensures r.Success? ==> Holds(r.value, tickets, offsets)
      ensures r.Success? ==>
                var batch := r.value;
                && |batch.positives| == |batch.negatives| == |batch.groups| == |tickets|
                && forall k | 0 <= k < |tickets| ::
                     var p, n := batch.positives[k], batch.negatives[k];
                     && p < |rels| && n < |rels| && userColumn[p] == userColumn[n] && rels[p] == 1 && rels[n] == 0
                     && tickets[k] == |PositivesBefore(userColumn, rels, FirstRow(userColumn), p)|
                     && offsets[k] == |NegativesBefore(userColumn, rels, n)|
                     && batch.groups[k] == |MixedBefore(userColumn, rels, FirstRow(userColumn), userColumn[p])|
    {
      Aligned(userColumn, rels, tickets, offsets);
      hide AllInRange, AllDraws, Serves, Holds;
      RangesAreDraws(userColumn, rels, tickets, offsets);
      if !(1 <= |tickets| <= MAX_SAMPLED_PAIRS) {
        return Failure("pair_count must be an integer in [1, 1000000]");
      }
      var batch := SampleDraws(tickets, offsets);
      HeldRows(userColumn, rels, batch, tickets, offsets, 0);
      forall k | 0 <= k < |tickets|
        ensures var p, n := batch.positives[k], batch.negatives[k];
                && p < |rels| && n < |rels| && userColumn[p] == userColumn[n] && rels[p] == 1 && rels[n] == 0
                && tickets[k] == |PositivesBefore(userColumn, rels, FirstRow(userColumn), p)|
                && offsets[k] == |NegativesBefore(userColumn, rels, n)|
                && batch.groups[k] == |MixedBefore(userColumn, rels, FirstRow(userColumn), userColumn[p])|
      {
        HeldRows(userColumn, rels, batch, tickets, offsets, k);
      }
      return Success(batch);
    }

    lemma Aligned(userColumn: seq<int>, rels: seq<Label>, tickets: seq<nat>, offsets: seq<nat>)
      requires Serves(userColumn, rels) && AllInRange(tickets, offsets)
      ensures |userColumn| == |rels| && |tickets| == |offsets|
    {
    }

    method SampleDraws(tickets: seq<nat>, offsets: seq<nat>) returns (batch: PairBatch)
      requires AllDraws(tickets, offsets)
      ensures Holds(batch, tickets, offsets)
    {
      var positives, negatives, groups: seq<nat> := [], [], [];
      for k := 0 to |tickets|
        invariant |positives| == |negatives| == |groups| == k
        invariant forall m | 0 <= m < k ::
                    && Pair(positives[m], negatives[m]) == PairOf(Contents(), tickets[m], offsets[m])
                    && groups[m] == GroupOf(Contents(), tickets[m])
      {
        var pair, g := Draw(tickets[k], offsets[k]);
        positives := positives + [pair.positive];
        negatives := negatives + [pair.negative];
        groups := groups + [g];
      }
      batch := PairBatch(positives, negatives, groups);
    }

    /** The rows that one ticket and offset name. */
    method Draw(ticket: nat, offset: nat) returns (pair: Pair, g: nat)
      requires ValidDraw(Contents(), ticket, offset)
      ensures pair == PairOf(Contents(), ticket, offset) && g == GroupOf(Contents(), ticket)
    {
      g := SearchRight(cumulativePositiveCounts, ticket);
      var position := offset + negativeOffsets[g];
      pair := Pair(positiveIndices[ticket], negativeIndices[position]);
    }
  }

  /** One label's rows in the order of the compact user codes. */
  method OrderedRows(ghost groups: seq<int>, rels: seq<Label>, codes: seq<nat>, eligible: seq<bool>,
                     compact: seq<int>, l: Label)
    returns (rows: seq<nat>)
    requires |groups| == |rels| && |eligible| == |FirstSeen(groups)| && CompactTable(compact, eligible)
    requires codes == RowCodes(groups)
    ensures rows == Flatten(RowBlocks(groups, rels, Gather(FirstSeen(groups), Flatnonzero(eligible)), l))
  {
    RowListIsBlocks(groups, rels, eligible, compact, l);
    var listed := Flatnonzero(EligibleRows(codes, rels, eligible, l));
    rows := Gather(listed, Argsort(Gather(Gather(compact, codes), listed)));
  }

  /** The per-user counts and the mask of the mixed-label users, by first-seen code. */
  lemma EligibleUsers(groups: seq<int>, rels: seq<Label>, pos: seq<nat>, neg: seq<nat>)
    requires |groups| == |rels|
    requires pos == Lengths(RowBlocks(groups, rels, FirstSeen(groups), 1))
    requires neg == Lengths(RowBlocks(groups, rels, FirstSeen(groups), 0))
    ensures var ec, es := Flatnonzero(EligibleMask(pos, neg)), MixedOnly(groups, rels, FirstSeen(groups));
            && es == Gather(FirstSeen(groups), ec)
            && Gather(pos, ec) == Lengths(RowBlocks(groups, rels, es, 1))
            && Gather(neg, ec) == Lengths(RowBlocks(groups, rels, es, 0))
  {
    var us, mask := FirstSeen(groups), EligibleMask(pos, neg);
    EligibleCodesAreMixed(groups, rels, us, mask);
    GatherLengths(groups, rels, us, Flatnonzero(mask), 1);
    GatherLengths(groups, rels, us, Flatnonzero(mask), 0);
  }

  lemma GatherLengths(groups: seq<int>, rels: seq<Label>, us: seq<int>, ec: seq<nat>, l: Label)
    requires forall c | c in ec :: c < |us|
    ensures Gather(Lengths(RowBlocks(groups, rels, us, l)), ec) == Lengths(RowBlocks(groups, rels, Gather(us, ec), l))
  {
  }

  lemma CodesDistinct(mask: seq<bool>)
    ensures DistinctBelow(Flatnonzero(mask), |mask|)
  {
    FlatnonzeroAscending(mask);
    var ec := Flatnonzero(mask);
    assert forall k | 0 <= k < |ec| :: ec[k] in ec;
  }

  /** What the constructor's closing expressions come to. */
  lemma DerivedFields(groups: seq<int>, rels: seq<Label>, es: seq<int>)
    requires |groups| == |rels| && es == MixedOnly(groups, rels, FirstSeen(groups)) && es != []
    ensures var ps, ns := RowBlocks(groups, rels, es, 1), RowBlocks(groups, rels, es, 0);
            && Cumsum(Lengths(ps))[|ps|-1] == |Flatten(ps)|
            && [0] + Cumsum(Lengths(ns)[..|ns|-1]) == Starts(ns)
            && PairSpaceSize(Lengths(ps), Lengths(ns)) == |LoggedPairs(groups, rels)|
  {
    hide RowBlocks, Flatten, Cumsum, Starts, PairSpaceSize, LoggedPairs, FirstSeen, MixedOnly, ListsMixedUsers;
    var ps, ns := RowBlocks(groups, rels, es, 1), RowBlocks(groups, rels, es, 0);
    OffsetsAreStarts(ns);
    CumsumIsStart(ps, |ps| - 1);
    assert ps[..|ps|] == ps;
    SamplerUsers(groups, rels);
    PairSpaceCountsPairs(groups, rels, es);
  }

  /** The closing assignments of the constructor. */
  method Assemble(ghost groups: seq<int>, ghost rels: seq<Label>, positives: seq<nat>, negatives: seq<nat>,
                  positiveCounts: seq<nat>, negativeCounts: seq<nat>)
    returns (sampler: GAUCPairSampler)
    requires |groups| == |rels| && MixedOnly(groups, rels, FirstSeen(groups)) != []
    requires var es := MixedOnly(groups, rels, FirstSeen(groups));
             var ps, ns := RowBlocks(groups, rels, es, 1), RowBlocks(groups, rels, es, 0);
             && positives == Flatten(ps) && negatives == Flatten(ns)
             && positiveCounts == Lengths(ps) && negativeCounts == Lengths(ns)
    ensures sampler.Serves(groups, rels)
  {
    DerivedFields(groups, rels, MixedOnly(groups, rels, FirstSeen(groups)));
    sampler := new GAUCPairSampler(positives, negatives, positiveCounts, negativeCounts);
  }

  /** Per-user counts of one label. */
  method CountLabel(groups: seq<int>, rels: seq<Label>, codes: seq<nat>, count: nat, l: Label) returns (counts: seq<nat>)
    requires |groups| == |rels| && codes == RowCodes(groups) && count == |FirstSeen(groups)|
    ensures counts == Lengths(RowBlocks(groups, rels, FirstSeen(groups), l))
  {
    LabelCounts(groups, rels, l);
    counts := Bincount(Gather(codes, Members(rels, l)), count);
  }

  method CompactCodes(eligible: seq<bool>) returns (compact: seq<int>)
    ensures CompactTable(compact, eligible)
  {
    CodesDistinct(eligible);
    var scattered := Scatter(Flatnonzero(eligible), |eligible|, -1);
    compact := scattered[..];
  }

  method BuildFromLabels(groups: seq<int>, rels: seq<Label>) returns (r: Result<GAUCPairSampler, string>)
    requires |groups| == |rels|
    ensures r.Success? <==> MixedOnly(groups, rels, FirstSeen(groups)) != []
    ensures r.Success? ==> r.value.Serves(groups, rels)
  {
    var codes, count := FirstSeenCodes(groups);
    var positiveCounts := CountLabel(groups, rels, codes, count, 1);
    var negativeCounts := CountLabel(groups, rels, codes, count, 0);
    var eligible := EligibleMask(positiveCounts, negativeCounts);
    var eligibleCodes := Flatnonzero(eligible);
    EligibleUsers(groups, rels, positiveCounts, negativeCounts);
    if eligibleCodes == [] {
      return Failure("pair sampling requires at least one mixed-label user");
    }
    var compact := CompactCodes(eligible);
    var positives := OrderedRows(groups, rels, codes, eligible, compact, 1);
    var negatives := OrderedRows(groups, rels, codes, eligible, compact, 0);
    var sampler := Assemble(groups, rels, positives, negatives,
                            Gather(positiveCounts, eligibleCodes), Gather(negativeCounts, eligibleCodes));
    return Success(sampler);
  }

  /** The constructor: succeeds exactly on aligned binary targets with a mixed-label user. */
  method BuildSampler(groups: seq<int>, targets: seq<int>) returns (r: Result<GAUCPairSampler, string>)
    ensures r.Success?
       <==> && |targets| == |groups| && (forall i | 0 <= i < |targets| :: targets[i] == 0 || targets[i] == 1)
            && exists p, n | 0 <= p < |groups| && 0 <= n < |groups| ::
                 groups[p] == groups[n] && targets[p] == 1 && targets[n] == 0
    ensures r.Success? ==> Binary(targets) && r.value.Serves(groups, targets)
    ensures r.Success? ==>
              var s := r.value;
              && s.eligibleUserCount == |MixedUsers(groups, targets)|
              && s.eligiblePositiveCount == |MixedRows(groups, targets, 1)|
              && s.storedRowIndexCount == |MixedRows(groups, targets, 1)| + |MixedRows(groups, targets, 0)|
              && s.pairSpaceSize == |LoggedPairs(groups, targets)|
  {
    if groups == [] {
      return Failure("user groups must be a non-empty finite numeric vector");
    }
    if |targets| != |groups| {
      return Failure("targets must be a numeric vector aligned to user groups");
    }
    if exists i :: 0 <= i < |targets| && targets[i] != 0 && targets[i] != 1 {
      return Failure("targets must contain only binary 0 and 1 values");
    }
    SomeMixedUser(groups, targets);
    r := BuildFromLabels(groups, targets);
    SizesOfSampler(groups, targets);
  }

  lemma SomeMixedUser(groups: seq<int>, rels: seq<Label>)
    requires |groups| == |rels|
    ensures MixedOnly(groups, rels, FirstSeen(groups)) != []
       <==> exists p, n | 0 <= p < |groups| && 0 <= n < |groups| ::
              groups[p] == groups[n] && rels[p] == 1 && rels[n] == 0
  {
    hide MixedUser;
    SamplerUsers(groups, rels);
    var es := MixedOnly(groups, rels, FirstSeen(groups));
    if es != [] {
      assert es[0] in es;
      MixedExactly(groups, rels, es[0]);
    }
    if p, n :| 0 <= p < |groups| && 0 <= n < |groups| && groups[p] == groups[n] && rels[p] == 1 && rels[n] == 0 {
      MixedExactly(groups, rels, groups[p]);
      assert groups[p] in es;
    }
  }

  lemma SizesOfSampler(groups: seq<int>, rels: seq<Label>)
    requires |groups| == |rels|
    ensures |MixedOnly(groups, rels, FirstSeen(groups))| == |MixedUsers(groups, rels)|
    ensures |SamplerLayout(groups, rels).positives| == |MixedRows(groups, rels, 1)|
    ensures |SamplerLayout(groups, rels).negatives| == |MixedRows(groups, rels, 0)|
  {
    SamplerUsers(groups, rels);
    FirstSeenOrdered(groups, rels);
    LayoutSizes(groups, rels, MixedOnly(groups, rels, FirstSeen(groups)), FirstRow(groups));
  }
}
