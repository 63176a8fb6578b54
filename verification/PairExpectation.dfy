/** The distribution a uniform ticket and a uniform offset induce: its size, and why its expectation is GAUC. */
module PairExpectation {
  import opened Sums
  import opened Auc
  import opened Evaluate
  import opened Numpy
  import opened Blocks
  import opened PairLayout

  // ---------------------------------------------------------------- counting the pairs

  /** `sum(positive * negative for ...)` over the eligible users. */
  function PairSpaceSize(ps: seq<nat>, ns: seq<nat>): nat
    requires |ps| == |ns|
  {
    if ps == [] then 0
    else PairSpaceSize(ps[..|ps|-1], ns[..|ns|-1]) + ps[|ps|-1] * ns[|ns|-1]
  }

  ghost function CrossWithOne(x: nat, ys: seq<nat>): (s: set<Pair>)
    ensures forall p :: p in s <==> p.positive == x && p.negative in ys
  {
    if ys == [] then {} else {Pair(x, ys[0])} + CrossWithOne(x, ys[1..])
  }

  ghost function Cross(xs: seq<nat>, ys: seq<nat>): (s: set<Pair>)
    ensures forall p :: p in s <==> p.positive in xs && p.negative in ys
  {
    if xs == [] then {} else CrossWithOne(xs[0], ys) + Cross(xs[1..], ys)
  }

  lemma {:induction false} CrossWithOneSize(x: nat, ys: seq<nat>)
    requires NoDuplicates(ys)
    ensures |CrossWithOne(x, ys)| == |ys|
  {
    if ys != [] {
      assert Pair(x, ys[0]) !in CrossWithOne(x, ys[1..]);
      CrossWithOneSize(x, ys[1..]);
    }
  }

  lemma {:induction false} CrossSize(xs: seq<nat>, ys: seq<nat>)
    requires NoDuplicates(xs) && NoDuplicates(ys)
    ensures |Cross(xs, ys)| == |xs| * |ys|
  {
    if xs != [] {
      var head, tail := CrossWithOne(xs[0], ys), Cross(xs[1..], ys);
      CrossSize(xs[1..], ys);
      CrossWithOneSize(xs[0], ys);
      assert head !! tail by {
        assert xs[0] !in xs[1..];
      }
      assert |head + tail| == |head| + |tail|;
      MulStep(|xs|, |ys|);
    }
  }

  lemma MulStep(a: nat, b: nat)
    requires a > 0
    ensures a * b == (a - 1) * b + b
  {
  }

  /** All pairs of the first blocks. */
  ghost function PairsOf(ps: seq<seq<nat>>, ns: seq<seq<nat>>): (s: set<Pair>)
    requires |ps| == |ns|
  {
    if ps == [] then {} else PairsOf(ps[..|ps|-1], ns[..|ns|-1]) + Cross(ps[|ps|-1], ns[|ns|-1])
  }

  lemma {:induction false} PairsOfMembers(ps: seq<seq<nat>>, ns: seq<seq<nat>>, pair: Pair)
    requires |ps| == |ns|
    ensures pair in PairsOf(ps, ns)
       <==> exists g :: 0 <= g < |ps| && pair.positive in ps[g] && pair.negative in ns[g]
  {
    if ps != [] {
      var n := |ps| - 1;
      PairsOfMembers(ps[..n], ns[..n], pair);
      if pair in PairsOf(ps[..n], ns[..n]) {
        var g :| 0 <= g < n && pair.positive in ps[..n][g] && pair.negative in ns[..n][g];
        assert pair.positive in ps[g] && pair.negative in ns[g];
      }
      if g :| 0 <= g < |ps| && pair.positive in ps[g] && pair.negative in ns[g] {
        assert g < n ==> pair.positive in ps[..n][g] && pair.negative in ns[..n][g];
      }
    }
  }

  lemma {:induction false} PairsOfSize(ps: seq<seq<nat>>, ns: seq<seq<nat>>)
    requires |ps| == |ns|
    requires forall g | 0 <= g < |ps| :: NoDuplicates(ps[g]) && NoDuplicates(ns[g])
    requires forall g, h, x | 0 <= g < h < |ps| && x in ps[g] :: x !in ps[h]
    ensures |PairsOf(ps, ns)| == PairSpaceSize(Lengths(ps), Lengths(ns))
  {
    if ps != [] {
      var n := |ps| - 1;
      PairsOfSize(ps[..n], ns[..n]);
      CrossSize(ps[n], ns[n]);
      var front, last := PairsOf(ps[..n], ns[..n]), Cross(ps[n], ns[n]);
      forall pair | pair in front
        ensures pair !in last
      {
        PairsOfMembers(ps[..n], ns[..n], pair);
      }
      assert front !! last;
      assert Lengths(ps)[..n] == Lengths(ps[..n]) && Lengths(ns)[..n] == Lengths(ns[..n]);
    }
  }

  ghost function LoggedPairs(groups: seq<int>, rels: seq<int>): (s: set<Pair>)
    ensures forall pair :: pair in s <==> LoggedPair(groups, rels, pair)
    ensures |groups| == |rels| ==>
              forall pair ::
                pair in s
                <==> && pair.positive < |groups| && pair.negative < |groups|
                     && groups[pair.positive] == groups[pair.negative]
                     && rels[pair.positive] == 1 && rels[pair.negative] == 0
  {
    var s := set i, j | 0 <= i < |groups| && 0 <= j < |groups| && LoggedPair(groups, rels, Pair(i, j)) :: Pair(i, j);
    assert forall pair :: LoggedPair(groups, rels, pair) ==> pair == Pair(pair.positive, pair.negative);
    s
  }

  /** The announced size is the number of logged same-user pairs. */
  lemma PairSpaceCountsPairs(groups: seq<int>, rels: seq<int>, us: seq<int>)
    requires ListsMixedUsers(groups, rels, us)
    ensures var ps, ns := RowBlocks(groups, rels, us, 1), RowBlocks(groups, rels, us, 0);
            PairSpaceSize(Lengths(ps), Lengths(ns)) == |LoggedPairs(groups, rels)|
  {
    var ps, ns := RowBlocks(groups, rels, us, 1), RowBlocks(groups, rels, us, 0);
    forall g | 0 <= g < |us|
      ensures NoDuplicates(ps[g]) && NoDuplicates(ns[g])
    {
      NoRowTwice(groups, rels, us[g], 1);
      NoRowTwice(groups, rels, us[g], 0);
    }
    PairsOfSize(ps, ns);
    forall pair
      ensures pair in PairsOf(ps, ns) <==> pair in LoggedPairs(groups, rels)
    {
      PairsOfMembers(ps, ns, pair);
      if LoggedPair(groups, rels, pair) {
        var u := groups[pair.positive];
        assert pair.positive in RowsWith(groups, rels, u, 1) && pair.negative in RowsWith(groups, rels, u, 0);
        assert MixedUser(groups, rels, u);
        var g :| 0 <= g < |us| && us[g] == u;
        assert pair.positive in ps[g] && pair.negative in ns[g];
      }
    }
    assert PairsOf(ps, ns) == LoggedPairs(groups, rels);
  }

  lemma NoRowTwice(groups: seq<int>, rels: seq<int>, u: int, l: int)
    ensures NoDuplicates(RowsWith(groups, rels, u, l))
  {
    MembersAscending(groups, u);
    SelectAscending(rels, Members(groups, u), l);
  }

  // ---------------------------------------------------------------- the expectation

  function ScoreAt(scores: seq<real>, r: nat): real { if r < |scores| then scores[r] else 0.0 }

  function ScoresAt(scores: seq<real>, idx: seq<nat>): (xs: seq<real>)
    ensures |xs| == |idx|
    ensures forall k :: 0 <= k < |idx| ==> xs[k] == ScoreAt(scores, idx[k])
  {
    seq(|idx|, k requires 0 <= k < |idx| => ScoreAt(scores, idx[k]))
  }

  /** Outcome of one draw: does the positive row outscore the negative row? */
  function Outcome(l: Layout, scores: seq<real>, t: nat, o: nat): real {
    if ValidDraw(l, t, o) then
      Beats(ScoreAt(scores, PairOf(l, t, o).positive), ScoreAt(scores, PairOf(l, t, o).negative))
    else 0.0
  }

  function NegativeCount(l: Layout, t: nat): nat {
    if GroupOf(l, t) < |l.negativeCounts| then l.negativeCounts[GroupOf(l, t)] else 0
  }

  function Itself(x: real): real { x }

  function Total(xs: seq<real>): real { SumOver(xs, Itself) }

  /** The outcomes of ticket t under every offset. */
  function Outcomes(l: Layout, scores: seq<real>, t: nat): seq<real> {
    seq(NegativeCount(l, t), o requires 0 <= o => Outcome(l, scores, t, o))
  }

  /** Mean outcome of ticket t over a uniform offset. */
  function TicketMean(l: Layout, scores: seq<real>, t: nat): real {
    Ratio(Total(Outcomes(l, scores, t)), NegativeCount(l, t))
  }

  function TicketMeans(l: Layout, scores: seq<real>): seq<real> {
    seq(|l.positives|, t requires 0 <= t => TicketMean(l, scores, t))
  }

  /** Expected outcome of a uniform ticket followed by a uniform offset. */
  function Expectation(l: Layout, scores: seq<real>): real {
    Ratio(Total(TicketMeans(l, scores)), |l.positives|)
  }

  lemma {:induction false} TotalWins(s: real, xs: seq<real>, outs: seq<real>)
    requires |outs| == |xs|
    requires forall k | 0 <= k < |xs| :: outs[k] == Beats(s, xs[k])
    ensures Total(outs) == WinsAgainst(s, xs)
  {
    if xs != [] {
      TotalWins(s, xs[1..], outs[1..]);
    }
  }

  lemma RatioAdd(a: real, b: real, n: nat)
    ensures Ratio(a, n) + Ratio(b, n) == Ratio(a + b, n)
  {
    if n > 0 {
      var d := n as real;
      assert (a + b) / d == a / d + b / d;
    }
  }

  /** Averaging the wins of each score averages the wins of all. */
  lemma {:induction false} TotalCross(xs: seq<real>, ys: seq<real>, n: nat, means: seq<real>)
    requires |means| == |xs|
    requires forall k | 0 <= k < |xs| :: means[k] == Ratio(WinsAgainst(xs[k], ys), n)
    ensures Total(means) == Ratio(CrossWins(xs, ys), n)
  {
    if xs == [] {
      RatioZero(n);
    } else {
      TotalCross(xs[1..], ys, n, means[1..]);
      RatioAdd(WinsAgainst(xs[0], ys), CrossWins(xs[1..], ys), n);
    }
  }

  lemma RatioZero(n: nat)
    ensures Ratio(0.0, n) == 0.0
  {
  }

  /** The offsets of a ticket run through the negatives of its own block. */
  lemma TicketMeanIsWins(ps: seq<seq<nat>>, ns: seq<seq<nat>>, scores: seq<real>, g: nat, i: nat)
    requires |ps| == |ns| && g < |ps| && i < |ps[g]|
    ensures TicketMean(LayoutFrom(ps, ns), scores, Start(ps, g) + i)
         == Ratio(WinsAgainst(ScoreAt(scores, ps[g][i]), ScoresAt(scores, ns[g])), |ns[g]|)
  {
    var l, t := LayoutFrom(ps, ns), Start(ps, g) + i;
    TicketOfBlock(ps, ns, g, i);
    var outs := Outcomes(l, scores, t);
    forall o: nat | o < |ns[g]|
      ensures outs[o] == Beats(ScoreAt(scores, ps[g][i]), ScoresAt(scores, ns[g])[o])
    {
      DrawOfBlock(ps, ns, g, i, o);
    }
    TotalWins(ScoreAt(scores, ps[g][i]), ScoresAt(scores, ns[g]), outs);
  }

  /** Mean wins of block g's positives over its negatives. */
  function BlockShare(ps: seq<seq<nat>>, ns: seq<seq<nat>>, scores: seq<real>, g: nat): real
    requires |ps| == |ns| && g < |ps|
  {
    Ratio(CrossWins(ScoresAt(scores, ps[g]), ScoresAt(scores, ns[g])), |ns[g]|)
  }

  /** The ticket means of one block. */
  function BlockMeans(ps: seq<seq<nat>>, ns: seq<seq<nat>>, scores: seq<real>, g: nat): (ms: seq<real>)
    requires |ps| == |ns| && g < |ps|
    ensures |ms| == |ps[g]|
  {
    seq(|ps[g]|, i requires 0 <= i < |ps[g]| =>
      Ratio(WinsAgainst(ScoreAt(scores, ps[g][i]), ScoresAt(scores, ns[g])), |ns[g]|))
  }

  function AllBlockMeans(ps: seq<seq<nat>>, ns: seq<seq<nat>>, scores: seq<real>): (bs: seq<seq<real>>)
    requires |ps| == |ns|
    ensures |bs| == |ps|
    ensures forall g :: 0 <= g < |ps| ==> bs[g] == BlockMeans(ps, ns, scores, g)
  {
    seq(|ps|, g requires 0 <= g < |ps| => BlockMeans(ps, ns, scores, g))
  }

  lemma {:induction false} SameStarts<T, U>(bs: seq<seq<T>>, cs: seq<seq<U>>, g: nat)
    requires |bs| == |cs| && forall h | 0 <= h < |bs| :: |bs[h]| == |cs[h]|
    requires g <= |bs|
    ensures Start(bs, g) == Start(cs, g)
  {
    if g > 0 {
      StartStep(bs, g - 1);
      StartStep(cs, g - 1);
      SameStarts(bs, cs, g - 1);
    }
  }

  lemma MeansByBlocks(ps: seq<seq<nat>>, ns: seq<seq<nat>>, scores: seq<real>)
    requires |ps| == |ns|
    ensures TicketMeans(LayoutFrom(ps, ns), scores) == Flatten(AllBlockMeans(ps, ns, scores))
  {
    var means, bs := TicketMeans(LayoutFrom(ps, ns), scores), AllBlockMeans(ps, ns, scores);
    SameStarts(ps, bs, |ps|);
    assert ps[..|ps|] == ps && bs[..|bs|] == bs;
    forall t: nat | t < |means|
      ensures means[t] == Flatten(bs)[t]
    {
      var g, i := BlockOfTicket(ps, ns, t);
      TicketMeanIsWins(ps, ns, scores, g, i);
      SameStarts(ps, bs, g);
      FlattenAt(bs, g, i);
    }
  }

  function BlockShares(ps: seq<seq<nat>>, ns: seq<seq<nat>>, scores: seq<real>, m: nat): real
    requires |ps| == |ns| && m <= |ps|
  {
    if m == 0 then 0.0 else BlockShares(ps, ns, scores, m - 1) + BlockShare(ps, ns, scores, m - 1)
  }

  lemma {:induction false} SumByBlocks(ps: seq<seq<nat>>, ns: seq<seq<nat>>, scores: seq<real>, m: nat)
    requires |ps| == |ns| && m <= |ps|
    ensures Total(Flatten(AllBlockMeans(ps, ns, scores)[..m])) == BlockShares(ps, ns, scores, m)
  {
    if m > 0 {
      var bs := AllBlockMeans(ps, ns, scores);
      SumByBlocks(ps, ns, scores, m - 1);
      assert bs[..m][..m-1] == bs[..m-1];
      SumConcat(Flatten(bs[..m-1]), bs[m-1], Itself);
      TotalCross(ScoresAt(scores, ps[m-1]), ScoresAt(scores, ns[m-1]), |ns[m-1]|, bs[m-1]);
    }
  }

  lemma TicketSumByBlocks(ps: seq<seq<nat>>, ns: seq<seq<nat>>, scores: seq<real>)
    requires |ps| == |ns|
    ensures Total(TicketMeans(LayoutFrom(ps, ns), scores)) == BlockShares(ps, ns, scores, |ps|)
  {
    MeansByBlocks(ps, ns, scores);
    SumByBlocks(ps, ns, scores, |ps|);
    var bs := AllBlockMeans(ps, ns, scores);
    assert bs[..|ps|] == bs;
  }

  // ---------------------------------------------------------------- back to the users of `evaluate`

  /** The three columns as the rows that `evaluate` sees. */
  function RowsFrom(groups: seq<int>, rels: seq<Label>, scores: seq<real>): (rows: seq<Row>)
    requires |groups| == |rels| == |scores|
    ensures |rows| == |groups|
  {
    seq(|groups|, i requires 0 <= i < |groups| => Row(groups[i], rels[i], scores[i]))
  }

  lemma {:induction false} SelectSnoc(rels: seq<int>, idx: seq<nat>, r: nat, l: int)
    ensures Select(rels, idx + [r], l)
         == if Key(rels, r) == l then Select(rels, idx, l) + [r] else Select(rels, idx, l)
  {
    if idx != [] {
      assert (idx + [r])[1..] == idx[1..] + [r];
      SelectSnoc(rels, idx[1..], r, l);
    } else {
      assert [r][1..] == [];
    }
  }

  lemma {:induction false} SelectPrefix(rels: seq<int>, n: nat, idx: seq<nat>, l: int)
    requires n <= |rels| && forall i | i in idx :: i < n
    ensures Select(rels, idx, l) == Select(rels[..n], idx, l)
  {
    if idx != [] {
      assert idx[0] in idx;
      assert forall i | i in idx[1..] :: i in idx;
      SelectPrefix(rels, n, idx[1..], l);
    }
  }

  lemma ScoresPrefix(scores: seq<real>, n: nat, sel: seq<nat>)
    requires n <= |scores| && forall i | i in sel :: i < n
    ensures ScoresAt(scores[..n], sel) == ScoresAt(scores, sel)
  {
    forall k | 0 <= k < |sel|
      ensures ScoreAt(scores[..n], sel[k]) == ScoreAt(scores, sel[k])
    {
      assert sel[k] in sel;
    }
  }

  /** One more row adds its score on both sides, or on neither. */
  lemma IndexedScoresStep(groups: seq<int>, rels: seq<Label>, scores: seq<real>, u: int, l: Label)
    requires |groups| == |rels| == |scores| && groups != []
    ensures var n := |groups| - 1;
            ScoresAt(scores, RowsWith(groups, rels, u, l))
            == ScoresAt(scores[..n], RowsWith(groups[..n], rels[..n], u, l))
               + if groups[n] == u && rels[n] == l then [scores[n]] else []
  {
    var n := |groups| - 1;
    var idx := Members(groups[..n], u);
    SelectPrefix(rels, n, idx, l);
    var sel := Select(rels, idx, l);
    ScoresPrefix(scores, n, sel);
    if groups[n] == u {
      SelectSnoc(rels, idx, n, l);
      assert ScoresAt(scores, sel + [n]) == ScoresAt(scores, sel) + [scores[n]];
    }
  }

  lemma RowScoresStep(rows: seq<Row>, u: int, l: Label)
    requires rows != []
    ensures var n := |rows| - 1;
            ScoresOf(RowsOf(rows, u), l)
            == ScoresOf(RowsOf(rows[..n], u), l)
               + if rows[n].user == u && rows[n].rel == l then [rows[n].score] else []
  {
    var n := |rows| - 1;
    if rows[n].user == u {
      ScoresConcat(RowsOf(rows[..n], u), [Scored(rows[n].score, rows[n].rel)], l);
    }
  }

  /** A user's scores with one label, by row index and by row. */
  lemma {:induction false} IndexedScores(groups: seq<int>, rels: seq<Label>, scores: seq<real>, u: int, l: Label)
    requires |groups| == |rels| == |scores|
    ensures ScoresOf(RowsOf(RowsFrom(groups, rels, scores), u), l) == ScoresAt(scores, RowsWith(groups, rels, u, l))
  {
    var rows := RowsFrom(groups, rels, scores);
    if rows != [] {
      var n := |rows| - 1;
      assert rows[..n] == RowsFrom(groups[..n], rels[..n], scores[..n]);
      IndexedScores(groups[..n], rels[..n], scores[..n], u, l);
      IndexedScoresStep(groups, rels, scores, u, l);
      RowScoresStep(rows, u, l);
    }
  }

  lemma WeightedRatio(wins: real, npos: nat, nneg: nat)
    requires npos > 0 && nneg > 0
    ensures Weighted(npos, Ratio(wins, npos * nneg)) == Ratio(wins, nneg)
  {
    var p, n := npos as real, nneg as real;
    assert (npos * nneg) as real == p * n;
    assert p * (wins / (p * n)) == wins / n;
  }

  /** An eligible user's GAUC contribution is its block's share. */
  lemma ShareOfUser(groups: seq<int>, rels: seq<Label>, scores: seq<real>, u: int)
    requires |groups| == |rels| == |scores|
    ensures var rows, p, n := RowsFrom(groups, rels, scores), RowsWith(groups, rels, u, 1), RowsWith(groups, rels, u, 0);
            && (Mixed(RowsOf(rows, u)) <==> MixedUser(groups, rels, u))
            && NPos(RowsOf(rows, u)) == |p|
            && AucShare(RowsOf(rows, u)) == (if MixedUser(groups, rels, u) then
                 Ratio(CrossWins(ScoresAt(scores, p), ScoresAt(scores, n)), |n|) else 0.0)
  {
    var mine := RowsOf(RowsFrom(groups, rels, scores), u);
    IndexedScores(groups, rels, scores, u, 1);
    IndexedScores(groups, rels, scores, u, 0);
    LabelsPartition(mine);
    if MixedUser(groups, rels, u) {
      WeightedRatio(CrossWins(ScoresOf(mine, 1), ScoresOf(mine, 0)), |ScoresOf(mine, 1)|, |ScoresOf(mine, 0)|);
    }
  }

  lemma ShareOfBlock(groups: seq<int>, rels: seq<Label>, us: seq<int>, scores: seq<real>, g: nat)
    requires |groups| == |rels| == |scores| && g < |us| && MixedUser(groups, rels, us[g])
    ensures BlockShare(RowBlocks(groups, rels, us, 1), RowBlocks(groups, rels, us, 0), scores, g)
         == AucShares(RowsFrom(groups, rels, scores))(us[g])
  {
    hide MixedUser, RowsFrom, RowsWith, CrossWins, AucShare, Ratio;
    ShareOfUser(groups, rels, scores, us[g]);
  }

  lemma {:induction false} BlockSharesAreUserShares(groups: seq<int>, rels: seq<Label>, us: seq<int>, scores: seq<real>, m: nat)
    requires |groups| == |rels| == |scores| && m <= |us|
    requires forall u | u in us :: MixedUser(groups, rels, u)
    ensures BlockShares(RowBlocks(groups, rels, us, 1), RowBlocks(groups, rels, us, 0), scores, m)
         == SumOver(us[..m], AucShares(RowsFrom(groups, rels, scores)))
  {
    hide RowBlocks, AucShares, BlockShare, RowsFrom, MixedUser;
    var rows := RowsFrom(groups, rels, scores);
    if m > 0 {
      BlockSharesAreUserShares(groups, rels, us, scores, m - 1);
      assert us[..m] == us[..m-1] + [us[m-1]];
      SumSnoc(us[..m-1], us[m-1], AucShares(rows));
      assert us[m-1] in us;
      ShareOfBlock(groups, rels, us, scores, m - 1);
    }
  }

  lemma WeightOfBlock(groups: seq<int>, rels: seq<Label>, us: seq<int>, scores: seq<real>, g: nat)
    requires |groups| == |rels| == |scores| && g < |us| && MixedUser(groups, rels, us[g])
    ensures |RowBlocks(groups, rels, us, 1)[g]| as real == WeightShares(RowsFrom(groups, rels, scores))(us[g])
  {
    hide MixedUser, RowsFrom, RowsWith, CrossWins, AucShare, Ratio;
    ShareOfUser(groups, rels, scores, us[g]);
  }

  lemma {:induction false} StartsAreUserWeights(groups: seq<int>, rels: seq<Label>, us: seq<int>, scores: seq<real>, m: nat)
    requires |groups| == |rels| == |scores| && m <= |us|
    requires forall u | u in us :: MixedUser(groups, rels, u)
    ensures Start(RowBlocks(groups, rels, us, 1), m) as real
         == SumOver(us[..m], WeightShares(RowsFrom(groups, rels, scores)))
  {
    hide RowBlocks, WeightShares, RowsFrom, MixedUser, Start;
    var rows := RowsFrom(groups, rels, scores);
    if m > 0 {
      StartsAreUserWeights(groups, rels, us, scores, m - 1);
      assert us[..m] == us[..m-1] + [us[m-1]];
      SumSnoc(us[..m-1], us[m-1], WeightShares(rows));
      assert us[m-1] in us;
      WeightOfBlock(groups, rels, us, scores, m - 1);
      StartStep(RowBlocks(groups, rels, us, 1), m - 1);
    } else {
      StartOfNone(RowBlocks(groups, rels, us, 1));
    }
  }

  lemma StartOfNone(bs: seq<seq<nat>>)
    ensures Start(bs, 0) == 0
  {
  }

  function IsMixed(rows: seq<Row>): int -> bool { (u: int) => Mixed(RowsOf(rows, u)) }

  /** `evaluate` sums over all users, the samplers over the eligible ones: the others contribute nothing. */
  lemma EligibleUsersSuffice(groups: seq<int>, rels: seq<Label>, us: seq<int>, scores: seq<real>)
    requires ListsMixedUsers(groups, rels, us) && |groups| == |scores|
    ensures var rows := RowsFrom(groups, rels, scores);
            && SumOver(us, AucShares(rows)) == SumOver(Users(rows), AucShares(rows))
            && SumOver(us, WeightShares(rows)) == SumOver(Users(rows), WeightShares(rows))
  {
    var rows := RowsFrom(groups, rels, scores);
    var all, p := Users(rows), IsMixed(rows);
    var mixed := Filter(p, all);
    FilterNoDuplicates(p, all);
    forall u
      ensures u in mixed <==> u in us
    {
      ShareOfUser(groups, rels, scores, u);
      assert u in us <==> MixedUser(groups, rels, u);
      assert Mixed(RowsOf(rows, u)) ==> RowsOf(rows, u) != [];
      assert p(u) <==> Mixed(RowsOf(rows, u));
    }
    SameSetSameMultiset(mixed, us);
    DropZeros(all, p, AucShares(rows));
    DropZeros(all, p, WeightShares(rows));
    SumPermute(mixed, us, AucShares(rows));
    SumPermute(mixed, us, WeightShares(rows));
  }

  lemma {:induction false} DropZeros<T>(xs: seq<T>, p: T -> bool, f: T -> real)
    requires forall x | x in xs && !p(x) :: f(x) == 0.0
    ensures SumOver(Filter(p, xs), f) == SumOver(xs, f)
  {
    if xs != [] {
      assert xs[0] in xs;
      assert forall x | x in xs[1..] :: x in xs;
      DropZeros(xs[1..], p, f);
      assert p(xs[0]) ==> Filter(p, xs)[1..] == Filter(p, xs[1..]);
    }
  }

  /** The sampler's law is the metric's law: over a uniform ticket and a uniform offset, the expected outcome
      "positive beats negative, ties count half" is exactly GAUC, for every score vector. */
  lemma ExpectationIsGauc(groups: seq<int>, rels: seq<Label>, us: seq<int>, scores: seq<real>)
    requires ListsMixedUsers(groups, rels, us) && |groups| == |scores|
    requires us != []
    ensures Expectation(LayoutOf(groups, rels, us), scores) == GaucOf(RowsFrom(groups, rels, scores))
    ensures forall i | 0 <= i < |groups| :: RowsFrom(groups, rels, scores)[i] == Row(groups[i], rels[i], scores[i])
  {
    var ps, ns := RowBlocks(groups, rels, us, 1), RowBlocks(groups, rels, us, 0);
    var rows := RowsFrom(groups, rels, scores);
    TicketSumByBlocks(ps, ns, scores);
    BlockSharesAreUserShares(groups, rels, us, scores, |us|);
    StartsAreUserWeights(groups, rels, us, scores, |us|);
    assert us[..|us|] == us && ps[..|ps|] == ps;
    EligibleUsersSuffice(groups, rels, us, scores);
    TicketsExist(groups, rels, us);
  }

  lemma TicketsExist(groups: seq<int>, rels: seq<Label>, us: seq<int>)
    requires us != [] && MixedUser(groups, rels, us[0])
    ensures |LayoutOf(groups, rels, us).positives| > 0
  {
    TicketOfBlock(RowBlocks(groups, rels, us, 1), RowBlocks(groups, rels, us, 0), 0, 0);
  }
}
