/** `auc` of kuairand-starter-kit/evaluate.py: the midrank loop and what it measures. */
module Auc {
  import opened Sums
  import opened Sorting

  /** A relevance label: 0 or 1. */
  type Label = n: nat | n <= 1

  datatype Scored = Scored(score: real, rel: Label)

  /** Scores of the rows that carry one label, in row order. */
  function ScoresOf(rows: seq<Scored>, l: Label): seq<real> {
    if rows == [] then []
    else if rows[0].rel == l then [rows[0].score] + ScoresOf(rows[1..], l)
    else ScoresOf(rows[1..], l)
  }

  function AllScores(rows: seq<Scored>): (s: seq<real>)
    ensures |s| == |rows|
    ensures forall i :: 0 <= i < |rows| ==> s[i] == rows[i].score
  {
    if rows == [] then [] else [rows[0].score] + AllScores(rows[1..])
  }

  /** Outcome of one comparison: a win counts one, a tie one half. */
  function Beats(a: real, b: real): real {
    if a > b then 1.0 else if a == b then 0.5 else 0.0
  }

  /** Wins of one score over a list of scores. */
  function WinsAgainst(s: real, xs: seq<real>): real {
    if xs == [] then 0.0 else Beats(s, xs[0]) + WinsAgainst(s, xs[1..])
  }

  /** Wins of every score on the left over every score on the right. */
  function CrossWins(xs: seq<real>, ys: seq<real>): real {
    if xs == [] then 0.0 else WinsAgainst(xs[0], ys) + CrossWins(xs[1..], ys)
  }

  /** A quotient by a count; only its laws below are used. */
  function Ratio(a: real, n: nat): real {
    if n == 0 then 0.0 else a / n as real
  }

  /** The definition: the fraction of positive/negative pairs ranked correctly, ties half. */
  function AucOf(rows: seq<Scored>): real {
    var ps, ns := ScoresOf(rows, 1), ScoresOf(rows, 0);
    if |ps| == 0 || |ns| == 0 then 0.5 else Ratio(CrossWins(ps, ns), |ps| * |ns|)
  }

  function Zip(scores: seq<real>, labels: seq<Label>): seq<Scored> {
    if scores == [] || labels == [] then []
    else [Scored(scores[0], labels[0])] + Zip(scores[1..], labels[1..])
  }

  /** Lexicographic order of the tuples `(score, label)`. */
  function TupleOrder(): (Scored, Scored) -> bool {
    (x: Scored, y: Scored) => x.score < y.score || (x.score == y.score && x.rel <= y.rel)
  }

  // ---------------------------------------------------------------- algebra of wins

  lemma {:induction false} WinsConcat(s: real, xs: seq<real>, ys: seq<real>)
    ensures WinsAgainst(s, xs + ys) == WinsAgainst(s, xs) + WinsAgainst(s, ys)
  {
    if xs == [] {
      assert xs + ys == ys;
    } else {
      assert (xs + ys)[1..] == xs[1..] + ys;
      WinsConcat(s, xs[1..], ys);
    }
  }

  lemma {:induction false} CrossConcatLeft(xs: seq<real>, xs': seq<real>, ys: seq<real>)
    ensures CrossWins(xs + xs', ys) == CrossWins(xs, ys) + CrossWins(xs', ys)
  {
    if xs == [] {
      assert xs + xs' == xs';
    } else {
      assert (xs + xs')[1..] == xs[1..] + xs';
      CrossConcatLeft(xs[1..], xs', ys);
    }
  }

  lemma {:induction false} CrossConcatRight(xs: seq<real>, ys: seq<real>, ys': seq<real>)
    ensures CrossWins(xs, ys + ys') == CrossWins(xs, ys) + CrossWins(xs, ys')
  {
    if xs != [] {
      WinsConcat(xs[0], ys, ys');
      CrossConcatRight(xs[1..], ys, ys');
    }
  }

  lemma {:induction false} OneAgainstMany(s: real, ys: seq<real>)
    ensures WinsAgainst(s, ys) + CrossWins(ys, [s]) == |ys| as real
  {
    if ys != [] {
      OneAgainstMany(s, ys[1..]);
      assert WinsAgainst(ys[0], [s]) == Beats(ys[0], s);
    }
  }

  /** Every pair has exactly one point to share out. */
  lemma {:induction false} WinsAndLosses(xs: seq<real>, ys: seq<real>)
    ensures CrossWins(xs, ys) + CrossWins(ys, xs) == (|xs| * |ys|) as real
  {
    if xs == [] {
      NothingToBeat(ys);
    } else {
      assert xs == [xs[0]] + xs[1..];
      CrossConcatRight(ys, [xs[0]], xs[1..]);
      OneAgainstMany(xs[0], ys);
      WinsAndLosses(xs[1..], ys);
      assert |xs| * |ys| == |xs[1..]| * |ys| + |ys|;
    }
  }

  lemma {:induction false} NothingToBeat(ys: seq<real>)
    ensures CrossWins(ys, []) == 0.0
  {
    if ys != [] {
      NothingToBeat(ys[1..]);
    }
  }

  lemma {:induction false} WinsBounds(s: real, ys: seq<real>)
    ensures 0.0 <= WinsAgainst(s, ys) <= |ys| as real
  {
    if ys != [] {
      WinsBounds(s, ys[1..]);
    }
  }

  lemma {:induction false} CrossNonNegative(xs: seq<real>, ys: seq<real>)
    ensures 0.0 <= CrossWins(xs, ys)
  {
    if xs != [] {
      WinsBounds(xs[0], ys);
      CrossNonNegative(xs[1..], ys);
    }
  }

  lemma {:induction false} WinsPermute(s: real, xs: seq<real>, ys: seq<real>)
    requires multiset(xs) == multiset(ys)
    ensures WinsAgainst(s, xs) == WinsAgainst(s, ys)
  {
    assert |xs| == |multiset(xs)| == |multiset(ys)| == |ys|;
    if xs != [] {
      var i := StrikeOut(xs, ys);
      WinsPermute(s, xs[1..], ys[..i] + ys[i+1..]);
      assert ys == ys[..i] + ([ys[i]] + ys[i+1..]);
      WinsConcat(s, ys[..i], [ys[i]] + ys[i+1..]);
      WinsConcat(s, ys[..i], ys[i+1..]);
    }
  }

  lemma {:induction false} CrossPermuteRight(xs: seq<real>, ys: seq<real>, ys': seq<real>)
    requires multiset(ys) == multiset(ys')
    ensures CrossWins(xs, ys) == CrossWins(xs, ys')
  {
    if xs != [] {
      WinsPermute(xs[0], ys, ys');
      CrossPermuteRight(xs[1..], ys, ys');
    }
  }

  /** The order on either side does not matter; the left side follows from the right by sharing out points. */
  lemma CrossPermute(xs: seq<real>, xs': seq<real>, ys: seq<real>, ys': seq<real>)
    requires multiset(xs) == multiset(xs') && multiset(ys) == multiset(ys')
    ensures CrossWins(xs, ys) == CrossWins(xs', ys')
    ensures |xs| == |xs'| && |ys| == |ys'|
  {
    assert |xs| == |multiset(xs)| == |multiset(xs')| == |xs'|;
    assert |ys| == |multiset(ys)| == |multiset(ys')| == |ys'|;
    CrossPermuteRight(xs, ys, ys');
    CrossPermuteRight(ys', xs, xs');
    WinsAndLosses(xs, ys');
    WinsAndLosses(xs', ys');
  }

  // ---------------------------------------------------------------- splitting rows by label

  lemma {:induction false} ScoresConcat(rows: seq<Scored>, rows': seq<Scored>, l: Label)
    ensures ScoresOf(rows + rows', l) == ScoresOf(rows, l) + ScoresOf(rows', l)
  {
    if rows == [] {
      assert rows + rows' == rows';
    } else {
      assert (rows + rows')[1..] == rows[1..] + rows';
      ScoresConcat(rows[1..], rows', l);
    }
  }

  lemma {:induction false} ScoresPermute(rows: seq<Scored>, rows': seq<Scored>, l: Label)
    requires multiset(rows) == multiset(rows')
    ensures multiset(ScoresOf(rows, l)) == multiset(ScoresOf(rows', l))
  {
    assert |rows| == |multiset(rows)| == |multiset(rows')| == |rows'|;
    if rows != [] {
      var i := StrikeOut(rows, rows');
      ScoresPermute(rows[1..], rows'[..i] + rows'[i+1..], l);
      assert rows' == rows'[..i] + ([rows'[i]] + rows'[i+1..]);
      ScoresConcat(rows'[..i], [rows'[i]] + rows'[i+1..], l);
      ScoresConcat(rows'[..i], rows'[i+1..], l);
    }
  }

  lemma {:induction false} LabelsPartition(rows: seq<Scored>)
    ensures |ScoresOf(rows, 1)| + |ScoresOf(rows, 0)| == |rows|
  {
    if rows != [] {
      LabelsPartition(rows[1..]);
    }
  }

  lemma {:induction false} WinsByLabel(s: real, rows: seq<Scored>)
    ensures WinsAgainst(s, AllScores(rows)) == WinsAgainst(s, ScoresOf(rows, 1)) + WinsAgainst(s, ScoresOf(rows, 0))
  {
    if rows != [] {
      WinsByLabel(s, rows[1..]);
      assert AllScores(rows)[1..] == AllScores(rows[1..]);
      var l := rows[0].rel;
      assert ScoresOf(rows, l)[1..] == ScoresOf(rows[1..], l);
    }
  }

  lemma {:induction false} CrossByLabel(xs: seq<real>, rows: seq<Scored>)
    ensures CrossWins(xs, AllScores(rows)) == CrossWins(xs, ScoresOf(rows, 1)) + CrossWins(xs, ScoresOf(rows, 0))
  {
    if xs != [] {
      WinsByLabel(xs[0], rows);
      CrossByLabel(xs[1..], rows);
    }
  }

  // ---------------------------------------------------------------- properties of the measure

  /** The score always lies in the unit interval. */
  lemma AucInUnitInterval(rows: seq<Scored>)
    ensures 0.0 <= AucOf(rows) <= 1.0
  {
    var ps, ns := ScoresOf(rows, 1), ScoresOf(rows, 0);
    CrossNonNegative(ps, ns);
    CrossNonNegative(ns, ps);
    WinsAndLosses(ps, ns);
    if |ps| != 0 && |ns| != 0 {
      RatioBounds(CrossWins(ps, ns), |ps| * |ns|);
    }
  }

  lemma RatioBounds(a: real, n: nat)
    requires 0.0 <= a <= n as real && 0 < n
    ensures 0.0 <= Ratio(a, n) <= 1.0
  {
    var q, d := Ratio(a, n), n as real;
    assert q * d == a;
    assert q < 0.0 ==> q * d < 0.0;
    assert q > 1.0 ==> (q - 1.0) * d > 0.0;
  }

  lemma RatioComplement(a: real, n: nat)
    requires 0 < n
    ensures Ratio(n as real - a, n) == 1.0 - Ratio(a, n)
  {
    var d := n as real;
    assert (d - a) / d == d / d - a / d;
  }

  /** The order in which the rows arrive does not matter. */
  lemma AucPermutation(rows: seq<Scored>, rows': seq<Scored>)
    requires multiset(rows) == multiset(rows')
    ensures AucOf(rows) == AucOf(rows')
    ensures |ScoresOf(rows, 1)| == |ScoresOf(rows', 1)|
    ensures |ScoresOf(rows, 0)| == |ScoresOf(rows', 0)|
  {
    ScoresPermute(rows, rows', 1);
    ScoresPermute(rows, rows', 0);
    CrossPermute(ScoresOf(rows, 1), ScoresOf(rows', 1), ScoresOf(rows, 0), ScoresOf(rows', 0));
  }

  function Rescore(g: real -> real): Scored -> Scored { (x: Scored) => Scored(g(x.score), x.rel) }

  lemma {:induction false} RescoreByLabel(g: real -> real, rows: seq<Scored>, l: Label)
    ensures ScoresOf(Map(Rescore(g), rows), l) == Map(g, ScoresOf(rows, l))
  {
    if rows != [] {
      RescoreByLabel(g, rows[1..], l);
      assert Map(Rescore(g), rows)[1..] == Map(Rescore(g), rows[1..]);
      var rest := ScoresOf(rows[1..], l);
      assert rows[0].rel == l ==> ScoresOf(rows, l)[1..] == rest;
    }
  }

  ghost predicate StrictlyIncreasing(g: real -> real) {
    forall a: real, b: real :: a < b ==> g(a) < g(b)
  }

  lemma {:induction false} WinsMonotone(g: real -> real, s: real, xs: seq<real>)
    requires StrictlyIncreasing(g)
    ensures WinsAgainst(g(s), Map(g, xs)) == WinsAgainst(s, xs)
  {
    if xs != [] {
      WinsMonotone(g, s, xs[1..]);
      assert Map(g, xs)[1..] == Map(g, xs[1..]);
    }
  }

  lemma {:induction false} CrossMonotone(g: real -> real, xs: seq<real>, ys: seq<real>)
    requires StrictlyIncreasing(g)
    ensures CrossWins(Map(g, xs), Map(g, ys)) == CrossWins(xs, ys)
  {
    if xs != [] {
      WinsMonotone(g, xs[0], ys);
      CrossMonotone(g, xs[1..], ys);
      assert Map(g, xs)[1..] == Map(g, xs[1..]);
    }
  }

  /** Only the order of the scores counts. */
  lemma AucMonotoneTransform(g: real -> real, rows: seq<Scored>)
    requires StrictlyIncreasing(g)
    ensures AucOf(Map(Rescore(g), rows)) == AucOf(rows)
  {
    RescoreByLabel(g, rows, 1);
    RescoreByLabel(g, rows, 0);
    CrossMonotone(g, ScoresOf(rows, 1), ScoresOf(rows, 0));
  }

  function Negate(): real -> real { (s: real) => -s }

  lemma {:induction false} WinsNegated(s: real, xs: seq<real>)
    ensures WinsAgainst(-s, Map(Negate(), xs)) == |xs| as real - WinsAgainst(s, xs)
  {
    if xs != [] {
      WinsNegated(s, xs[1..]);
      assert Map(Negate(), xs)[1..] == Map(Negate(), xs[1..]);
    }
  }

  lemma {:induction false} CrossNegated(xs: seq<real>, ys: seq<real>)
    ensures CrossWins(Map(Negate(), xs), Map(Negate(), ys)) == (|xs| * |ys|) as real - CrossWins(xs, ys)
  {
    if xs != [] {
      WinsNegated(xs[0], ys);
      CrossNegated(xs[1..], ys);
      assert Map(Negate(), xs)[1..] == Map(Negate(), xs[1..]);
      assert |xs| * |ys| == |xs[1..]| * |ys| + |ys|;
    }
  }

  /** Negating every score turns the measure into its complement. */
  lemma AucNegation(rows: seq<Scored>)
    ensures AucOf(Map(Rescore(Negate()), rows)) == 1.0 - AucOf(rows)
  {
    RescoreByLabel(Negate(), rows, 1);
    RescoreByLabel(Negate(), rows, 0);
    var ps, ns := ScoresOf(rows, 1), ScoresOf(rows, 0);
    CrossNegated(ps, ns);
    if |ps| != 0 && |ns| != 0 {
      RatioComplement(CrossWins(ps, ns), |ps| * |ns|);
    }
  }

  // ---------------------------------------------------------------- the loop

  function Triangular(n: nat): real { (n * (n + 1)) as real / 2.0 }

  /** Sum of the midranks that a list of scores has among all scores. */
  function RankSumOf(xs: seq<real>, all: seq<real>): real { CrossWins(xs, all) + |xs| as real / 2.0 }

  /** The midranks of the positives, summed, are their wins over the negatives plus a triangular number. */
  lemma RankSum(rows: seq<Scored>)
    ensures RankSumOf(ScoresOf(rows, 1), AllScores(rows))
         == CrossWins(ScoresOf(rows, 1), ScoresOf(rows, 0)) + Triangular(|ScoresOf(rows, 1)|)
  {
    var ps := ScoresOf(rows, 1);
    CrossByLabel(ps, rows);
    WinsAndLosses(ps, ps);
    assert |ps| * (|ps| + 1) == |ps| * |ps| + |ps|;
  }

  lemma {:induction false} UniformWins(s: real, xs: seq<real>, w: real)
    requires forall x | x in xs :: Beats(s, x) == w
    ensures WinsAgainst(s, xs) == w * |xs| as real
  {
    if xs != [] {
      assert xs[0] in xs;
      assert forall x | x in xs[1..] :: x in xs;
      UniformWins(s, xs[1..], w);
      assert w * |xs[1..]| as real + w == w * |xs| as real;
    }
  }

  lemma WinsOverParts(s: real, lower: seq<real>, same: seq<real>, upper: seq<real>)
    requires forall x | x in lower :: x < s
    requires forall x | x in same :: x == s
    requires forall x | x in upper :: s < x
    ensures WinsAgainst(s, lower + same + upper) == |lower| as real + |same| as real / 2.0
  {
    hide WinsAgainst;
    WinsConcat(s, lower + same, upper);
    WinsConcat(s, lower, same);
    UniformWins(s, lower, 1.0);
    UniformWins(s, same, 0.5);
    UniformWins(s, upper, 0.0);
  }

  /** In sorted order the block of one score wins against everything before it and ties with itself. */
  lemma BlockWins(xs: seq<real>, i: nat, j: nat, s: real)
    requires i <= j < |xs|
    requires forall k | 0 <= k < i :: xs[k] < s
    requires forall k | i <= k <= j :: xs[k] == s
    requires forall k | j < k < |xs| :: s < xs[k]
    ensures WinsAgainst(s, xs) + 0.5 == (i + j) as real / 2.0 + 1.0
  {
    var lower, same, upper := xs[..i], xs[i..j+1], xs[j+1..];
    assert xs == lower + same + upper;
    WinsOverParts(s, lower, same, upper);
  }

  /** Midrank of every row: the scores below it, half of its equals, and one half. */
  ghost function MidrankList(pairs: seq<Scored>): (m: seq<real>)
    ensures |m| == |pairs|
  {
    seq(|pairs|, k requires 0 <= k < |pairs| => WinsAgainst(pairs[k].score, AllScores(pairs)) + 0.5)
  }

  ghost predicate ScoresAscend(pairs: seq<Scored>) {
    forall i, j | 0 <= i < j < |pairs| :: pairs[i].score <= pairs[j].score
  }

  lemma TupleOrderAscends(pairs: seq<Scored>)
    requires SortedBy(TupleOrder(), pairs)
    ensures ScoresAscend(pairs)
  {
    forall i, j | 0 <= i < j < |pairs|
      ensures pairs[i].score <= pairs[j].score
    {
      assert TupleOrder()(pairs[i], pairs[j]);
    }
  }

  /** `sorted(zip(scores, labels))` */
  function SortedPairs(rows: seq<Scored>): (pairs: seq<Scored>)
    ensures multiset(pairs) == multiset(rows)
    ensures ScoresAscend(pairs)
  {
    StableSortSorted(TupleOrder(), rows);
    TupleOrderAscends(StableSort(TupleOrder(), rows));
    StableSort(TupleOrder(), rows)
  }

  /** pairs[i..j+1] is one maximal block of equal scores */
  ghost predicate IsBlock(pairs: seq<Scored>, i: nat, j: nat) {
    && i <= j < |pairs|
    && pairs[j].score == pairs[i].score
    && (i > 0 ==> pairs[i-1].score != pairs[i].score)
    && (j + 1 < |pairs| ==> pairs[j+1].score != pairs[i].score)
  }

  lemma BlockMidrank(pairs: seq<Scored>, i: nat, j: nat)
    requires ScoresAscend(pairs) && IsBlock(pairs, i, j)
    ensures forall k | i <= k <= j :: MidrankList(pairs)[k] == (i + j) as real / 2.0 + 1.0
  {
    var scores, s := AllScores(pairs), pairs[i].score;
    forall k | 0 <= k < |pairs|
      ensures k < i ==> scores[k] < s
      ensures i <= k <= j ==> scores[k] == s
      ensures j < k ==> s < scores[k]
    {
      if 0 < i && k < i - 1 {
        assert pairs[k].score <= pairs[i-1].score;
      }
      if j + 1 < k {
        assert pairs[j+1].score <= pairs[k].score;
      }
    }
    BlockWins(scores, i, j, s);
  }

  /** The list of midranks that the source's nested loops fill in, block by block. */
  method Midranks(pairs: seq<Scored>) returns (ranks: seq<real>)
    requires ScoresAscend(pairs)
    ensures ranks == MidrankList(pairs)
  {
    ghost var want := MidrankList(pairs);
    ranks := seq(|pairs|, _ => 0.0);
    var i := 0;
    while i < |pairs|
      invariant 0 <= i <= |pairs| == |ranks|
      invariant 0 < i < |pairs| ==> pairs[i-1].score != pairs[i].score
      invariant forall k | 0 <= k < i :: ranks[k] == want[k]
    {
      var j := i;
      while j + 1 < |pairs| && pairs[j+1].score == pairs[i].score
        invariant i <= j < |pairs| && pairs[j].score == pairs[i].score
      {
        j := j + 1;
      }
      BlockMidrank(pairs, i, j);
      var avg := (i + j) as real / 2.0 + 1.0;
      for k := i to j + 1
        invariant |ranks| == |pairs|
        invariant forall m | 0 <= m < k :: ranks[m] == want[m]
      {
        ranks := ranks[k := avg];
      }
      i := j + 1;
    }
  }

  /** Adding one row to a prefix adds its score to its label's list and to no other. */
  lemma ScoresOfPrefix(rows: seq<Scored>, k: nat, l: Label)
    requires k < |rows|
    ensures ScoresOf(rows[..k+1], l) ==
            if rows[k].rel == l then ScoresOf(rows[..k], l) + [rows[k].score] else ScoresOf(rows[..k], l)
  {
    assert rows[..k+1] == rows[..k] + [rows[k]];
    ScoresConcat(rows[..k], [rows[k]], l);
  }

  lemma RankSumSnoc(xs: seq<real>, x: real, all: seq<real>)
    ensures RankSumOf(xs + [x], all) == RankSumOf(xs, all) + WinsAgainst(x, all) + 0.5
  {
    CrossConcatLeft(xs, [x], all);
    assert [x][1..] == [];
    assert CrossWins([x], all) == WinsAgainst(x, all) + CrossWins([x][1..], all);
  }

  /** Sum of the ranks of the positive rows. */
  method PositiveRankSum(pairs: seq<Scored>, ranks: seq<real>) returns (srank: real)
    requires ranks == MidrankList(pairs)
    ensures srank == RankSumOf(ScoresOf(pairs, 1), AllScores(pairs))
  {
    srank := 0.0;
    for k := 0 to |pairs|
      invariant srank == RankSumOf(ScoresOf(pairs[..k], 1), AllScores(pairs))
    {
      ScoresOfPrefix(pairs, k, 1);
      if pairs[k].rel == 1 {
        RankSumSnoc(ScoresOf(pairs[..k], 1), pairs[k].score, AllScores(pairs));
        assert ranks[k] == WinsAgainst(pairs[k].score, AllScores(pairs)) + 0.5;
        srank := srank + ranks[k];
      }
    }
    assert pairs[..|pairs|] == pairs;
  }

  method CountPositives(pairs: seq<Scored>) returns (npos: nat)
    ensures npos == |ScoresOf(pairs, 1)|
  {
    npos := 0;
    for k := 0 to |pairs|
      invariant npos == |ScoresOf(pairs[..k], 1)|
    {
      ScoresOfPrefix(pairs, k, 1);
      npos := npos + pairs[k].rel;
    }
    assert pairs[..|pairs|] == pairs;
  }

  function MannWhitney(srank: real, npos: nat, nneg: nat): real {
    Ratio(srank - Triangular(npos), npos * nneg)
  }

  /** The closing formula, on any reordering of the rows. */
  lemma AucFromRankSum(pairs: seq<Scored>, rows: seq<Scored>)
    requires multiset(pairs) == multiset(rows)
    ensures var npos, nneg := |ScoresOf(pairs, 1)|, |pairs| - |ScoresOf(pairs, 1)|;
            && nneg >= 0
            && AucOf(rows) == if npos == 0 || nneg == 0 then 0.5 else
                 MannWhitney(RankSumOf(ScoresOf(pairs, 1), AllScores(pairs)), npos, nneg)
  {
    AucPermutation(pairs, rows);
    LabelsPartition(pairs);
    RankSum(pairs);
  }

  /** Mann-Whitney U with midranks: returns exactly the fraction of correctly ordered pairs. */
  method ComputeAuc(labels: seq<Label>, scores: seq<real>) returns (r: real)
    ensures r == AucOf(Zip(scores, labels))
  {
    var pairs := SortedPairs(Zip(scores, labels));
    AucFromRankSum(pairs, Zip(scores, labels));
    var ranks := Midranks(pairs);
    var npos := CountPositives(pairs);
    var nneg := |pairs| - npos;
    if npos == 0 || nneg == 0 {
      return 0.5;
    }
    var srank := PositiveRankSum(pairs, ranks);
    r := MannWhitney(srank, npos, nneg);
  }
}
