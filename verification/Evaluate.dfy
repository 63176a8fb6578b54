/** `evaluate` of kuairand-starter-kit/evaluate.py: per-user ranking, GAUC, nDCG and the primary score. */
module Evaluate {
  import opened Sums
  import opened Sorting
  import opened Auc
  import opened Ndcg
  import Grouping

  datatype Row = Row(user: int, rel: Label, score: real)

  datatype Metrics = Metrics(gauc: real, ndcg: real, primary: real, users: nat, rows: nat)

  /** A user's own rows, in row order. */
  function RowsOf(rows: seq<Row>, u: int): seq<Scored> {
    if rows == [] then []
    else
      var prefix, last := rows[..|rows|-1], rows[|rows|-1];
      if last.user == u then RowsOf(prefix, u) + [Scored(last.score, last.rel)] else RowsOf(prefix, u)
  }

  /** Users in order of first appearance. */
  function Users(rows: seq<Row>): (us: seq<int>)
    ensures forall u :: u in us <==> RowsOf(rows, u) != []
    ensures NoDuplicates(us)
  {
    ColumnUsers(rows);
    Grouping.FirstSeen(UserColumn(rows))
  }

  function UserColumn(rows: seq<Row>): (us: seq<int>)
    ensures |us| == |rows|
    ensures forall i | 0 <= i < |rows| :: us[i] == rows[i].user
  {
    seq(|rows|, i requires 0 <= i < |rows| => rows[i].user)
  }

  lemma {:induction false} ColumnUsers(rows: seq<Row>)
    ensures forall u :: u in UserColumn(rows) <==> RowsOf(rows, u) != []
  {
    if rows != [] {
      var n := |rows| - 1;
      ColumnUsers(rows[..n]);
      assert UserColumn(rows) == UserColumn(rows[..n]) + [rows[n].user];
    }
  }

  lemma UsersSnoc(rows: seq<Row>, row: Row)
    ensures Users(rows + [row]) == if row.user in Users(rows) then Users(rows) else Users(rows) + [row.user]
  {
    var column := UserColumn(rows + [row]);
    assert column[..|rows|] == UserColumn(rows);
    assert column[|rows|] == row.user;
  }

  function LabelsOf(rows: seq<Scored>): (ls: seq<Label>)
    ensures |ls| == |rows|
    ensures forall i :: 0 <= i < |rows| ==> ls[i] == rows[i].rel
  {
    if rows == [] then [] else [rows[0].rel] + LabelsOf(rows[1..])
  }

  function ByScoreDescending(): (Scored, Scored) -> bool { (x: Scored, y: Scored) => x.score >= y.score }

  /** A user's list as ranked: by descending score, ties in row order. */
  function Ranked(rows: seq<Scored>): (ys: seq<Scored>)
    ensures multiset(ys) == multiset(rows)
  {
    StableSort(ByScoreDescending(), rows)
  }

  function NPos(rows: seq<Scored>): nat { |ScoresOf(rows, 1)| }

  predicate Mixed(rows: seq<Scored>) { 0 < NPos(rows) < |rows| }

  function Weighted(n: nat, a: real): real { n as real * a }

  /** What one user adds to the GAUC numerator and denominator, and to the nDCG mean. */
  function AucShare(rows: seq<Scored>): real { if Mixed(rows) then Weighted(NPos(rows), AucOf(rows)) else 0.0 }

  function WeightShare(rows: seq<Scored>): real { if Mixed(rows) then NPos(rows) as real else 0.0 }

  function NdcgShare(rows: seq<Scored>, disc: seq<real>): real { NdcgOf(LabelsOf(Ranked(rows)), disc) }

  function AucShares(rows: seq<Row>): int -> real { (u: int) => AucShare(RowsOf(rows, u)) }

  function WeightShares(rows: seq<Row>): int -> real { (u: int) => WeightShare(RowsOf(rows, u)) }

  function NdcgShares(rows: seq<Row>, disc: seq<real>): int -> real { (u: int) => NdcgShare(RowsOf(rows, u), disc) }

  function Quot(num: real, den: real, otherwise: real): real { if den == 0.0 then otherwise else num / den }

  /** Positive-weighted mean of the users' AUC over mixed-label users. */
  function GaucOf(rows: seq<Row>): real {
    var us := Users(rows);
    Quot(SumOver(us, AucShares(rows)), SumOver(us, WeightShares(rows)), 0.5)
  }

  /** Plain mean of the users' nDCG. */
  function MeanNdcgOf(rows: seq<Row>, disc: seq<real>): real {
    var us := Users(rows);
    Quot(SumOver(us, NdcgShares(rows, disc)), |us| as real, 0.0)
  }

  /** The three accumulators after a prefix of the users. */
  datatype Totals = Totals(num: real, den: real, nd: real)

  /** The closing lines: two quotients with their fallbacks, and their mean. */
  function Summarise(t: Totals, users: nat, rows: nat): Metrics {
    var gauc, ndcg := Quot(t.num, t.den, 0.5), Quot(t.nd, users as real, 0.0);
    Metrics(gauc, ndcg, (gauc + ndcg) / 2.0, users, rows)
  }

  function MetricsOf(rows: seq<Row>, disc: seq<real>): Metrics {
    var g, n := GaucOf(rows), MeanNdcgOf(rows, disc);
    Metrics(g, n, (g + n) / 2.0, |Users(rows)|, |rows|)
  }

  // ---------------------------------------------------------------- the computation

  lemma {:induction false} ZipUnzips(rows: seq<Scored>)
    ensures Zip(AllScores(rows), LabelsOf(rows)) == rows
  {
    if rows != [] {
      ZipUnzips(rows[1..]);
      assert AllScores(rows)[1..] == AllScores(rows[1..]);
      assert LabelsOf(rows)[1..] == LabelsOf(rows[1..]);
    }
  }

  lemma {:induction false} OnesArePositives(rows: seq<Scored>)
    ensures CountOnes(LabelsOf(rows)) == NPos(rows)
  {
    if rows != [] {
      OnesArePositives(rows[1..]);
      assert LabelsOf(rows)[1..] == LabelsOf(rows[1..]);
    }
  }

  /** byu holds the list of exactly the users in order */
  ghost predicate ListsBuilt(rows: seq<Row>, order: seq<int>, byu: map<int, seq<Scored>>) {
    && order == Users(rows)
    && (forall u | u in byu :: u in order && byu[u] == RowsOf(rows, u))
    && (forall i | 0 <= i < |order| :: order[i] in byu)
  }

  /** One pass of the grouping loop, on values. */
  lemma ListsExtended(rows: seq<Row>, row: Row, order: seq<int>, byu: map<int, seq<Scored>>)
    requires ListsBuilt(rows, order, byu)
    ensures var order' := if row.user in byu then order else order + [row.user];
            var before := if row.user in byu then byu[row.user] else [];
            ListsBuilt(rows + [row], order', byu[row.user := before + [Scored(row.score, row.rel)]])
  {
    UsersSnoc(rows, row);
    assert (rows + [row])[..|rows|] == rows;
    assert row.user in order ==> row.user in byu;
    assert row.user !in byu ==> RowsOf(rows, row.user) == [];
  }

  /** The dictionary of per-user lists, with its keys in insertion order. */
  method GroupByUser(rows: seq<Row>) returns (order: seq<int>, byu: map<int, seq<Scored>>)
    ensures ListsBuilt(rows, order, byu)
  {
    order, byu := [], map[];
    for n := 0 to |rows|
      invariant ListsBuilt(rows[..n], order, byu)
    {
      var row := rows[n];
      assert rows[..n+1] == rows[..n] + [row];
      ListsExtended(rows[..n], row, order, byu);
      var before := if row.user in byu then byu[row.user] else [];
      order := if row.user in byu then order else order + [row.user];
      byu := byu[row.user := before + [Scored(row.score, row.rel)]];
    }
    assert rows[..|rows|] == rows;
  }

  /** Ranking reorders a user's rows, and pulling the list apart into columns loses nothing. */
  lemma RankedColumns(lst: seq<Scored>)
    ensures |Ranked(lst)| == |lst|
    ensures CountOnes(LabelsOf(Ranked(lst))) == NPos(lst)
    ensures AucOf(Zip(AllScores(Ranked(lst)), LabelsOf(Ranked(lst)))) == AucOf(lst)
  {
    var ranked := Ranked(lst);
    assert |ranked| == |multiset(ranked)| == |multiset(lst)| == |lst|;
    AucPermutation(ranked, lst);
    OnesArePositives(ranked);
    ZipUnzips(ranked);
  }

  /** One user's share of the three accumulators. */
  method ScoreUser(lst: seq<Scored>, disc: seq<real>) returns (num: real, den: real, nd: real)
    ensures num == AucShare(lst) && den == WeightShare(lst) && nd == NdcgShare(lst, disc)
  {
    var ranked := Ranked(lst);
    RankedColumns(lst);
    var labs := LabelsOf(ranked);
    var npos := CountOnes(labs);
    num, den := 0.0, 0.0;
    if 0 < npos < |labs| {
      var a := ComputeAuc(labs, AllScores(ranked));
      num, den := Weighted(npos, a), npos as real;
    }
    nd := NdcgOf(labs, disc);
  }

  ghost function TotalsOver(rows: seq<Row>, disc: seq<real>, us: seq<int>): Totals {
    Totals(SumOver(us, AucShares(rows)), SumOver(us, WeightShares(rows)), SumOver(us, NdcgShares(rows, disc)))
  }

  lemma TotalsSnoc(rows: seq<Row>, disc: seq<real>, us: seq<int>, i: nat)
    requires i < |us|
    ensures var t, mine := TotalsOver(rows, disc, us[..i]), RowsOf(rows, us[i]);
            TotalsOver(rows, disc, us[..i+1])
            == Totals(t.num + AucShare(mine), t.den + WeightShare(mine), t.nd + NdcgShare(mine, disc))
  {
    assert us[..i+1] == us[..i] + [us[i]];
    SumSnoc(us[..i], us[i], AucShares(rows));
    SumSnoc(us[..i], us[i], WeightShares(rows));
    SumSnoc(us[..i], us[i], NdcgShares(rows, disc));
  }

  lemma MetricsFromTotals(rows: seq<Row>, disc: seq<real>)
    ensures MetricsOf(rows, disc) == Summarise(TotalsOver(rows, disc, Users(rows)), |Users(rows)|, |rows|)
  {
  }

  /** The loop over `byu.items()`. */
  method AccumulateShares(ghost rows: seq<Row>, order: seq<int>, byu: map<int, seq<Scored>>, disc: seq<real>)
    returns (t: Totals)
    requires forall i | 0 <= i < |order| :: order[i] in byu && byu[order[i]] == RowsOf(rows, order[i])
    ensures t == TotalsOver(rows, disc, order)
  {
    t := Totals(0.0, 0.0, 0.0);
    for i := 0 to |order|
      invariant t == TotalsOver(rows, disc, order[..i])
    {
      var num, den, nd := ScoreUser(byu[order[i]], disc);
      TotalsSnoc(rows, disc, order, i);
      t := Totals(t.num + num, t.den + den, t.nd + nd);
    }
    assert order[..|order|] == order;
  }

  method ComputeMetrics(rows: seq<Row>, disc: seq<real>) returns (m: Metrics)
    ensures m == MetricsOf(rows, disc)
  {
    var order, byu := GroupByUser(rows);
    var t := AccumulateShares(rows, order, byu, disc);
    MetricsFromTotals(rows, disc);
    m := Summarise(t, |order|, |rows|);
  }

  // ---------------------------------------------------------------- what the score depends on

  lemma SameUsers(rows: seq<Row>, rows': seq<Row>)
    requires forall u :: RowsOf(rows, u) == [] <==> RowsOf(rows', u) == []
    ensures multiset(Users(rows)) == multiset(Users(rows'))
    ensures |Users(rows)| == |Users(rows')|
  {
    var us, us' := Users(rows), Users(rows');
    forall u
      ensures u in us <==> u in us'
    {
      assert RowsOf(rows, u) == [] <==> RowsOf(rows', u) == [];
    }
    SameSetSameMultiset(us, us');
    assert |us| == |multiset(us)| == |multiset(us')| == |us'|;
  }

  /** GAUC is read off the per-user lists alone, in any order of the users. */
  lemma GaucFromUserLists(rows: seq<Row>, rows': seq<Row>)
    requires forall u :: RowsOf(rows, u) == [] <==> RowsOf(rows', u) == []
    requires forall u :: AucShare(RowsOf(rows, u)) == AucShare(RowsOf(rows', u))
    requires forall u :: WeightShare(RowsOf(rows, u)) == WeightShare(RowsOf(rows', u))
    ensures GaucOf(rows) == GaucOf(rows')
  {
    var us, us' := Users(rows), Users(rows');
    SameUsers(rows, rows');
    SumExt(us, AucShares(rows), AucShares(rows'));
    SumPermute(us, us', AucShares(rows'));
    SumExt(us, WeightShares(rows), WeightShares(rows'));
    SumPermute(us, us', WeightShares(rows'));
  }

  lemma NdcgFromUserLists(rows: seq<Row>, rows': seq<Row>, disc: seq<real>)
    requires forall u :: RowsOf(rows, u) == [] <==> RowsOf(rows', u) == []
    requires forall u :: NdcgShare(RowsOf(rows, u), disc) == NdcgShare(RowsOf(rows', u), disc)
    ensures MeanNdcgOf(rows, disc) == MeanNdcgOf(rows', disc)
  {
    var us, us' := Users(rows), Users(rows');
    SameUsers(rows, rows');
    SumExt(us, NdcgShares(rows, disc), NdcgShares(rows', disc));
    SumPermute(us, us', NdcgShares(rows', disc));
  }

  /** Interleaving the users differently changes nothing, as long as each keeps its own row order. */
  lemma ReinterleavingInvariance(rows: seq<Row>, rows': seq<Row>, disc: seq<real>)
    requires forall u :: RowsOf(rows, u) == RowsOf(rows', u)
    ensures GaucOf(rows) == GaucOf(rows')
    ensures MeanNdcgOf(rows, disc) == MeanNdcgOf(rows', disc)
    ensures MetricsOf(rows, disc).primary == MetricsOf(rows', disc).primary
  {
    GaucFromUserLists(rows, rows');
    NdcgFromUserLists(rows, rows', disc);
  }

  lemma RowsOfSnoc(rows: seq<Row>, row: Row, u: int)
    ensures RowsOf(rows + [row], u)
         == if row.user == u then RowsOf(rows, u) + [Scored(row.score, row.rel)] else RowsOf(rows, u)
  {
    assert (rows + [row])[..|rows|] == rows;
  }

  lemma {:induction false} RowsOfConcat(rows: seq<Row>, rows': seq<Row>, u: int)
    ensures RowsOf(rows + rows', u) == RowsOf(rows, u) + RowsOf(rows', u)
  {
    if rows' == [] {
      assert rows + rows' == rows;
    } else {
      var n := |rows + rows'| - 1;
      assert (rows + rows')[..n] == rows + rows'[..|rows'|-1];
      RowsOfConcat(rows, rows'[..|rows'|-1], u);
    }
  }

  lemma {:induction false} RowsOfPermute(rows: seq<Row>, rows': seq<Row>, u: int)
    requires multiset(rows) == multiset(rows')
    ensures multiset(RowsOf(rows, u)) == multiset(RowsOf(rows', u))
  {
    assert |rows| == |multiset(rows)| == |multiset(rows')| == |rows'|;
    if rows != [] {
      var i := StrikeOut(rows, rows');
      RowsOfPermute(rows[1..], rows'[..i] + rows'[i+1..], u);
      assert rows == [rows[0]] + rows[1..];
      assert rows' == rows'[..i] + ([rows'[i]] + rows'[i+1..]);
      RowsOfConcat([rows[0]], rows[1..], u);
      RowsOfConcat(rows'[..i], [rows'[i]] + rows'[i+1..], u);
      RowsOfConcat([rows'[i]], rows'[i+1..], u);
      RowsOfConcat(rows'[..i], rows'[i+1..], u);
    }
  }

  /** GAUC ignores the row order altogether. */
  lemma GaucPermutation(rows: seq<Row>, rows': seq<Row>)
    requires multiset(rows) == multiset(rows')
    ensures GaucOf(rows) == GaucOf(rows')
  {
    forall u
      ensures RowsOf(rows, u) == [] <==> RowsOf(rows', u) == []
      ensures AucShare(RowsOf(rows, u)) == AucShare(RowsOf(rows', u))
      ensures WeightShare(RowsOf(rows, u)) == WeightShare(RowsOf(rows', u))
    {
      var mine, mine' := RowsOf(rows, u), RowsOf(rows', u);
      RowsOfPermute(rows, rows', u);
      assert |mine| == |multiset(mine)| == |multiset(mine')| == |mine'|;
      AucPermutation(mine, mine');
    }
    GaucFromUserLists(rows, rows');
  }

  /** nDCG does not: two tied rows of one user score by whichever comes first. `TieOrder` says when it does. */
  lemma NdcgSeesTieOrder(u: int, s: real, disc: seq<real>)
    requires Discounts(disc) && |disc| >= 2
    ensures MeanNdcgOf([Row(u, 0, s), Row(u, 1, s)], disc) < MeanNdcgOf([Row(u, 1, s), Row(u, 0, s)], disc)
  {
    TwoTiedRows(u, 1, 0, s, disc);
    TwoTiedRows(u, 0, 1, s, disc);
    LeadingPositiveWins(disc);
  }

  lemma LeadingPositiveWins(disc: seq<real>)
    requires Discounts(disc) && |disc| >= 2
    ensures NdcgOf([0, 1], disc) < NdcgOf([1, 0], disc)
  {
    var none: seq<Label> := [];
    NdcgSwap(none, none, disc);
    assert none + [1, 0] + none == [1, 0] && none + [0, 1] + none == [0, 1];
  }

  lemma RankedPair(x: Scored, y: Scored)
    requires x.score == y.score
    ensures Ranked([x, y]) == [x, y] && LabelsOf([x, y]) == [x.rel, y.rel]
  {
    var le := ByScoreDescending();
    assert [x, y][1..] == [y] && [y][1..] == [];
    assert StableSort(le, [y]) == [y];
  }

  lemma PairOfOneUser(x: Row, y: Row)
    requires x.user == y.user
    ensures RowsOf([x, y], x.user) == [Scored(x.score, x.rel), Scored(y.score, y.rel)] && Users([x, y]) == [x.user]
  {
    hide Users, RowsOf;
    NoRows(x.user);
    RowsOfSnoc([], x, x.user);
    RowsOfSnoc([x], y, x.user);
    UsersSnoc([], x);
    UsersSnoc([x], y);
    assert [] + [x] == [x] && [x] + [y] == [x, y];
  }

  lemma NoRows(u: int)
    ensures RowsOf([], u) == [] && Users([]) == []
  {
  }

  lemma TwoTiedRows(u: int, l: Label, l': Label, s: real, disc: seq<real>)
    ensures MeanNdcgOf([Row(u, l, s), Row(u, l', s)], disc) == NdcgOf([l, l'], disc)
  {
    hide Users, RowsOf, Ranked, NdcgOf, LabelsOf;
    var rows := [Row(u, l, s), Row(u, l', s)];
    PairOfOneUser(rows[0], rows[1]);
    RankedPair(Scored(s, l), Scored(s, l'));
    assert [u][1..] == [];
    assert SumOver([u], NdcgShares(rows, disc)) == NdcgShares(rows, disc)(u);
  }

  // ---------------------------------------------------------------- rescoring per user

  function RescoreRow(g: (int, real) -> real): Row -> Row { (x: Row) => Row(x.user, x.rel, g(x.user, x.score)) }

  function At(g: (int, real) -> real, u: int): real -> real { (s: real) => g(u, s) }

  lemma {:induction false} RowsOfRescored(g: (int, real) -> real, rows: seq<Row>, u: int)
    ensures RowsOf(Map(RescoreRow(g), rows), u) == Map(Rescore(At(g, u)), RowsOf(rows, u))
  {
    hide Map;
    if rows != [] {
      hide RowsOf;
      var n := |rows| - 1;
      var m, row, mine := RescoreRow(g), rows[n], RowsOf(rows[..n], u);
      RowsOfRescored(g, rows[..n], u);
      assert rows == rows[..n] + [row];
      MapConcat(m, rows[..n], [row]);
      assert Map(m, [row]) == [m(row)];
      RowsOfSnoc(rows[..n], row, u);
      RowsOfSnoc(Map(m, rows[..n]), m(row), u);
      var x := Scored(row.score, row.rel);
      MapConcat(Rescore(At(g, u)), mine, [x]);
      assert Map(Rescore(At(g, u)), [x]) == [Rescore(At(g, u))(x)];
    }
  }

  lemma {:induction false} LabelsOfRescored(g: real -> real, rows: seq<Scored>)
    ensures LabelsOf(Map(Rescore(g), rows)) == LabelsOf(rows)
  {
  }

  lemma AucShareRescored(g: real -> real, rows: seq<Scored>)
    requires StrictlyIncreasing(g)
    ensures AucShare(Map(Rescore(g), rows)) == AucShare(rows)
    ensures WeightShare(Map(Rescore(g), rows)) == WeightShare(rows)
  {
    AucMonotoneTransform(g, rows);
    RescoreByLabel(g, rows, 1);
  }

  lemma NdcgShareRescored(g: real -> real, rows: seq<Scored>, disc: seq<real>)
    requires StrictlyIncreasing(g)
    ensures NdcgShare(Map(Rescore(g), rows), disc) == NdcgShare(rows, disc)
  {
    var le := ByScoreDescending();
    assert forall x: Scored, y: Scored :: le(x, y) == le(Rescore(g)(x), Rescore(g)(y));
    StableSortMap(Rescore(g), le, le, rows);
    LabelsOfRescored(g, Ranked(rows));
  }

  ghost predicate PerUserIncreasing(g: (int, real) -> real) {
    forall u: int :: StrictlyIncreasing(At(g, u))
  }

  lemma UserListsRescored(g: (int, real) -> real, rows: seq<Row>, u: int, disc: seq<real>)
    requires PerUserIncreasing(g)
    ensures var mine, mine' := RowsOf(rows, u), RowsOf(Map(RescoreRow(g), rows), u);
            && (mine' == [] <==> mine == [])
            && AucShare(mine') == AucShare(mine) && WeightShare(mine') == WeightShare(mine)
            && NdcgShare(mine', disc) == NdcgShare(mine, disc)
  {
    RowsOfRescored(g, rows, u);
    AucShareRescored(At(g, u), RowsOf(rows, u));
    NdcgShareRescored(At(g, u), RowsOf(rows, u), disc);
  }

  /** Any strictly increasing change of the scores, chosen per user, leaves every metric as it was. */
  lemma MonotoneInvariance(g: (int, real) -> real, rows: seq<Row>, disc: seq<real>)
    requires PerUserIncreasing(g)
    ensures MetricsOf(Map(RescoreRow(g), rows), disc) == MetricsOf(rows, disc)
  {
    hide MeanNdcgOf, GaucOf, AucShare, WeightShare, NdcgShare, PerUserIncreasing;
    var rows' := Map(RescoreRow(g), rows);
    forall u
      ensures RowsOf(rows', u) == [] <==> RowsOf(rows, u) == []
      ensures AucShare(RowsOf(rows', u)) == AucShare(RowsOf(rows, u))
      ensures WeightShare(RowsOf(rows', u)) == WeightShare(RowsOf(rows, u))
      ensures NdcgShare(RowsOf(rows', u), disc) == NdcgShare(RowsOf(rows, u), disc)
    {
      UserListsRescored(g, rows, u, disc);
    }
    GaucFromUserLists(rows', rows);
    NdcgFromUserLists(rows', rows, disc);
    SameUsers(rows', rows);
  }

  /** In particular a term that is constant within each user contributes nothing. */
  lemma UserConstantsVanish(c: int -> real, rows: seq<Row>, disc: seq<real>)
    ensures MetricsOf(Map(RescoreRow((u: int, s: real) => s + c(u)), rows), disc) == MetricsOf(rows, disc)
  {
    var shift := (u: int, s: real) => s + c(u);
    assert forall u: int, s: real :: At(shift, u)(s) == s + c(u);
    MonotoneInvariance(shift, rows, disc);
  }

  lemma AucShareBounds(mine: seq<Scored>)
    ensures 0.0 <= AucShare(mine) <= WeightShare(mine)
  {
    if Mixed(mine) {
      AucInUnitInterval(mine);
      WeightedBounds(NPos(mine), AucOf(mine));
    }
  }

  lemma NdcgShareBounds(mine: seq<Scored>, disc: seq<real>)
    requires Discounts(disc)
    ensures 0.0 <= NdcgShare(mine, disc) <= 1.0
  {
    NdcgCharacterised(LabelsOf(Ranked(mine)), disc);
  }

  lemma GaucBounds(rows: seq<Row>)
    ensures 0.0 <= GaucOf(rows) <= 1.0
  {
    var us := Users(rows);
    forall u | u in us
      ensures 0.0 <= AucShares(rows)(u) <= WeightShares(rows)(u)
    {
      AucShareBounds(RowsOf(rows, u));
    }
    SumNonNegative(us, AucShares(rows));
    SumMonotone(us, AucShares(rows), WeightShares(rows));
    QuotBounds(SumOver(us, AucShares(rows)), SumOver(us, WeightShares(rows)), 0.5);
  }

  lemma MeanNdcgBounds(rows: seq<Row>, disc: seq<real>)
    requires Discounts(disc)
    ensures 0.0 <= MeanNdcgOf(rows, disc) <= 1.0
  {
    var us := Users(rows);
    forall u | u in us
      ensures 0.0 <= NdcgShares(rows, disc)(u) <= 1.0
    {
      NdcgShareBounds(RowsOf(rows, u), disc);
    }
    SumOfFractions(us, NdcgShares(rows, disc));
    QuotBounds(SumOver(us, NdcgShares(rows, disc)), |us| as real, 0.0);
  }

  /** Every metric lies in the unit interval. */
  lemma MetricsInUnitInterval(rows: seq<Row>, disc: seq<real>)
    requires Discounts(disc)
    ensures var m := MetricsOf(rows, disc);
            0.0 <= m.gauc <= 1.0 && 0.0 <= m.ndcg <= 1.0 && 0.0 <= m.primary <= 1.0
  {
    GaucBounds(rows);
    MeanNdcgBounds(rows, disc);
  }

  lemma WeightedBounds(n: nat, a: real)
    requires 0.0 <= a <= 1.0
    ensures 0.0 <= Weighted(n, a) <= n as real
  {
    assert n as real * (1.0 - a) >= 0.0;
  }

  lemma QuotBounds(a: real, b: real, c: real)
    requires 0.0 <= a <= b && 0.0 <= c <= 1.0
    ensures 0.0 <= Quot(a, b, c) <= 1.0
  {
    if b > 0.0 {
      Quotient(a, b);
    }
  }
}
