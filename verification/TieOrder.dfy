/** When the order of the rows matters to `evaluate` (kuairand-starter-kit/evaluate.py): exactly when a user has tied
    rows of both labels among its first ranked places. */
module TieOrder {
  import opened Sums
  import opened Sorting
  import opened Auc
  import opened Ndcg
  import opened Evaluate

  function Higher(s: real): Scored -> bool { (x: Scored) => x.score > s }

  /** How many rows score above s, which is where the rows that score s begin in the ranked order. */
  function Above(rows: seq<Scored>, s: real): nat { |Filter(Higher(s), rows)| }

  /** Rows that tie have one label, unless they begin only at place k or later. */
  predicate TieSafe(rows: seq<Scored>, k: nat) {
    forall x, y | x in rows && y in rows && x.score == y.score && x.rel != y.rel :: Above(rows, x.score) >= k
  }

  ghost predicate Descending(rows: seq<Scored>) { SortedBy(ByScoreDescending(), rows) }

  // ---------------------------------------------------------------- ranked lists

  lemma AbovePermute(rows: seq<Scored>, rows': seq<Scored>, s: real)
    requires multiset(rows) == multiset(rows')
    ensures Above(rows, s) == Above(rows', s)
  {
    FilterPermute(Higher(s), rows, rows');
    SameLength(Filter(Higher(s), rows), Filter(Higher(s), rows'));
  }

  lemma RankedDescends(rows: seq<Scored>)
    ensures Descending(Ranked(rows)) && |Ranked(rows)| == |rows|
  {
    StableSortSorted(ByScoreDescending(), rows);
    SameLength(Ranked(rows), rows);
  }

  lemma DescendingTail(rows: seq<Scored>)
    requires Descending(rows) && rows != []
    ensures Descending(rows[1..]) && forall x | x in rows[1..] :: rows[0].score >= x.score
  {
    forall i, j | 0 <= i < j < |rows[1..]|
      ensures ByScoreDescending()(rows[1..][i], rows[1..][j])
    {
      assert ByScoreDescending()(rows[i+1], rows[j+1]);
    }
    forall x | x in rows[1..]
      ensures rows[0].score >= x.score
    {
      var i :| 0 <= i < |rows[1..]| && rows[1..][i] == x;
      assert ByScoreDescending()(rows[0], rows[i+1]);
    }
  }

  /** In a descending list the rows above s are exactly those before place Above. */
  lemma {:induction false} AboveLeads(rows: seq<Scored>, s: real, q: nat)
    requires Descending(rows) && q < |rows|
    ensures q < Above(rows, s) <==> rows[q].score > s
  {
    hide Above, Descending;
    DescendingTail(rows);
    AboveHead(rows, s);
    if q > 0 {
      assert rows[q] in rows[1..];
      AboveLeads(rows[1..], s, q - 1);
    }
    if rows[0].score <= s {
      NoneAbove(rows, s);
    }
  }

  lemma AboveHead(rows: seq<Scored>, s: real)
    requires rows != []
    ensures Above(rows, s) == (if rows[0].score > s then 1 else 0) + Above(rows[1..], s)
  {
  }

  lemma {:induction false} NoneAbove(rows: seq<Scored>, s: real)
    requires forall x | x in rows :: x.score <= s
    ensures Above(rows, s) == 0
  {
    if rows != [] {
      assert rows[0] in rows;
      NoneAbove(rows[1..], s);
    }
  }

  /** Two rankings of the same rows show the same score at every place. */
  lemma SameScoreAt(r: seq<Scored>, r': seq<Scored>, q: nat)
    requires Descending(r) && Descending(r') && multiset(r) == multiset(r') && q < |r|
    ensures q < |r'| && r[q].score == r'[q].score
  {
    SameLength(r, r');
    AbovePermute(r, r', r[q].score);
    AbovePermute(r, r', r'[q].score);
    AboveLeads(r, r'[q].score, q);
    AboveLeads(r', r'[q].score, q);
    AboveLeads(r, r[q].score, q);
    AboveLeads(r', r[q].score, q);
  }

  // ---------------------------------------------------------------- safe ties

  lemma SafeLabelAt(r: seq<Scored>, r': seq<Scored>, k: nat, q: nat)
    requires Descending(r) && Descending(r') && multiset(r) == multiset(r') && TieSafe(r, k)
    requires q < |r| && q < k
    ensures q < |r'| && r[q].rel == r'[q].rel
  {
    SameScoreAt(r, r', q);
    AboveLeads(r, r[q].score, q);
    SameMembers(r, r', r'[q]);
  }

  /** Only the first |disc| labels count. */
  lemma {:induction false} DcgOfPrefix(a: seq<Label>, b: seq<Label>, disc: seq<real>)
    requires |a| == |b| && forall q | 0 <= q < |a| && q < |disc| :: a[q] == b[q]
    ensures Dcg(a, disc) == Dcg(b, disc)
  {
    if a != [] && disc != [] {
      assert a[0] == b[0];
      forall q | 0 <= q < |a[1..]| && q < |disc[1..]|
        ensures a[1..][q] == b[1..][q]
      {
        assert a[q+1] == b[q+1];
      }
      DcgOfPrefix(a[1..], b[1..], disc[1..]);
    }
  }

  lemma SameIdeal(rows: seq<Scored>, rows': seq<Scored>, disc: seq<real>)
    requires multiset(rows) == multiset(rows') && Discounts(disc)
    ensures Dcg(StableSort(DescendingLabels(), LabelsOf(Ranked(rows))), disc)
         == Dcg(StableSort(DescendingLabels(), LabelsOf(Ranked(rows'))), disc)
  {
    IdealOrder(LabelsOf(Ranked(rows)), disc);
    IdealOrder(LabelsOf(Ranked(rows')), disc);
    RankedColumns(rows);
    RankedColumns(rows');
    ScoresPermute(rows, rows', 1);
    SameLength(ScoresOf(rows, 1), ScoresOf(rows', 1));
  }

  lemma TieSafePermute(rows: seq<Scored>, rows': seq<Scored>, k: nat)
    requires multiset(rows) == multiset(rows') && TieSafe(rows, k)
    ensures TieSafe(rows', k)
  {
    forall x, y | x in rows' && y in rows' && x.score == y.score && x.rel != y.rel
      ensures Above(rows', x.score) >= k
    {
      SameMembers(rows, rows', x);
      SameMembers(rows, rows', y);
      AbovePermute(rows, rows', x.score);
    }
  }

  lemma SafeShare(rows: seq<Scored>, rows': seq<Scored>, disc: seq<real>)
    requires multiset(rows) == multiset(rows') && Discounts(disc) && TieSafe(rows, |disc|)
    ensures NdcgShare(rows', disc) == NdcgShare(rows, disc)
  {
    var r, r' := Ranked(rows), Ranked(rows');
    RankedDescends(rows);
    RankedDescends(rows');
    SameLength(rows, rows');
    TieSafePermute(rows, r, |disc|);
    forall q | 0 <= q < |r| && q < |disc|
      ensures LabelsOf(r)[q] == LabelsOf(r')[q]
    {
      SafeLabelAt(r, r', |disc|, q);
    }
    DcgOfPrefix(LabelsOf(r), LabelsOf(r'), disc);
    SameIdeal(rows, rows', disc);
  }

  // ---------------------------------------------------------------- unsafe ties

  lemma {:induction false} SortedIsFixed<T>(le: (T, T) -> bool, xs: seq<T>)
    requires SortedBy(le, xs)
    ensures StableSort(le, xs) == xs
  {
    if xs != [] {
      SortedIsFixed(le, xs[1..]);
      if |xs| > 1 {
        assert le(xs[0], xs[1]);
      }
    }
  }

  /** Takes one row out of a descending list. */
  lemma TakeOut(r: seq<Scored>, x: Scored, a: nat) returns (e: seq<Scored>)
    requires Descending(r) && x in r && a == Above(r, x.score)
    ensures multiset(r) == multiset{x} + multiset(e) && Descending(e)
    ensures a <= |e| && forall q | 0 <= q < |e| :: e[q].score > x.score <==> q < a
  {
    var p: nat :| p < |r| && r[p] == x;
    e := r[..p] + r[p+1..];
    AboveLeads(r, x.score, p);
    WithoutOne(r, p);
    assert multiset(r) == multiset{x} + multiset(e);
    forall q | 0 <= q < |e|
      ensures e[q].score > x.score <==> q < a
    {
      AboveLeads(r, x.score, if q < p then q else q + 1);
    }
    TakeOutDescends(r, p);
  }

  lemma TakeOutDescends(r: seq<Scored>, p: nat)
    requires Descending(r) && p < |r|
    ensures Descending(r[..p] + r[p+1..])
  {
    var e := r[..p] + r[p+1..];
    forall i, j | 0 <= i < j < |e|
      ensures ByScoreDescending()(e[i], e[j])
    {
      assert ByScoreDescending()(r[if i < p then i else i + 1], r[if j < p then j else j + 1]);
    }
  }

  /** A descending list with two tied rows put in front of their equals. */
  function PutIn(e: seq<Scored>, a: nat, x: Scored, y: Scored): seq<Scored>
    requires a <= |e|
  {
    e[..a] + [x, y] + e[a..]
  }

  lemma PutInDescends(e: seq<Scored>, a: nat, x: Scored, y: Scored)
    requires Descending(e) && a <= |e| && x.score == y.score
    requires forall q | 0 <= q < |e| :: e[q].score > x.score <==> q < a
    ensures Descending(PutIn(e, a, x, y))
  {
    var t := PutIn(e, a, x, y);
    forall i, j | 0 <= i < j < |t|
      ensures ByScoreDescending()(t[i], t[j])
    {
      var i' := if i < a then i else i - 2;
      var j' := if j < a then j else j - 2;
      if (i < a || i >= a + 2) && (j < a || j >= a + 2) {
        assert ByScoreDescending()(e[i'], e[j']);
      }
    }
  }

  lemma PutInMultiset(e: seq<Scored>, a: nat, x: Scored, y: Scored)
    requires a <= |e|
    ensures multiset(PutIn(e, a, x, y)) == multiset{x} + multiset{y} + multiset(e)
  {
    assert e == e[..a] + e[a..];
    assert multiset([x, y]) == multiset{x} + multiset{y};
  }

  lemma {:induction false} LabelsConcat(a: seq<Scored>, b: seq<Scored>)
    ensures LabelsOf(a + b) == LabelsOf(a) + LabelsOf(b)
  {
    assert forall i | 0 <= i < |a + b| :: LabelsOf(a + b)[i] == (LabelsOf(a) + LabelsOf(b))[i];
  }

  lemma PutInLabels(e: seq<Scored>, a: nat, x: Scored, y: Scored)
    requires a <= |e|
    ensures LabelsOf(PutIn(e, a, x, y)) == LabelsOf(e[..a]) + [x.rel, y.rel] + LabelsOf(e[a..])
  {
    LabelsConcat(e[..a] + [x, y], e[a..]);
    LabelsConcat(e[..a], [x, y]);
    assert LabelsOf([x, y]) == [x.rel, y.rel];
  }

  /** Two arrangements of a list with an early mixed tie score differently. */
  lemma TwoArrangements(rows: seq<Scored>, x: Scored, y: Scored, disc: seq<real>)
    returns (low: seq<Scored>, high: seq<Scored>)
    requires Discounts(disc) && x in rows && y in rows && x.score == y.score && x.rel == 0 && y.rel == 1
    requires Above(rows, x.score) < |disc|
    ensures multiset(low) == multiset(high) == multiset(rows)
    ensures NdcgShare(low, disc) < NdcgShare(high, disc)
  {
    hide Above, Descending, PutIn, NdcgShare, Ranked, Discounts;
    var a := Above(rows, x.score);
    var e := TakeBoth(rows, x, y);
    low, high := PutIn(e, a, x, y), PutIn(e, a, y, x);
    PutInMultiset(e, a, x, y);
    PutInMultiset(e, a, y, x);
    PutInShare(e, a, x, y, disc);
    PutInShare(e, a, y, x, disc);
    NdcgSwap(LabelsOf(e[..a]), LabelsOf(e[a..]), disc);
  }

  lemma TakeBoth(rows: seq<Scored>, x: Scored, y: Scored) returns (e: seq<Scored>)
    requires x in rows && y in rows && x.score == y.score && x.rel != y.rel
    ensures multiset(rows) == multiset{x} + multiset{y} + multiset(e) && Descending(e)
    ensures Above(rows, x.score) <= |e|
    ensures forall q | 0 <= q < |e| :: e[q].score > x.score <==> q < Above(rows, x.score)
  {
    hide Above, Descending, Ranked;
    var r, a := Ranked(rows), Above(rows, x.score);
    RankedDescends(rows);
    AbovePermute(rows, r, x.score);
    SameMembers(rows, r, x);
    SameMembers(rows, r, y);
    var d := TakeOut(r, x, a);
    assert y in multiset(r) && y in multiset(d);
    AboveAfter(d, x.score, a);
    e := TakeOut(d, y, a);
  }

  /** A descending list is ranked as it stands. */
  lemma PutInShare(e: seq<Scored>, a: nat, x: Scored, y: Scored, disc: seq<real>)
    requires Descending(e) && a <= |e| && x.score == y.score
    requires forall q | 0 <= q < |e| :: e[q].score > x.score <==> q < a
    ensures NdcgShare(PutIn(e, a, x, y), disc) == NdcgOf(LabelsOf(e[..a]) + [x.rel, y.rel] + LabelsOf(e[a..]), disc)
  {
    hide NdcgOf, PutIn;
    PutInDescends(e, a, x, y);
    SortedIsFixed(ByScoreDescending(), PutIn(e, a, x, y));
    PutInLabels(e, a, x, y);
  }

  /** The rows above s are counted by where they end. */
  lemma AboveAfter(d: seq<Scored>, s: real, a: nat)
    requires Descending(d) && a <= |d| && forall q | 0 <= q < |d| :: d[q].score > s <==> q < a
    ensures Above(d, s) == a
  {
    if Above(d, s) < |d| {
      AboveLeads(d, s, Above(d, s));
    }
    if a < |d| {
      AboveLeads(d, s, a);
    }
    if 0 < a {
      AboveLeads(d, s, a - 1);
    }
  }

  /** nDCG of one user's list is the same for every order of its rows if and only if no rows that tie from one of
      the first |disc| ranked places on have both labels. */
  lemma TieOrderExactly(rows: seq<Scored>, disc: seq<real>)
    requires Discounts(disc)
    ensures (forall rows' | multiset(rows') == multiset(rows) :: NdcgShare(rows', disc) == NdcgShare(rows, disc))
       <==> TieSafe(rows, |disc|)
  {
    if TieSafe(rows, |disc|) {
      forall rows' | multiset(rows') == multiset(rows)
        ensures NdcgShare(rows', disc) == NdcgShare(rows, disc)
      {
        SafeShare(rows, rows', disc);
      }
    } else {
      var low, high := UnsafeArrangements(rows, disc);
      assert NdcgShare(low, disc) != NdcgShare(rows, disc) || NdcgShare(high, disc) != NdcgShare(rows, disc);
    }
  }

  lemma UnsafeArrangements(rows: seq<Scored>, disc: seq<real>) returns (low: seq<Scored>, high: seq<Scored>)
    requires Discounts(disc) && !TieSafe(rows, |disc|)
    ensures multiset(low) == multiset(high) == multiset(rows)
    ensures NdcgShare(low, disc) < NdcgShare(high, disc)
  {
    var x, y :| x in rows && y in rows && x.score == y.score && x.rel != y.rel && Above(rows, x.score) < |disc|;
    if x.rel == 0 {
      low, high := TwoArrangements(rows, x, y, disc);
    } else {
      low, high := TwoArrangements(rows, y, x, disc);
    }
  }

  // ---------------------------------------------------------------- all users

  ghost predicate AllTieSafe(rows: seq<Row>, k: nat) { forall u :: TieSafe(RowsOf(rows, u), k) }

  lemma SafeMetrics(rows: seq<Row>, rows': seq<Row>, disc: seq<real>)
    requires multiset(rows) == multiset(rows') && Discounts(disc) && AllTieSafe(rows, |disc|)
    ensures MetricsOf(rows', disc) == MetricsOf(rows, disc)
  {
    hide TieSafe, NdcgShare, MeanNdcgOf, GaucOf;
    forall u
      ensures RowsOf(rows, u) == [] <==> RowsOf(rows', u) == []
      ensures NdcgShare(RowsOf(rows, u), disc) == NdcgShare(RowsOf(rows', u), disc)
    {
      RowsOfPermute(rows, rows', u);
      SameLength(RowsOf(rows, u), RowsOf(rows', u));
      SafeShare(RowsOf(rows, u), RowsOf(rows', u), disc);
    }
    NdcgFromUserLists(rows, rows', disc);
    GaucPermutation(rows, rows');
    SameUsers(rows, rows');
    SameLength(rows, rows');
  }

  function NotUser(u: int): Row -> bool { (x: Row) => x.user != u }

  function AsRow(u: int): Scored -> Row { (x: Scored) => Row(u, x.rel, x.score) }

  /** The rows with one user's list rearranged, moved behind all others. */
  function WithList(rows: seq<Row>, u: int, list: seq<Scored>): seq<Row> {
    Filter(NotUser(u), rows) + Map(AsRow(u), list)
  }

  lemma {:induction false} RowsOfOthers(rows: seq<Row>, u: int, v: int)
    ensures RowsOf(Filter(NotUser(u), rows), v) == if v == u then [] else RowsOf(rows, v)
  {
    if rows != [] {
      var n := |rows| - 1;
      RowsOfOthers(rows[..n], u, v);
      assert rows == rows[..n] + [rows[n]];
      FilterConcat(NotUser(u), rows[..n], [rows[n]]);
      RowsOfConcat(Filter(NotUser(u), rows[..n]), Filter(NotUser(u), [rows[n]]), v);
      OneRow(rows[n], v);
    }
  }

  lemma OneRow(row: Row, v: int)
    ensures RowsOf([row], v) == if row.user == v then [Scored(row.score, row.rel)] else []
  {
    var none: seq<Row> := [];
    assert [row][..0] == none;
    assert RowsOf(none, v) == [];
  }

  lemma {:induction false} RowsOfTagged(u: int, list: seq<Scored>, v: int)
    ensures RowsOf(Map(AsRow(u), list), v) == if v == u then list else []
  {
    if list != [] {
      RowsOfTagged(u, list[1..], v);
      var first := AsRow(u)(list[0]);
      assert Map(AsRow(u), list) == [first] + Map(AsRow(u), list[1..]);
      RowsOfConcat([first], Map(AsRow(u), list[1..]), v);
      OneRow(first, v);
    }
  }

  lemma RowsOfWithList(rows: seq<Row>, u: int, list: seq<Scored>, v: int)
    ensures RowsOf(WithList(rows, u, list), v) == if v == u then list else RowsOf(rows, v)
  {
    RowsOfConcat(Filter(NotUser(u), rows), Map(AsRow(u), list), v);
    RowsOfOthers(rows, u, v);
    RowsOfTagged(u, list, v);
  }

  /** Moving a user's rows behind all others loses none. */
  lemma {:induction false} WithOwnList(rows: seq<Row>, u: int)
    ensures multiset(WithList(rows, u, RowsOf(rows, u))) == multiset(rows)
  {
    if rows != [] {
      var n := |rows| - 1;
      var front, last := rows[..n], rows[n];
      WithOwnList(front, u);
      assert rows == front + [last];
      FilterConcat(NotUser(u), front, [last]);
      if last.user == u {
        var x := Scored(last.score, last.rel);
        MapConcat(AsRow(u), RowsOf(front, u), [x]);
        assert Map(AsRow(u), [x]) == [last];
        assert Filter(NotUser(u), [last]) == [];
      } else {
        assert Filter(NotUser(u), [last]) == [last];
      }
    }
  }

  lemma WithListPermutes(rows: seq<Row>, u: int, list: seq<Scored>)
    requires multiset(list) == multiset(RowsOf(rows, u))
    ensures multiset(WithList(rows, u, list)) == multiset(rows)
  {
    MapPermute(AsRow(u), list, RowsOf(rows, u));
    WithOwnList(rows, u);
  }

  /** Two ways to list one user, of which one scores higher. */
  lemma ListsMatter(rows: seq<Row>, u: int, low: seq<Scored>, high: seq<Scored>, disc: seq<real>)
    requires low != [] && high != [] && NdcgShare(low, disc) < NdcgShare(high, disc)
    ensures MeanNdcgOf(WithList(rows, u, low), disc) < MeanNdcgOf(WithList(rows, u, high), disc)
  {
    hide NdcgShare, WithList;
    var a, b := WithList(rows, u, low), WithList(rows, u, high);
    forall v
      ensures RowsOf(a, v) == [] <==> RowsOf(b, v) == []
      ensures NdcgShare(RowsOf(a, v), disc) <= NdcgShare(RowsOf(b, v), disc)
    {
      RowsOfWithList(rows, u, low, v);
      RowsOfWithList(rows, u, high, v);
    }
    RowsOfWithList(rows, u, low, u);
    RowsOfWithList(rows, u, high, u);
    SameUsers(a, b);
    var us, us' := Users(a), Users(b);
    assert u in us;
    SumStrict(us, NdcgShares(a, disc), NdcgShares(b, disc), u);
    SumPermute(us, us', NdcgShares(b, disc));
    DivideOrder(SumOver(us, NdcgShares(a, disc)), SumOver(us', NdcgShares(b, disc)), |us| as real);
  }

  lemma UnsafeMetrics(rows: seq<Row>, u: int, disc: seq<real>) returns (rows': seq<Row>)
    requires Discounts(disc) && !TieSafe(RowsOf(rows, u), |disc|)
    ensures multiset(rows') == multiset(rows) && MetricsOf(rows', disc) != MetricsOf(rows, disc)
  {
    hide TieSafe, NdcgShare, WithList, MeanNdcgOf, GaucOf;
    var low, high := UnsafeArrangements(RowsOf(rows, u), disc);
    UnsafeIsNotEmpty(RowsOf(rows, u), |disc|);
    SameLength(low, RowsOf(rows, u));
    SameLength(high, RowsOf(rows, u));
    WithListPermutes(rows, u, low);
    WithListPermutes(rows, u, high);
    ListsMatter(rows, u, low, high, disc);
    rows' := if MetricsOf(WithList(rows, u, low), disc) != MetricsOf(rows, disc) then WithList(rows, u, low)
             else WithList(rows, u, high);
  }

  lemma UnsafeIsNotEmpty(rows: seq<Scored>, k: nat)
    requires !TieSafe(rows, k)
    ensures rows != []
  {
  }

  /** The metrics are the same for every order of the rows if and only if no user has rows that tie from one of its
      first |disc| ranked places on and have both labels. */
  lemma RowOrderExactly(rows: seq<Row>, disc: seq<real>)
    requires Discounts(disc)
    ensures (forall rows' | multiset(rows') == multiset(rows) :: MetricsOf(rows', disc) == MetricsOf(rows, disc))
       <==> forall u :: TieSafe(RowsOf(rows, u), |disc|)
  {
    hide TieSafe, MetricsOf;
    if AllTieSafe(rows, |disc|) {
      forall rows' | multiset(rows') == multiset(rows)
        ensures MetricsOf(rows', disc) == MetricsOf(rows, disc)
      {
        SafeMetrics(rows, rows', disc);
      }
    } else {
      var u :| !TieSafe(RowsOf(rows, u), |disc|);
      var rows' := UnsafeMetrics(rows, u, disc);
    }
  }

  /** In particular: when no user has two rows with one score and two labels, whatever the number of places. */
  lemma UntiedRowOrder(rows: seq<Row>, rows': seq<Row>, disc: seq<real>)
    requires multiset(rows) == multiset(rows') && Discounts(disc)
    requires forall x, y | x in rows && y in rows && x.user == y.user && x.score == y.score :: x.rel == y.rel
    ensures MetricsOf(rows', disc) == MetricsOf(rows, disc)
  {
    hide MetricsOf;
    forall u
      ensures TieSafe(RowsOf(rows, u), |disc|)
    {
      forall x, y | x in RowsOf(rows, u) && y in RowsOf(rows, u) && x.score == y.score
        ensures x.rel == y.rel
      {
        RowBehind(rows, u, x);
        RowBehind(rows, u, y);
      }
    }
    SafeMetrics(rows, rows', disc);
  }

  lemma {:induction false} RowBehind(rows: seq<Row>, u: int, x: Scored)
    requires x in RowsOf(rows, u)
    ensures Row(u, x.rel, x.score) in rows
  {
    if rows != [] {
      var n := |rows| - 1;
      if x in RowsOf(rows[..n], u) {
        RowBehind(rows[..n], u, x);
      }
    }
  }
}
