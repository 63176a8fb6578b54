/** The official metrics of kuairand-starter-kit/evaluate.py as plain sums over rows, places and users. Functions that
    give the summands are parameters, fixed by what they are at each index. */
module MetricLaws {
  import opened Sums
  import opened Sorting
  import opened Auc
  import opened Ndcg
  import opened Evaluate
  import opened TieOrder
  import opened Vectors

  // ---------------------------------------------------------------- AUC over pairs of rows

  lemma ScoresSnoc(rows: seq<Scored>, k: nat, l: Label)
    requires k < |rows|
    ensures ScoresOf(rows[..k+1], l)
         == if rows[k].rel == l then ScoresOf(rows[..k], l) + [rows[k].score] else ScoresOf(rows[..k], l)
  {
    assert rows[..k+1] == rows[..k] + [rows[k]];
    ScoresConcat(rows[..k], [rows[k]], l);
    assert [rows[k]][1..] == [];
  }

  /** One score against the negatives among the first k rows. */
  lemma {:induction false} WinsOverRows(rows: seq<Scored>, s: real, wins: nat -> real, k: nat)
    requires k <= |rows|
    requires forall j: nat {:trigger wins(j)} | j < |rows| ::
               wins(j) == if rows[j].rel != 0 then 0.0
                          else if s > rows[j].score then 1.0 else if s == rows[j].score then 0.5 else 0.0
    ensures WinsAgainst(s, ScoresOf(rows[..k], 0)) == SumOver(Range(k), wins)
  {
    if k > 0 {
      WinsOverRows(rows, s, wins, k - 1);
      ScoresSnoc(rows, k - 1, 0);
      RangeSnoc(k - 1, wins);
      WinsConcat(s, ScoresOf(rows[..k-1], 0), [rows[k-1].score]);
      assert [rows[k-1].score][1..] == [];
    }
  }

  lemma {:induction false} CountOverRows(rows: seq<Scored>, ones: nat -> real, l: Label, k: nat)
    requires k <= |rows| && forall j: nat | j < |rows| :: ones(j) == if rows[j].rel == l then 1.0 else 0.0
    ensures |ScoresOf(rows[..k], l)| as real == SumOver(Range(k), ones)
  {
    if k > 0 {
      CountOverRows(rows, ones, l, k - 1);
      ScoresSnoc(rows, k - 1, l);
      RangeSnoc(k - 1, ones);
    }
  }

  lemma {:induction false} ZeroSum(n: nat, f: nat -> real)
    requires forall j: nat | j < n :: f(j) == 0.0
    ensures SumOver(Range(n), f) == 0.0
  {
    if n > 0 {
      ZeroSum(n - 1, f);
      RangeSnoc(n - 1, f);
    }
  }

  lemma CrossOfOne(s: real, ys: seq<real>)
    ensures CrossWins([s], ys) == WinsAgainst(s, ys)
  {
    assert [s][1..] == [];
  }

  /** The positives among the first k rows against all negatives. */
  lemma {:induction false} CrossOverRows(rows: seq<Scored>, wins: nat -> nat -> real, winSums: nat -> real, k: nat)
    requires k <= |rows|
    requires forall i: nat, j: nat {:trigger wins(i)(j)} | i < |rows| && j < |rows| ::
               wins(i)(j) == if rows[i].rel != 1 || rows[j].rel != 0 then 0.0
                             else if rows[i].score > rows[j].score then 1.0
                             else if rows[i].score == rows[j].score then 0.5 else 0.0
    requires forall i: nat | i < |rows| :: winSums(i) == SumOver(Range(|rows|), wins(i))
    ensures CrossWins(ScoresOf(rows[..k], 1), ScoresOf(rows, 0)) == SumOver(Range(k), winSums)
  {
    if k > 0 {
      var i := k - 1;
      CrossOverRows(rows, wins, winSums, i);
      ScoresSnoc(rows, i, 1);
      RangeSnoc(i, winSums);
      hide SumOver, ScoresOf, CrossWins;
      if rows[i].rel == 1 {
        assert forall j: nat | j < |rows| ::
            wins(i)(j) == if rows[j].rel != 0 then 0.0 else if rows[i].score > rows[j].score then 1.0
                          else if rows[i].score == rows[j].score then 0.5 else 0.0;
        WinsOverRows(rows, rows[i].score, wins(i), |rows|);
        assert rows[..|rows|] == rows;
        CrossConcatLeft(ScoresOf(rows[..i], 1), [rows[i].score], ScoresOf(rows, 0));
        CrossOfOne(rows[i].score, ScoresOf(rows, 0));
      } else {
        ZeroSum(|rows|, wins(i));
      }
    }
  }

  lemma {:induction false} PairsOverRows(rows: seq<Scored>, pairs: nat -> nat -> real, pairSums: nat -> real, k: nat)
    requires k <= |rows|
    requires forall i: nat, j: nat {:trigger pairs(i)(j)} | i < |rows| && j < |rows| ::
               pairs(i)(j) == if rows[i].rel == 1 && rows[j].rel == 0 then 1.0 else 0.0
    requires forall i: nat | i < |rows| :: pairSums(i) == SumOver(Range(|rows|), pairs(i))
    ensures SumOver(Range(k), pairSums) == (|ScoresOf(rows[..k], 1)| * |ScoresOf(rows, 0)|) as real
  {
    if k > 0 {
      var i := k - 1;
      hide SumOver, ScoresOf;
      var p, n := |ScoresOf(rows[..i], 1)|, |ScoresOf(rows, 0)|;
      PairsOverRows(rows, pairs, pairSums, i);
      ScoresSnoc(rows, i, 1);
      RangeSnoc(i, pairSums);
      if rows[i].rel == 1 {
        assert forall j: nat | j < |rows| :: pairs(i)(j) == if rows[j].rel == 0 then 1.0 else 0.0;
        CountOverRows(rows, pairs(i), 0, |rows|);
        assert rows[..|rows|] == rows;
        OneMore(p, n);
      } else {
        ZeroSum(|rows|, pairs(i));
      }
    }
  }

  lemma OneMore(p: nat, n: nat)
    ensures ((p + 1) * n) as real == (p * n) as real + n as real
  {
  }

  /** The AUC is the share of pairs of a positive and a negative row that are ranked correctly, ties counting half;
      and one half if there is no such pair. */
  lemma AucValue(rows: seq<Scored>, pairs: nat -> nat -> real, wins: nat -> nat -> real, pairSums: nat -> real,
                 winSums: nat -> real)
    requires forall i: nat, j: nat {:trigger pairs(i)(j)} | i < |rows| && j < |rows| ::
               pairs(i)(j) == if rows[i].rel == 1 && rows[j].rel == 0 then 1.0 else 0.0
    requires forall i: nat, j: nat {:trigger wins(i)(j)} | i < |rows| && j < |rows| ::
               wins(i)(j) == if rows[i].rel != 1 || rows[j].rel != 0 then 0.0
                             else if rows[i].score > rows[j].score then 1.0
                             else if rows[i].score == rows[j].score then 0.5 else 0.0
    requires forall i: nat | i < |rows| :: pairSums(i) == SumOver(Range(|rows|), pairs(i))
    requires forall i: nat | i < |rows| :: winSums(i) == SumOver(Range(|rows|), wins(i))
    ensures AucOf(rows) * SumOver(Range(|rows|), pairSums) == SumOver(Range(|rows|), winSums)
    ensures SumOver(Range(|rows|), pairSums) == 0.0 ==> AucOf(rows) == 0.5
  {
    hide SumOver, ScoresOf, CrossWins, Ratio, Range;
    CrossOverRows(rows, wins, winSums, |rows|);
    PairsOverRows(rows, pairs, pairSums, |rows|);
    assert rows[..|rows|] == rows;
    var ps, ns := ScoresOf(rows, 1), ScoresOf(rows, 0);
    if |ps| == 0 || |ns| == 0 {
      NothingCrossed(ps, ns);
    } else {
      ProductPositive(|ps|, |ns|);
      Undivide(CrossWins(ps, ns), |ps| * |ns|);
    }
  }

  lemma ProductPositive(a: nat, b: nat)
    requires a > 0 && b > 0
    ensures a * b > 0
  {
  }

  lemma {:induction false} NothingCrossed(ps: seq<real>, ns: seq<real>)
    requires ps == [] || ns == []
    ensures CrossWins(ps, ns) == 0.0 && |ps| * |ns| == 0
  {
    if ps != [] {
      NothingCrossed(ps[1..], ns);
    }
  }

  lemma Undivide(a: real, n: nat)
    requires n > 0
    ensures Ratio(a, n) * n as real == a
  {
  }

  // ---------------------------------------------------------------- nDCG over places

  lemma {:induction false} DcgFrom(labels: seq<Label>, disc: seq<real>, gains: nat -> real, m: nat, o: nat)
    requires Discounts(disc) && o <= m == if |labels| <= |disc| then |labels| else |disc|
    requires forall i: nat | i < m :: gains(i) == labels[i] as real / disc[i]
    ensures Dcg(labels[o..], disc[o..]) == SumOver(Range(m)[o..], gains)
    decreases m - o
  {
    if o < m {
      DcgFrom(labels, disc, gains, m, o + 1);
      assert labels[o..][1..] == labels[o+1..] && disc[o..][1..] == disc[o+1..];
      assert Range(m)[o..][1..] == Range(m)[o+1..];
    }
  }

  lemma {:induction false} IdealFrom(n: nat, disc: seq<real>, weights: nat -> real, m: nat, o: nat)
    requires Discounts(disc) && o <= m == if n <= |disc| then n else |disc|
    requires forall i: nat | i < m :: weights(i) == 1.0 / disc[i]
    ensures Ideal(n - o, disc[o..]) == SumOver(Range(m)[o..], weights)
    decreases m - o
  {
    if o < m {
      IdealFrom(n, disc, weights, m, o + 1);
      assert disc[o..][1..] == disc[o+1..];
      assert Range(m)[o..][1..] == Range(m)[o+1..];
    }
  }

  lemma {:induction false} OnesOverPlaces(labels: seq<Label>, ones: nat -> real, k: nat)
    requires k <= |labels| && forall i: nat | i < |labels| :: ones(i) == labels[i] as real
    ensures CountOnes(labels[..k]) as real == SumOver(Range(k), ones)
  {
    if k > 0 {
      OnesOverPlaces(labels, ones, k - 1);
      RangeSnoc(k - 1, ones);
      assert labels[..k] == labels[..k-1] + [labels[k-1]];
      CountOnesConcat(labels[..k-1], [labels[k-1]]);
      assert [labels[k-1]][1..] == [];
    }
  }

  /** The nDCG of a ranked list with a positive is the discounted count of its first positives, divided by that of as
      many positives in a row; without a positive it is zero. */
  lemma NdcgValue(labels: seq<Label>, disc: seq<real>, ones: nat -> real, gains: nat -> real, weights: nat -> real,
                  npos: nat)
    requires Discounts(disc)
    requires forall i: nat | i < |labels| :: ones(i) == labels[i] as real
    requires npos as real == SumOver(Range(|labels|), ones)
    requires forall i: nat | i < |labels| && i < |disc| :: gains(i) == labels[i] as real / disc[i]
    requires forall i: nat | i < |disc| :: weights(i) == 1.0 / disc[i]
    ensures NdcgOf(labels, disc) * SumOver(Range(if npos <= |disc| then npos else |disc|), weights)
         == SumOver(Range(if |labels| <= |disc| then |labels| else |disc|), gains)
    ensures npos == 0 || disc == [] ==> NdcgOf(labels, disc) == 0.0
    ensures npos > 0 && disc != [] ==> SumOver(Range(if npos <= |disc| then npos else |disc|), weights) > 0.0
  {
    hide NdcgOf, Dcg, Ideal, SumOver, CountOnes;
    OnesOverPlaces(labels, ones, |labels|);
    assert labels[..|labels|] == labels;
    NdcgTimesIdeal(labels, disc);
    IdealPositive(npos, disc);
    var m := if npos <= |disc| then npos else |disc|;
    IdealFrom(npos, disc, weights, m, 0);
    var l := if |labels| <= |disc| then |labels| else |disc|;
    DcgFrom(labels, disc, gains, l, 0);
    assert Range(m)[0..] == Range(m) && Range(l)[0..] == Range(l) && labels[0..] == labels && disc[0..] == disc;
  }

  lemma NdcgParts(labels: seq<Label>, disc: seq<real>)
    requires Discounts(disc)
    ensures var ideal := Ideal(CountOnes(labels), disc);
            && 0.0 <= Dcg(labels, disc) <= ideal
            && NdcgOf(labels, disc) == if ideal == 0.0 then 0.0 else Dcg(labels, disc) / ideal
  {
    IdealOrder(labels, disc);
    DcgVersusIdeal(labels, disc);
  }

  lemma NdcgTimesIdeal(labels: seq<Label>, disc: seq<real>)
    requires Discounts(disc)
    ensures NdcgOf(labels, disc) * Ideal(CountOnes(labels), disc) == Dcg(labels, disc)
    ensures Ideal(CountOnes(labels), disc) == 0.0 ==> NdcgOf(labels, disc) == 0.0
  {
    hide *;
    NdcgParts(labels, disc);
    var ideal := Ideal(CountOnes(labels), disc);
    if ideal != 0.0 {
      TimesBack(Dcg(labels, disc), ideal);
    }
  }

  lemma TimesBack(a: real, b: real)
    requires b != 0.0
    ensures (a / b) * b == a
  {
  }

  // ---------------------------------------------------------------- ranking

  function Level(s: real): Scored -> bool { (x: Scored) => x.score == s }

  lemma SpliceHead(ys: seq<Scored>, x: Scored, p: nat)
    requires ys != [] && p <= |ys| - 1
    ensures [ys[0]] + (ys[1..][..p] + [x] + ys[1..][p..]) == ys[..p+1] + [x] + ys[p+1..]
  {
    assert ys[1..][p..] == ys[p+1..] && [ys[0]] + ys[1..][..p] == ys[..p+1];
  }

  lemma InsertStep(x: Scored, ys: seq<Scored>)
    ensures Insert(ByScoreDescending(), x, ys)
         == if ys == [] || x.score >= ys[0].score then [x] + ys
            else [ys[0]] + Insert(ByScoreDescending(), x, ys[1..])
  {
  }

  /** Inserting a row puts it behind exactly those that score higher. */
  lemma {:induction false} InsertAt(x: Scored, ys: seq<Scored>)
    requires Descending(ys)
    ensures Above(ys, x.score) <= |ys|
    ensures Insert(ByScoreDescending(), x, ys)
         == ys[..Above(ys, x.score)] + [x] + ys[Above(ys, x.score)..]
  {
    hide Insert, Descending;
    InsertStep(x, ys);
    if ys != [] {
      AboveHead(ys, x.score);
      DescendingTail(ys);
      hide Above;
      if ys[0].score > x.score {
        InsertAt(x, ys[1..]);
        SpliceHead(ys, x, Above(ys[1..], x.score));
      } else {
        NoneAbove(ys, x.score);
      }
    }
  }

  /** Where a row of the rest is found after the first row is put in its place. */
  lemma InsertedAt(x: Scored, ys: seq<Scored>, q: nat)
    requires Descending(ys) && q < |ys|
    ensures var zs := Insert(ByScoreDescending(), x, ys);
            var place := if ys[q].score > x.score then q else q + 1;
            place < |zs| == |ys| + 1 && zs[place] == ys[q]
  {
    hide Insert, Descending, Above;
    InsertAt(x, ys);
    AboveLeads(ys, x.score, q);
  }

  lemma FirstAt(x: Scored, ys: seq<Scored>)
    requires Descending(ys)
    ensures var zs, p := Insert(ByScoreDescending(), x, ys), Above(ys, x.score);
            p < |zs| == |ys| + 1 && zs[p] == x
  {
    hide Insert, Descending, Above;
    InsertAt(x, ys);
  }

  /** How many rows stand before row n in the ranking: those that score higher, and those before it in the list that
      score the same. */
  function Ahead(rows: seq<Scored>, n: nat): nat
    requires n < |rows|
  {
    |Filter(Higher(rows[n].score), rows)| + |Filter(Level(rows[n].score), rows[..n])|
  }

  lemma AheadStep(rows: seq<Scored>, n: nat)
    requires n < |rows|
    ensures n == 0 ==> Ahead(rows, n) == Above(rows[1..], rows[0].score)
    ensures n > 0 ==>
              Ahead(rows, n) == Ahead(rows[1..], n - 1) + if rows[n].score > rows[0].score then 0 else 1
  {
    AboveHead(rows, rows[n].score);
    if n > 0 {
      assert rows[..n][1..] == rows[1..][..n-1];
    } else {
      assert rows[..0] == [];
    }
  }

  /** A row is ranked behind those that score higher and those before it that score the same. */
  lemma RankedExactly(rows: seq<Scored>, n: nat)
    requires n < |rows|
    ensures var place := |Filter(Higher(rows[n].score), rows)| + |Filter(Level(rows[n].score), rows[..n])|;
            place < |Ranked(rows)| == |rows| && Ranked(rows)[place] == rows[n]
  {
    RankedDescends(rows);
    RankedPlace(rows, n);
  }

  lemma {:induction false} RankedPlace(rows: seq<Scored>, n: nat)
    requires n < |rows|
    ensures Ahead(rows, n) < |Ranked(rows)| && Ranked(rows)[Ahead(rows, n)] == rows[n]
  {
    hide *;
    if n == 0 {
      FirstPlace(rows);
    } else {
      RankedPlace(rows[1..], n - 1);
      assert rows[1..][n-1] == rows[n];
      LaterPlace(rows, n, Ahead(rows[1..], n - 1));
    }
  }

  lemma FirstPlace(rows: seq<Scored>)
    requires rows != []
    ensures Ahead(rows, 0) < |Ranked(rows)| && Ranked(rows)[Ahead(rows, 0)] == rows[0]
  {
    hide *;
    RankedStep(rows);
    RankedDescends(rows[1..]);
    AheadStep(rows, 0);
    FirstAt(rows[0], Ranked(rows[1..]));
    AbovePermute(Ranked(rows[1..]), rows[1..], rows[0].score);
  }

  lemma LaterPlace(rows: seq<Scored>, n: nat, q: nat)
    requires 0 < n < |rows| && q == Ahead(rows[1..], n - 1)
    requires q < |Ranked(rows[1..])| && Ranked(rows[1..])[q] == rows[n]
    ensures Ahead(rows, n) < |Ranked(rows)| && Ranked(rows)[Ahead(rows, n)] == rows[n]
  {
    hide *;
    RankedStep(rows);
    RankedDescends(rows[1..]);
    AheadStep(rows, n);
    InsertedAt(rows[0], Ranked(rows[1..]), q);
  }

  lemma RankedStep(rows: seq<Scored>)
    requires rows != []
    ensures Ranked(rows) == Insert(ByScoreDescending(), rows[0], Ranked(rows[1..]))
  {
    hide Insert;
  }

  // ---------------------------------------------------------------- the users' own lists

  /** A user's list has the user's rows, in their order: row n of the data stands behind as many as came before it. */
  lemma {:induction false} RowsOfExactly(rows: seq<Row>, u: int, n: nat)
    requires n < |rows| && rows[n].user == u
    ensures var place := |RowsOf(rows[..n], u)|;
            place < |RowsOf(rows, u)| && RowsOf(rows, u)[place] == Scored(rows[n].score, rows[n].rel)
  {
    var last := |rows| - 1;
    if n < last {
      RowsOfExactly(rows[..last], u, n);
      assert rows[..last][..n] == rows[..n];
    }
  }

  /** The positives, or all rows, of a user. */
  lemma {:induction false} UserCount(rows: seq<Row>, u: int, ones: nat -> real, l: Label, k: nat)
    requires k <= |rows|
    requires forall i: nat {:trigger ones(i)} | i < |rows| ::
               ones(i) == if rows[i].user == u && rows[i].rel == l then 1.0 else 0.0
    ensures |ScoresOf(RowsOf(rows[..k], u), l)| as real == SumOver(Range(k), ones)
  {
    if k > 0 {
      var i := k - 1;
      UserCount(rows, u, ones, l, i);
      RangeSnoc(i, ones);
      assert rows[..k] == rows[..i] + [rows[i]];
      RowsOfSnoc(rows[..i], rows[i], u);
      if rows[i].user == u {
        var x := Scored(rows[i].score, rows[i].rel);
        ScoresConcat(RowsOf(rows[..i], u), [x], l);
        assert [x][1..] == [];
      }
    }
  }

  /** The listing has every user of the rows once. */
  ghost predicate Lists(us: seq<int>, rows: seq<Row>) {
    && (forall i, j | 0 <= i < j < |us| :: us[i] != us[j])
    && (forall u | u in us :: exists i :: 0 <= i < |rows| && rows[i].user == u)
    && (forall i | 0 <= i < |rows| :: rows[i].user in us)
  }

  /** The three metrics over any listing of the users: GAUC is the mean of the users' AUC weighted by positives, over
      the users with both labels, or one half; nDCG is the plain mean over all users; and the primary score lies in
      the middle of the two. */
  lemma MetricsValue(rows: seq<Row>, disc: seq<real>, us: seq<int>, ones: int -> nat -> real, zeros: int -> nat -> real,
                     pos: int -> real, neg: int -> real, weight: int -> real, share: int -> real, ndcg: int -> real)
    requires Lists(us, rows)
    requires forall u: int, i: nat {:trigger ones(u)(i)} | i < |rows| ::
               ones(u)(i) == if rows[i].user == u && rows[i].rel == 1 then 1.0 else 0.0
    requires forall u: int, i: nat {:trigger zeros(u)(i)} | i < |rows| ::
               zeros(u)(i) == if rows[i].user == u && rows[i].rel == 0 then 1.0 else 0.0
    requires forall u :: pos(u) == SumOver(Range(|rows|), ones(u)) && neg(u) == SumOver(Range(|rows|), zeros(u))
    requires forall u :: weight(u) == if pos(u) > 0.0 && neg(u) > 0.0 then pos(u) else 0.0
    requires forall u :: share(u) == Times(weight(u), AucOf(RowsOf(rows, u)))
    requires forall u :: ndcg(u) == NdcgOf(LabelsOf(Ranked(RowsOf(rows, u))), disc)
    ensures var m := MetricsOf(rows, disc);
            && m.users == |us| && m.rows == |rows| && m.primary + m.primary == m.gauc + m.ndcg
            && (if us == [] then m.ndcg == 0.0 else Times(m.ndcg, |us| as real) == SumOver(us, ndcg))
            && (if SumOver(us, weight) == 0.0 then m.gauc == 0.5
                else Times(m.gauc, SumOver(us, weight)) == SumOver(us, share))
  {
    hide *;
    forall u
      ensures AucShares(rows)(u) == share(u) && WeightShares(rows)(u) == weight(u) && NdcgShares(rows, disc)(u) == ndcg(u)
    {
      SharesOfUser(rows, disc, u, ones(u), zeros(u), pos(u), neg(u), weight(u), share(u), ndcg(u));
    }
    MetricsOver(rows, disc, us, weight, share, ndcg);
  }

  lemma SharesOfUser(rows: seq<Row>, disc: seq<real>, u: int, ones: nat -> real, zeros: nat -> real, pos: real,
                     neg: real, weight: real, share: real, ndcg: real)
    requires forall i: nat {:trigger ones(i)} | i < |rows| ::
               ones(i) == if rows[i].user == u && rows[i].rel == 1 then 1.0 else 0.0
    requires forall i: nat {:trigger zeros(i)} | i < |rows| ::
               zeros(i) == if rows[i].user == u && rows[i].rel == 0 then 1.0 else 0.0
    requires pos == SumOver(Range(|rows|), ones) && neg == SumOver(Range(|rows|), zeros)
    requires weight == (if pos > 0.0 && neg > 0.0 then pos else 0.0) && share == Times(weight, AucOf(RowsOf(rows, u)))
    requires ndcg == NdcgOf(LabelsOf(Ranked(RowsOf(rows, u))), disc)
    ensures AucShares(rows)(u) == share && WeightShares(rows)(u) == weight && NdcgShares(rows, disc)(u) == ndcg
  {
    hide *;
    UserShares(rows, u, ones, zeros);
    SharesAt(rows, disc, u);
  }

  lemma SharesAt(rows: seq<Row>, disc: seq<real>, u: int)
    ensures AucShares(rows)(u) == AucShare(RowsOf(rows, u)) && WeightShares(rows)(u) == WeightShare(RowsOf(rows, u))
    ensures NdcgShares(rows, disc)(u) == NdcgOf(LabelsOf(Ranked(RowsOf(rows, u))), disc)
  {
  }

  lemma MetricsOver(rows: seq<Row>, disc: seq<real>, us: seq<int>, weight: int -> real, share: int -> real,
                    ndcg: int -> real)
    requires Lists(us, rows)
    requires forall u :: AucShares(rows)(u) == share(u)
    requires forall u :: WeightShares(rows)(u) == weight(u)
    requires forall u :: NdcgShares(rows, disc)(u) == ndcg(u)
    ensures var m := MetricsOf(rows, disc);
            && m.users == |us| && m.rows == |rows| && m.primary + m.primary == m.gauc + m.ndcg
            && (if us == [] then m.ndcg == 0.0 else Times(m.ndcg, |us| as real) == SumOver(us, ndcg))
            && (if SumOver(us, weight) == 0.0 then m.gauc == 0.5
                else Times(m.gauc, SumOver(us, weight)) == SumOver(us, share))
  {
    hide Users, RowsOf, AucShare, WeightShare, NdcgShare, SumOver, MetricsOf, Quot, Times, Lists;
    var vs := Users(rows);
    SameListing(rows, us);
    SumExtAll(vs, AucShares(rows), share);
    SumExtAll(vs, WeightShares(rows), weight);
    SumExtAll(vs, NdcgShares(rows, disc), ndcg);
    SumPermute(us, vs, share);
    SumPermute(us, vs, weight);
    SumPermute(us, vs, ndcg);
    MetricsAre(rows, disc);
    QuotTimes(SumOver(vs, share), SumOver(vs, weight), 0.5);
    QuotTimes(SumOver(vs, ndcg), |vs| as real, 0.0);
  }

  lemma SumExtAll<T(!new)>(xs: seq<T>, f: T -> real, g: T -> real)
    requires forall x :: f(x) == g(x)
    ensures SumOver(xs, f) == SumOver(xs, g)
  {
    SumExt(xs, f, g);
  }

  lemma MetricsAre(rows: seq<Row>, disc: seq<real>)
    ensures var m, vs := MetricsOf(rows, disc), Users(rows);
            && m.users == |vs| && m.rows == |rows| && m.primary + m.primary == m.gauc + m.ndcg
            && m.gauc == Quot(SumOver(vs, AucShares(rows)), SumOver(vs, WeightShares(rows)), 0.5)
            && m.ndcg == Quot(SumOver(vs, NdcgShares(rows, disc)), |vs| as real, 0.0)
  {
  }

  lemma QuotTimes(a: real, b: real, otherwise: real)
    ensures if b == 0.0 then Quot(a, b, otherwise) == otherwise else Times(Quot(a, b, otherwise), b) == a
  {
  }

  lemma SameListing(rows: seq<Row>, us: seq<int>)
    requires Lists(us, rows)
    ensures multiset(us) == multiset(Users(rows)) && |us| == |Users(rows)|
  {
    var vs := Users(rows);
    forall u
      ensures u in us <==> u in vs
    {
      UserAppears(rows, u);
    }
    SameSetSameMultiset(us, vs);
    assert |us| == |multiset(us)| == |multiset(vs)| == |vs|;
  }

  lemma {:induction false} UserAppears(rows: seq<Row>, u: int)
    ensures RowsOf(rows, u) != [] <==> exists i :: 0 <= i < |rows| && rows[i].user == u
  {
    if rows != [] {
      var n := |rows| - 1;
      UserAppears(rows[..n], u);
      if i :| 0 <= i < |rows| && rows[i].user == u {
        assert i < n ==> rows[..n][i].user == u;
      }
    }
  }

  lemma UserShares(rows: seq<Row>, u: int, ones: nat -> real, zeros: nat -> real)
    requires forall i: nat {:trigger ones(i)} | i < |rows| ::
               ones(i) == if rows[i].user == u && rows[i].rel == 1 then 1.0 else 0.0
    requires forall i: nat {:trigger zeros(i)} | i < |rows| ::
               zeros(i) == if rows[i].user == u && rows[i].rel == 0 then 1.0 else 0.0
    ensures var pos, neg := SumOver(Range(|rows|), ones), SumOver(Range(|rows|), zeros);
            var weight := if pos > 0.0 && neg > 0.0 then pos else 0.0;
            WeightShare(RowsOf(rows, u)) == weight
            && AucShare(RowsOf(rows, u)) == Times(weight, AucOf(RowsOf(rows, u)))
  {
    hide *;
    UserCount(rows, u, ones, 1, |rows|);
    UserCount(rows, u, zeros, 0, |rows|);
    assert rows[..|rows|] == rows;
    SharesAre(RowsOf(rows, u));
  }

  lemma SharesAre(mine: seq<Scored>)
    ensures var p, n := |ScoresOf(mine, 1)|, |ScoresOf(mine, 0)|;
            && WeightShare(mine) == (if p > 0 && n > 0 then p as real else 0.0)
            && AucShare(mine) == Times(WeightShare(mine), AucOf(mine))
  {
    LabelsPartition(mine);
    hide ScoresOf, AucOf;
  }
}
