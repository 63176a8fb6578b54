/** The dense pairwise factorization machine of candidate_templates/pairwise_fm/candidate.py, and the
    table-based interaction helper of candidate_seed/model_impl.py. */
module DenseFactorization {
  import opened Results
  import opened Vectors
  import opened FactorizationMachine

  /** x[j] * F[j] for every feature j */
  function ScaledRows(x: seq<real>, F: seq<seq<real>>): (es: seq<seq<real>>)
    requires |x| == |F|
    ensures |es| == |x|
    ensures forall j :: 0 <= j < |x| ==> es[j] == Scale(x[j], F[j])
  {
    if x == [] then [] else [Scale(x[0], F[0])] + ScaledRows(x[1..], F[1..])
  }

  /** `features @ factors` for one row */
  function Projected(x: seq<real>, F: seq<seq<real>>, k: nat): (v: seq<real>)
    requires |x| == |F| && Uniform(F, k)
    ensures |v| == k
  {
    if x == [] then Zero(k) else Add(Scale(x[0], F[0]), Projected(x[1..], F[1..], k))
  }

  /** `((features * features) @ (factors * factors)).sum(axis=1)` for one row */
  function SquareTerm(x: seq<real>, F: seq<seq<real>>): real
    requires |x| == |F|
  {
    if x == [] then 0.0 else Times(Times(x[0], x[0]), Dot(F[0], F[0])) + SquareTerm(x[1..], F[1..])
  }

  /** `_fm_scores` for one row */
  function DenseScore(x: seq<real>, linear: seq<real>, F: seq<seq<real>>, k: nat): real
    requires |x| == |F| == |linear| && Uniform(F, k)
  {
    var proj := Projected(x, F, k);
    Dot(x, linear) + 0.5 * (Dot(proj, proj) - SquareTerm(x, F))
  }

  lemma {:induction false} ProjectedIsSum(x: seq<real>, F: seq<seq<real>>, k: nat)
    requires |x| == |F| && Uniform(F, k)
    ensures Uniform(ScaledRows(x, F), k)
    ensures Projected(x, F, k) == SumVectors(ScaledRows(x, F), k)
  {
    if x != [] {
      ProjectedIsSum(x[1..], F[1..], k);
      assert ScaledRows(x, F)[1..] == ScaledRows(x[1..], F[1..]);
    }
  }

  lemma ScaledSquare(c: real, a: seq<real>)
    ensures Dot(Scale(c, a), Scale(c, a)) == Times(Times(c, c), Dot(a, a))
  {
    DotScale(Scale(c, a), c, a);
    DotSymmetric(Scale(c, a), a);
    DotScale(a, c, a);
  }

  lemma {:induction false} SquareTermIsSum(x: seq<real>, F: seq<seq<real>>)
    requires |x| == |F|
    ensures SquareTerm(x, F) == SumSquares(ScaledRows(x, F))
  {
    if x != [] {
      SquareTermIsSum(x[1..], F[1..]);
      ScaledSquare(x[0], F[0]);
      assert ScaledRows(x, F)[1..] == ScaledRows(x[1..], F[1..]);
    }
  }

  /** The dense score is the linear part plus the sum over all feature pairs of <x_i F_i, x_j F_j>. */
  lemma DenseScoreIsPairSum(x: seq<real>, linear: seq<real>, F: seq<seq<real>>, k: nat)
    requires |x| == |F| == |linear| && Uniform(F, k)
    ensures Uniform(ScaledRows(x, F), k)
    ensures DenseScore(x, linear, F, k) == Dot(x, linear) + PairDots(ScaledRows(x, F), k)
  {
    ProjectedIsSum(x, F, k);
    SquareTermIsSum(x, F);
    InteractionIsPairSum(ScaledRows(x, F), k);
  }

  // ---------------------------------------------------------------- changing one factor row

  function ShiftRow(F: seq<seq<real>>, j: nat, h: seq<real>): seq<seq<real>>
    requires j < |F| && |h| == |F[j]|
  {
    F[j := Add(F[j], h)]
  }

  /** <h, x_j proj - x_j^2 F_j>: one row's contribution to the factor gradient, in direction h. */
  function FactorSlope(x: seq<real>, F: seq<seq<real>>, k: nat, j: nat, h: seq<real>): real
    requires |x| == |F| && Uniform(F, k) && j < |F| && |h| == k
  {
    Times(x[j], Dot(h, Projected(x, F, k))) - Times(Times(x[j], x[j]), Dot(h, F[j]))
  }

  /** Moving one factor row changes the score by exactly its slope: the second-order terms cancel. */
  lemma DenseShift(x: seq<real>, linear: seq<real>, F: seq<seq<real>>, k: nat, j: nat, h: seq<real>)
    requires |x| == |F| == |linear| && Uniform(F, k) && j < |F| && |h| == k
    ensures Uniform(ShiftRow(F, j, h), k)
    ensures DenseScore(x, linear, ShiftRow(F, j, h), k) - DenseScore(x, linear, F, k) == FactorSlope(x, F, k, j, h)
  {
    var F' := ShiftRow(F, j, h);
    var es, xh := ScaledRows(x, F), Scale(x[j], h);
    ScaleAdd(x[j], F[j], h);
    ProjectedIsSum(x, F, k);
    ProjectedIsSum(x, F', k);
    SquareTermIsSum(x, F);
    SquareTermIsSum(x, F');
    assert ScaledRows(x, F') == es[j := Add(es[j], xh)];
    InteractionShift(es, k, j, xh);
    SlopeOfShift(x, F, k, j, h);
  }

  lemma SlopeOfShift(x: seq<real>, F: seq<seq<real>>, k: nat, j: nat, h: seq<real>)
    requires |x| == |F| && Uniform(F, k) && j < |F| && |h| == k
    ensures Dot(Scale(x[j], h), Sub(Projected(x, F, k), Scale(x[j], F[j]))) == FactorSlope(x, F, k, j, h)
  {
    SlopeAlgebra(x[j], h, Projected(x, F, k), F[j]);
  }

  lemma {:induction false} SlopeAlgebra(c: real, h: seq<real>, proj: seq<real>, row: seq<real>)
    requires |h| == |proj| == |row|
    ensures Dot(Scale(c, h), Sub(proj, Scale(c, row))) == Times(c, Dot(h, proj)) - Times(Times(c, c), Dot(h, row))
  {
    if h != [] {
      SlopeAlgebra(c, h[1..], proj[1..], row[1..]);
      assert Scale(c, h)[1..] == Scale(c, h[1..]);
      assert Sub(proj, Scale(c, row))[1..] == Sub(proj[1..], Scale(c, row[1..]));
      SlopeHead(c, h[0], proj[0], row[0]);
      TimesAdd(c, Times(h[0], proj[0]), Dot(h[1..], proj[1..]));
      TimesAdd(Times(c, c), Times(h[0], row[0]), Dot(h[1..], row[1..]));
    }
  }

  lemma SlopeHead(c: real, h: real, p: real, r: real)
    ensures Times(Times(c, h), p - Times(c, r)) == Times(c, Times(h, p)) - Times(Times(c, c), Times(h, r))
  {
  }

  lemma {:induction false} DotShift(x: seq<real>, w: seq<real>, j: nat, d: real)
    requires |x| == |w| && j < |x|
    ensures Dot(x, w[j := w[j] + d]) - Dot(x, w) == Times(x[j], d)
  {
    if j == 0 {
      TimesAdd(x[0], w[0], d);
    } else {
      assert w[j := w[j] + d][1..] == w[1..][j-1 := w[1..][j-1] + d];
      DotShift(x[1..], w[1..], j - 1, d);
    }
  }

  // ---------------------------------------------------------------- the pairwise gradients

  ghost predicate ValidFeatures(xs: seq<seq<real>>, dim: nat) { forall n | 0 <= n < |xs| :: |xs[n]| == dim }

  /** positive_scores - negative_scores */
  function Margins(pos: seq<seq<real>>, neg: seq<seq<real>>, linear: seq<real>, F: seq<seq<real>>, k: nat): (ms: seq<real>)
    requires |pos| == |neg| && |linear| == |F| && Uniform(F, k)
    requires ValidFeatures(pos, |F|) && ValidFeatures(neg, |F|)
    ensures |ms| == |pos|
    ensures forall n :: 0 <= n < |pos| ==>
              ms[n] == DenseScore(pos[n], linear, F, k) - DenseScore(neg[n], linear, F, k)
  {
    seq(|pos|, n requires 0 <= n < |pos| => DenseScore(pos[n], linear, F, k) - DenseScore(neg[n], linear, F, k))
  }

  /** `(positive - negative)[:, j]` */
  function ColumnDifference(pos: seq<seq<real>>, neg: seq<seq<real>>, dim: nat, j: nat): (ds: seq<real>)
    requires |pos| == |neg| && ValidFeatures(pos, dim) && ValidFeatures(neg, dim) && j < dim
    ensures |ds| == |pos|
    ensures forall n :: 0 <= n < |pos| ==> ds[n] == pos[n][j] - neg[n][j]
  {
    seq(|pos|, n requires 0 <= n < |pos| => pos[n][j] - neg[n][j])
  }

  /** One row's vector `positive_j * positive_projection - negative_j * negative_projection`. */
  function ProjectionDifference(pos: seq<real>, neg: seq<real>, F: seq<seq<real>>, k: nat, j: nat): (v: seq<real>)
    requires |pos| == |neg| == |F| && Uniform(F, k) && j < |F|
    ensures |v| == k
  {
    Sub(Scale(pos[j], Projected(pos, F, k)), Scale(neg[j], Projected(neg, F, k)))
  }

  function ProjectionDifferences(pos: seq<seq<real>>, neg: seq<seq<real>>, F: seq<seq<real>>, k: nat, j: nat): (vs: seq<seq<real>>)
    requires |pos| == |neg| && Uniform(F, k) && j < |F|
    requires ValidFeatures(pos, |F|) && ValidFeatures(neg, |F|)
    ensures |vs| == |pos| && Uniform(vs, k)
    ensures forall n :: 0 <= n < |pos| ==> vs[n] == ProjectionDifference(pos[n], neg[n], F, k, j)
  {
    seq(|pos|, n requires 0 <= n < |pos| => ProjectionDifference(pos[n], neg[n], F, k, j))
  }

  /** `(positive * positive - negative * negative)[:, j]` */
  function SquareDifference(pos: seq<seq<real>>, neg: seq<seq<real>>, dim: nat, j: nat): (ds: seq<real>)
    requires |pos| == |neg| && ValidFeatures(pos, dim) && ValidFeatures(neg, dim) && j < dim
    ensures |ds| == |pos|
    ensures forall n :: 0 <= n < |pos| ==> ds[n] == Times(pos[n][j], pos[n][j]) - Times(neg[n][j], neg[n][j])
  {
    seq(|pos|, n requires 0 <= n < |pos| => Times(pos[n][j], pos[n][j]) - Times(neg[n][j], neg[n][j]))
  }

  /** Row j of the factor gradient, for the score gradient s already divided by the batch size. */
  function FactorGradient(pos: seq<seq<real>>, neg: seq<seq<real>>, s: seq<real>, F: seq<seq<real>>, k: nat, j: nat, l2: real): (v: seq<real>)
    requires |pos| == |neg| == |s| && Uniform(F, k) && j < |F|
    requires ValidFeatures(pos, |F|) && ValidFeatures(neg, |F|)
    ensures |v| == k
  {
    var projected := WeightedVectors(s, ProjectionDifferences(pos, neg, F, k, j), k);
    var coefficient := WeightedSum(s, SquareDifference(pos, neg, |F|, j));
    Add(Sub(projected, Scale(coefficient, F[j])), Scale(l2, F[j]))
  }

  function LinearGradient(pos: seq<seq<real>>, neg: seq<seq<real>>, s: seq<real>, linear: seq<real>, j: nat, l2: real): real
    requires |pos| == |neg| == |s| && j < |linear|
    requires ValidFeatures(pos, |linear|) && ValidFeatures(neg, |linear|)
  {
    WeightedSum(s, ColumnDifference(pos, neg, |linear|, j)) + Times(l2, linear[j])
  }

  /** The change of one margin, split into the two parts the source accumulates separately. */
  lemma MarginSlope(pos: seq<real>, neg: seq<real>, linear: seq<real>, F: seq<seq<real>>, k: nat, j: nat, h: seq<real>)
    requires |pos| == |neg| == |F| == |linear| && Uniform(F, k) && j < |F| && |h| == k
    ensures Uniform(ShiftRow(F, j, h), k)
    ensures DenseScore(pos, linear, ShiftRow(F, j, h), k) - DenseScore(neg, linear, ShiftRow(F, j, h), k)
          - (DenseScore(pos, linear, F, k) - DenseScore(neg, linear, F, k))
         == Dot(h, ProjectionDifference(pos, neg, F, k, j))
          - Times(Times(pos[j], pos[j]) - Times(neg[j], neg[j]), Dot(h, F[j]))
  {
    hide Times, Dot, DenseScore, Projected, Add, Sub, Scale;
    var pp, np, z := Projected(pos, F, k), Projected(neg, F, k), Dot(h, F[j]);
    DenseShift(pos, linear, F, k, j, h);
    DenseShift(neg, linear, F, k, j, h);
    DotSub(h, Scale(pos[j], pp), Scale(neg[j], np));
    DotScale(h, pos[j], pp);
    DotScale(h, neg[j], np);
    TimesLeftSub(Times(pos[j], pos[j]), Times(neg[j], neg[j]), z);
  }

  lemma TimesLeftSub(a: real, b: real, c: real)
    ensures Times(a - b, c) == Times(a, c) - Times(b, c)
  {
  }

  lemma {:induction false} WeightedSumSplit(s: seq<real>, d: seq<real>, a: seq<real>, q: seq<real>, z: real)
    requires |s| == |d| == |a| == |q|
    requires forall n | 0 <= n < |s| :: d[n] == a[n] - Times(q[n], z)
    ensures WeightedSum(s, d) == WeightedSum(s, a) - Times(WeightedSum(s, q), z)
  {
    if s != [] {
      var n := |s| - 1;
      WeightedSumSplit(s[..n], d[..n], a[..n], q[..n], z);
      TimesSub(s[n], a[n], Times(q[n], z));
      TimesAssociates(s[n], q[n], z);
      TimesLeftAdd(WeightedSum(s[..n], q[..n]), Times(s[n], q[n]), z);
    }
  }

  lemma TimesLeftAdd(a: real, b: real, c: real)
    ensures Times(a + b, c) == Times(a, c) + Times(b, c)
  {
  }

  /** a[n] = <h, v[n]> */
  function Dots(h: seq<real>, vs: seq<seq<real>>): (a: seq<real>)
    requires Uniform(vs, |h|)
    ensures |a| == |vs|
    ensures forall n :: 0 <= n < |vs| ==> a[n] == Dot(h, vs[n])
  {
    seq(|vs|, n requires 0 <= n < |vs| => Dot(h, vs[n]))
  }

  /** a[n] - q[n] z */
  function Slopes(a: seq<real>, q: seq<real>, z: real): (d: seq<real>)
    requires |a| == |q|
    ensures |d| == |a|
    ensures forall n :: 0 <= n < |a| ==> d[n] == a[n] - Times(q[n], z)
  {
    seq(|a|, n requires 0 <= n < |a| => a[n] - Times(q[n], z))
  }

  lemma MarginSlopes(pos: seq<seq<real>>, neg: seq<seq<real>>, linear: seq<real>, F: seq<seq<real>>, k: nat, j: nat,
                     h: seq<real>)
    requires |pos| == |neg| && |linear| == |F| && Uniform(F, k) && j < |F| && |h| == k
    requires ValidFeatures(pos, |F|) && ValidFeatures(neg, |F|)
    ensures Uniform(ShiftRow(F, j, h), k)
    ensures IsDifference(Margins(pos, neg, linear, ShiftRow(F, j, h), k), Margins(pos, neg, linear, F, k),
                         Slopes(Dots(h, ProjectionDifferences(pos, neg, F, k, j)),
                                SquareDifference(pos, neg, |F|, j), Dot(h, F[j])))
  {
    forall n | 0 <= n < |pos|
      ensures Margins(pos, neg, linear, ShiftRow(F, j, h), k)[n] - Margins(pos, neg, linear, F, k)[n]
           == Slopes(Dots(h, ProjectionDifferences(pos, neg, F, k, j)), SquareDifference(pos, neg, |F|, j), Dot(h, F[j]))[n]
    {
      MarginSlopeAt(pos, neg, linear, F, k, j, h, n);
    }
  }

  lemma MarginSlopeAt(pos: seq<seq<real>>, neg: seq<seq<real>>, linear: seq<real>, F: seq<seq<real>>, k: nat, j: nat,
                      h: seq<real>, n: nat)
    requires |pos| == |neg| && |linear| == |F| && Uniform(F, k) && j < |F| && |h| == k && n < |pos|
    requires ValidFeatures(pos, |F|) && ValidFeatures(neg, |F|)
    ensures Uniform(ShiftRow(F, j, h), k)
    ensures Margins(pos, neg, linear, ShiftRow(F, j, h), k)[n] - Margins(pos, neg, linear, F, k)[n]
         == Slopes(Dots(h, ProjectionDifferences(pos, neg, F, k, j)), SquareDifference(pos, neg, |F|, j), Dot(h, F[j]))[n]
  {
    hide Margins, Slopes, DenseScore, ProjectionDifference, Times, Dot;
    MarginSlope(pos[n], neg[n], linear, F, k, j, h);
    MarginAt(pos, neg, linear, F, k, n);
    MarginAt(pos, neg, linear, ShiftRow(F, j, h), k, n);
    SlopeAt(Dots(h, ProjectionDifferences(pos, neg, F, k, j)), SquareDifference(pos, neg, |F|, j), Dot(h, F[j]), n);
  }

  lemma MarginAt(pos: seq<seq<real>>, neg: seq<seq<real>>, linear: seq<real>, F: seq<seq<real>>, k: nat, n: nat)
    requires |pos| == |neg| && |linear| == |F| && Uniform(F, k) && n < |pos|
    requires ValidFeatures(pos, |F|) && ValidFeatures(neg, |F|)
    ensures |pos[n]| == |neg[n]| == |F|
    ensures Margins(pos, neg, linear, F, k)[n] == DenseScore(pos[n], linear, F, k) - DenseScore(neg[n], linear, F, k)
  {
  }

  lemma SlopeAt(a: seq<real>, q: seq<real>, z: real, n: nat)
    requires |a| == |q| && n < |a|
    ensures Slopes(a, q, z)[n] == a[n] - Times(q[n], z)
  {
  }

  /** The factor gradient is the exact change of the weighted margins, in every direction h, plus the decay. */
  lemma FactorGradientExact(pos: seq<seq<real>>, neg: seq<seq<real>>, s: seq<real>, linear: seq<real>,
                            F: seq<seq<real>>, k: nat, j: nat, l2: real, h: seq<real>)
    requires |pos| == |neg| == |s| && |linear| == |F| && Uniform(F, k) && j < |F| && |h| == k
    requires ValidFeatures(pos, |F|) && ValidFeatures(neg, |F|)
    ensures Uniform(ShiftRow(F, j, h), k)
    ensures Dot(h, FactorGradient(pos, neg, s, F, k, j, l2)) - Times(l2, Dot(h, F[j]))
         == WeightedSum(s, Margins(pos, neg, linear, ShiftRow(F, j, h), k))
          - WeightedSum(s, Margins(pos, neg, linear, F, k))
  {
    var vs, q, z := ProjectionDifferences(pos, neg, F, k, j), SquareDifference(pos, neg, |F|, j), Dot(h, F[j]);
    MarginSlopes(pos, neg, linear, F, k, j, h);
    CollectSlopes(s, Margins(pos, neg, linear, ShiftRow(F, j, h), k), Margins(pos, neg, linear, F, k), h, vs, q, z);
    DotFactorGradient(WeightedVectors(s, vs, k), WeightedSum(s, q), F[j], l2, h);
  }

  lemma CollectSlopes(s: seq<real>, m': seq<real>, m: seq<real>, h: seq<real>, vs: seq<seq<real>>, q: seq<real>, z: real)
    requires |s| == |m| == |vs| == |q| && Uniform(vs, |h|)
    requires IsDifference(m', m, Slopes(Dots(h, vs), q, z))
    ensures WeightedSum(s, m') - WeightedSum(s, m)
         == Dot(h, WeightedVectors(s, vs, |h|)) - Times(WeightedSum(s, q), z)
  {
    var a := Dots(h, vs);
    WeightedSumDifference(s, m', m, Slopes(a, q, z));
    WeightedSumSplit(s, Slopes(a, q, z), a, q, z);
    DotWeighted(h, s, vs, a);
  }

  lemma DotFactorGradient(projected: seq<real>, c: real, f: seq<real>, l2: real, h: seq<real>)
    requires |projected| == |f| == |h|
    ensures Dot(h, Add(Sub(projected, Scale(c, f)), Scale(l2, f)))
         == Dot(h, projected) - Times(c, Dot(h, f)) + Times(l2, Dot(h, f))
  {
    DotStep(h, Sub(projected, Scale(c, f)), l2, f);
    DotSub(h, projected, Scale(c, f));
    DotScale(h, c, f);
  }

  lemma LinearSlope(pos: seq<real>, neg: seq<real>, linear: seq<real>, F: seq<seq<real>>, k: nat, j: nat, d: real)
    requires |pos| == |neg| == |F| == |linear| && Uniform(F, k) && j < |F|
    ensures DenseScore(pos, linear[j := linear[j] + d], F, k) - DenseScore(neg, linear[j := linear[j] + d], F, k)
          - (DenseScore(pos, linear, F, k) - DenseScore(neg, linear, F, k))
         == Times(d, pos[j] - neg[j])
  {
    DotShift(pos, linear, j, d);
    DotShift(neg, linear, j, d);
    TimesSub(d, pos[j], neg[j]);
  }

  lemma LinearSlopes(pos: seq<seq<real>>, neg: seq<seq<real>>, linear: seq<real>, F: seq<seq<real>>, k: nat, j: nat,
                     d: real)
    requires |pos| == |neg| && |linear| == |F| && Uniform(F, k) && j < |F|
    requires ValidFeatures(pos, |F|) && ValidFeatures(neg, |F|)
    ensures IsDifference(Margins(pos, neg, linear[j := linear[j] + d], F, k), Margins(pos, neg, linear, F, k),
                         Scale(d, ColumnDifference(pos, neg, |linear|, j)))
  {
    var m', m := Margins(pos, neg, linear[j := linear[j] + d], F, k), Margins(pos, neg, linear, F, k);
    var e := Scale(d, ColumnDifference(pos, neg, |linear|, j));
    forall n | 0 <= n < |pos|
      ensures m'[n] - m[n] == e[n]
    {
      LinearSlope(pos[n], neg[n], linear, F, k, j, d);
    }
  }

  /** The linear gradient likewise. */
  lemma LinearGradientExact(pos: seq<seq<real>>, neg: seq<seq<real>>, s: seq<real>, linear: seq<real>,
                            F: seq<seq<real>>, k: nat, j: nat, l2: real, d: real)
    requires |pos| == |neg| == |s| && |linear| == |F| && Uniform(F, k) && j < |F|
    requires ValidFeatures(pos, |F|) && ValidFeatures(neg, |F|)
    ensures Times(d, LinearGradient(pos, neg, s, linear, j, l2)) - Times(d, Times(l2, linear[j]))
         == WeightedSum(s, Margins(pos, neg, linear[j := linear[j] + d], F, k))
          - WeightedSum(s, Margins(pos, neg, linear, F, k))
  {
    var cs := ColumnDifference(pos, neg, |linear|, j);
    LinearSlopes(pos, neg, linear, F, k, j, d);
    WeightedSumDifference(s, Margins(pos, neg, linear[j := linear[j] + d], F, k),
                          Margins(pos, neg, linear, F, k), Scale(d, cs));
    WeightedSumScaled(s, cs, d);
    TimesCancel(d, WeightedSum(s, cs), Times(l2, linear[j]), LinearGradient(pos, neg, s, linear, j, l2));
  }

  // ---------------------------------------------------------------- fm_interaction_scores

  /** A code at or beyond the table's last row is clamped onto that spare row. */
  function Clamp(code: nat, rows: nat): (r: nat)
    requires rows > 0
    ensures r < rows
  {
    if code < rows - 1 then code else rows - 1
  }

  function PartOf(table: seq<seq<real>>, code: nat): seq<real>
    requires table != []
  {
    table[Clamp(code, |table|)]
  }

  /** The embeddings that row n contributes, one per table. */
  function Parts(tables: seq<seq<seq<real>>>, codes: seq<seq<nat>>, n: nat): (es: seq<seq<real>>)
    requires |tables| == |codes| && forall t | 0 <= t < |tables| :: tables[t] != [] && n < |codes[t]|
    ensures |es| == |tables|
    ensures forall t :: 0 <= t < |tables| ==> es[t] == PartOf(tables[t], codes[t][n])
  {
    seq(|tables|, t requires 0 <= t < |tables| => PartOf(tables[t], codes[t][n]))
  }

  /** `int(code.max()) + 2` */
  function EmbeddingTableSize(code: seq<nat>): (n: nat)
    requires code != []
    ensures forall i | 0 <= i < |code| :: code[i] + 2 <= n
    ensures exists i :: 0 <= i < |code| && code[i] + 2 == n
  {
    if |code| == 1 then code[0] + 2
    else
      var rest := EmbeddingTableSize(code[..|code|-1]);
      var last := code[|code|-1] + 2;
      if last >= rest then last else rest
  }

  /** A table sized from the training codes: every training identity keeps its own row, every larger code shares
      the one spare row, which no training identity uses. */
  lemma SpareRow(code: seq<nat>, c: nat)
    requires code != []
    ensures var size := EmbeddingTableSize(code);
            && (c in code ==> Clamp(c, size) == c && c != size - 1)
            && (c > size - 2 ==> Clamp(c, size) == size - 1)
  {
  }

  ghost predicate WellShaped(tables: seq<seq<seq<real>>>, codes: seq<seq<nat>>, rows: nat, rank: nat) {
    && |tables| == |codes|
    && (forall t | 0 <= t < |tables| :: tables[t] != [] && Uniform(tables[t], rank) && |codes[t]| == rows)
  }

  /** Row sums after the first t tables. */
  ghost function PairSum(es: seq<seq<real>>, rank: nat, t: nat): (v: seq<real>)
    requires Uniform(es, rank) && t <= |es|
    ensures |v| == rank
  {
    if t == 0 then Zero(rank) else Add(PairSum(es, rank, t - 1), es[t-1])
  }

  ghost function SquareSum(es: seq<seq<real>>, t: nat): real
    requires t <= |es|
  {
    if t == 0 then 0.0 else SquareSum(es, t - 1) + Dot(es[t-1], es[t-1])
  }

  lemma {:induction false} RunningSums(es: seq<seq<real>>, rank: nat, t: nat)
    requires Uniform(es, rank) && t <= |es|
    ensures PairSum(es, rank, t) == SumVectors(es[..t], rank)
    ensures SquareSum(es, t) == SumSquares(es[..t])
  {
    if t > 0 {
      RunningSums(es, rank, t - 1);
      assert es[..t] == es[..t-1] + [es[t-1]];
      SumVectorsSnoc(es[..t-1], es[t-1], rank);
    }
  }

  lemma AccumulatorsGiveInteraction(es: seq<seq<real>>, rank: nat)
    requires Uniform(es, rank)
    ensures 0.5 * (Dot(PairSum(es, rank, |es|), PairSum(es, rank, |es|)) - SquareSum(es, |es|)) == PairDots(es, rank)
  {
    RunningSums(es, rank, |es|);
    assert es[..|es|] == es;
    InteractionIsPairSum(es, rank);
  }

  /** One table's contribution, added into both accumulators in place. */
  method AddTable(table: seq<seq<real>>, code: seq<nat>, rank: nat, pairSum: array<seq<real>>, squareSum: array<real>)
    requires table != [] && Uniform(table, rank)
    requires pairSum.Length == squareSum.Length == |code|
    requires forall n | 0 <= n < |code| :: |pairSum[n]| == rank
    modifies pairSum, squareSum
    ensures forall n | 0 <= n < |code| ::
              |old(pairSum[n])| == rank && pairSum[n] == Add(old(pairSum[n]), PartOf(table, code[n]))
    ensures forall n | 0 <= n < |code| ::
              squareSum[n] == old(squareSum[n]) + Dot(PartOf(table, code[n]), PartOf(table, code[n]))
  {
    for n := 0 to |code|
      invariant forall m | n <= m < |code| :: pairSum[m] == old(pairSum[m]) && squareSum[m] == old(squareSum[m])
      invariant forall m | 0 <= m < n ::
                  |old(pairSum[m])| == rank && pairSum[m] == Add(old(pairSum[m]), PartOf(table, code[m]))
      invariant forall m | 0 <= m < n ::
                  squareSum[m] == old(squareSum[m]) + Dot(PartOf(table, code[m]), PartOf(table, code[m]))
    {
      var part := PartOf(table, code[n]);
      pairSum[n] := Add(pairSum[n], part);
      squareSum[n] := squareSum[n] + Dot(part, part);
    }
  }

  /** both accumulators hold the sums over the first t tables */
  ghost predicate Accumulated(ps: seq<seq<real>>, ss: seq<real>, parts: seq<seq<seq<real>>>, rank: nat, t: nat) {
    && |ps| == |ss| == |parts|
    && forall n | 0 <= n < |parts| ::
         && Uniform(parts[n], rank) && t <= |parts[n]|
         && ps[n] == PairSum(parts[n], rank, t) && ss[n] == SquareSum(parts[n], t)
  }

  lemma AccumulatedStep(ps: seq<seq<real>>, ss: seq<real>, ps': seq<seq<real>>, ss': seq<real>,
                        parts: seq<seq<seq<real>>>, rank: nat, t: nat)
    requires Accumulated(ps, ss, parts, rank, t) && |ps'| == |ss'| == |parts|
    requires forall n | 0 <= n < |parts| :: t < |parts[n]|
    requires forall n | 0 <= n < |parts| :: |ps[n]| == rank && ps'[n] == Add(ps[n], parts[n][t])
    requires forall n | 0 <= n < |parts| :: ss'[n] == ss[n] + Dot(parts[n][t], parts[n][t])
    ensures Accumulated(ps', ss', parts, rank, t + 1)
  {
  }

  /** The loop body over tables, with what it adds to the running sums. */
  method AccumulateTable(table: seq<seq<real>>, code: seq<nat>, rank: nat, pairSum: array<seq<real>>,
                         squareSum: array<real>, ghost parts: seq<seq<seq<real>>>, ghost t: nat)
    requires table != [] && Uniform(table, rank) && |code| == |parts|
    requires Accumulated(pairSum[..], squareSum[..], parts, rank, t)
    requires forall n | 0 <= n < |parts| :: t < |parts[n]| && parts[n][t] == PartOf(table, code[n])
    modifies pairSum, squareSum
    ensures Accumulated(pairSum[..], squareSum[..], parts, rank, t + 1)
  {
    ghost var ps, ss := pairSum[..], squareSum[..];
    assert forall n | 0 <= n < |parts| :: pairSum[n] == ps[n] && |ps[n]| == rank;
    AddTable(table, code, rank, pairSum, squareSum);
    ghost var ps', ss' := pairSum[..], squareSum[..];
    forall n | 0 <= n < |parts|
      ensures ps'[n] == Add(ps[n], parts[n][t]) && ss'[n] == ss[n] + Dot(parts[n][t], parts[n][t])
    {
      assert ps'[n] == pairSum[n] && ss'[n] == squareSum[n];
    }
    AccumulatedStep(ps, ss, ps', ss', parts, rank, t);
  }

  /** The closing expression `0.5 * (sum(pair_sum * pair_sum) - square_sum)`. */
  method CombineSums(pairSum: array<seq<real>>, squareSum: array<real>, ghost parts: seq<seq<seq<real>>>, ghost rank: nat, ghost tables: nat)
    returns (scores: seq<real>)
    requires Accumulated(pairSum[..], squareSum[..], parts, rank, tables)
    requires forall n | 0 <= n < |parts| :: |parts[n]| == tables
    ensures |scores| == |parts|
    ensures forall n | 0 <= n < |parts| :: scores[n] == PairDots(parts[n], rank)
  {
    scores := [];
    for n := 0 to pairSum.Length
      invariant |scores| == n
      invariant forall m | 0 <= m < n :: scores[m] == PairDots(parts[m], rank)
    {
      assert pairSum[n] == pairSum[..][n] && squareSum[n] == squareSum[..][n];
      AccumulatorsGiveInteraction(parts[n], rank);
      scores := scores + [0.5 * (Dot(pairSum[n], pairSum[n]) - squareSum[n])];
    }
  }

  /** The embeddings of every row. */
  ghost function AllParts(tables: seq<seq<seq<real>>>, codes: seq<seq<nat>>, rows: nat, rank: nat): (ps: seq<seq<seq<real>>>)
    requires WellShaped(tables, codes, rows, rank)
    ensures |ps| == rows
    ensures forall n :: 0 <= n < rows ==> Uniform(ps[n], rank) && |ps[n]| == |tables|
    ensures forall n :: 0 <= n < rows ==> ps[n] == Parts(tables, codes, n)
    ensures forall n, t | 0 <= n < rows && 0 <= t < |tables| ::
              ps[n][t] == tables[t][if codes[t][n] < |tables[t]| - 1 then codes[t][n] else |tables[t]| - 1]
  {
    seq(rows, n requires 0 <= n < rows => Parts(tables, codes, n))
  }

  /** The helper on well-shaped input: every row scores the sum of dot products over all pairs of tables. */
  method InteractionScores(tables: seq<seq<seq<real>>>, codes: seq<seq<nat>>, rows: nat, rank: nat)
    returns (scores: seq<real>)
    requires WellShaped(tables, codes, rows, rank)
    ensures |scores| == rows
    ensures forall n | 0 <= n < rows :: scores[n] == PairDots(AllParts(tables, codes, rows, rank)[n], rank)
  {
    ghost var parts := AllParts(tables, codes, rows, rank);
    var pairSum := new seq<real>[rows](_ => Zero(rank));
    var squareSum := new real[rows](_ => 0.0);
    for t := 0 to |tables|
      invariant Accumulated(pairSum[..], squareSum[..], parts, rank, t)
    {
      AccumulateTable(tables[t], codes[t], rank, pairSum, squareSum, parts, t);
    }
    scores := CombineSums(pairSum, squareSum, parts, rank, |tables|);
  }

  /** The shape checks of the source, and the scores behind them. */
  method FmInteractionScores(tables: seq<seq<seq<real>>>, codes: seq<seq<nat>>, ghost rank: nat)
    returns (r: Result<seq<real>, string>)
    requires forall t | 0 <= t < |tables| :: tables[t] != [] && forall i | 0 <= i < |tables[t]| :: |tables[t][i]| == |tables[t][0]|
    requires tables != [] ==> rank == |tables[0][0]|
    ensures r.Success?
       <==> && tables != [] && |tables| == |codes|
            && forall t | 0 <= t < |tables| :: |tables[t][0]| == |tables[0][0]| && |codes[t]| == |codes[0]|
    ensures r.Success? ==> WellShaped(tables, codes, |codes[0]|, rank)
    ensures r.Success? ==> |r.value| == |codes[0]| && forall n | 0 <= n < |codes[0]| ::
              r.value[n] == PairDots(AllParts(tables, codes, |codes[0]|, rank)[n], rank)
  {
    if tables == [] || |tables| != |codes| {
      return Failure("one embedding table is required per code column");
    }
    var rows, width := |codes[0]|, |tables[0][0]|;
    for t := 0 to |tables|
      invariant forall m | 0 <= m < t :: Uniform(tables[m], rank) && |codes[m]| == rows
    {
      if |tables[t][0]| != width {
        assert !Uniform(tables[t], rank);
        return Failure("embedding tables must share one rank");
      }
      if |codes[t]| != rows {
        return Failure("code columns must align with the feature rows");
      }
    }
    var scores := InteractionScores(tables, codes, rows, width);
    return Success(scores);
  }
}
