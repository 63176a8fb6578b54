/** Logits and gradients of the factorization machine as plain sums over fields, components and rows. Functions that
    give the summands are parameters, fixed by what they are at each index. */
module FactorizationLaws {
  import opened Sums
  import opened Vectors
  import opened FactorizationMachine

  // ---------------------------------------------------------------- the logit

  lemma {:induction false} DotSnoc(a: seq<real>, x: real, b: seq<real>, y: real)
    requires |a| == |b|
    ensures Dot(a + [x], b + [y]) == Dot(a, b) + Times(x, y)
  {
    if a != [] {
      assert (a + [x])[1..] == a[1..] + [x] && (b + [y])[1..] == b[1..] + [y];
      DotSnoc(a[1..], x, b[1..], y);
    }
  }

  lemma {:induction false} DotValue(a: seq<real>, b: seq<real>, f: nat -> real, n: nat)
    requires n <= |a| == |b| && forall c: nat | c < |a| :: f(c) == Times(a[c], b[c])
    ensures Dot(a[..n], b[..n]) == SumOver(Range(n), f)
  {
    if n > 0 {
      DotValue(a, b, f, n - 1);
      DotSnoc(a[..n-1], a[n-1], b[..n-1], b[n-1]);
      assert a[..n] == a[..n-1] + [a[n-1]] && b[..n] == b[..n-1] + [b[n-1]];
      RangeSnoc(n - 1, f);
    }
  }

  lemma InteractionSnoc(es: seq<seq<real>>, e: seq<real>)
    requires Uniform(es, |e|)
    ensures Uniform(es + [e], |e|)
    ensures DotsWith(e, es) == Dot(e, SumVectors(es, |e|))
    ensures Interaction(es + [e], |e|) == Interaction(es, |e|) + DotsWith(e, es)
  {
    var s := SumVectors(es, |e|);
    SumVectorsSnoc(es, e, |e|);
    SquareOfSum(s, e);
    DotSymmetric(s, e);
    DotsWithSum(e, es);
  }

  /** One vector against those before it. */
  lemma {:induction false} DotsWithValue(e: seq<real>, es: seq<seq<real>>, dot: nat -> real, n: nat)
    requires Uniform(es, |e|) && n <= |es| && forall j: nat | j < n :: dot(j) == Dot(e, es[j])
    ensures DotsWith(e, es[..n]) == SumOver(Range(n), dot)
  {
    if n > 0 {
      DotsWithValue(e, es, dot, n - 1);
      DotsWithSum(e, es[..n]);
      DotsWithSum(e, es[..n-1]);
      assert es[..n] == es[..n-1] + [es[n-1]];
      SumVectorsSnoc(es[..n-1], es[n-1], |e|);
      DotAdd(e, SumVectors(es[..n-1], |e|), es[n-1]);
      RangeSnoc(n - 1, dot);
    }
  }

  lemma {:induction false} InteractionValue(es: seq<seq<real>>, k: nat, dot: nat -> nat -> real, row: nat -> real, n: nat)
    requires Uniform(es, k) && n <= |es|
    requires forall i: nat, j: nat {:trigger dot(i)(j)} | j < i < |es| :: dot(i)(j) == Dot(es[i], es[j])
    requires forall i: nat | i < |es| :: row(i) == SumOver(Range(i), dot(i))
    ensures Interaction(es[..n], k) == SumOver(Range(n), row)
  {
    if n == 0 {
      DotZero(Zero(k));
    } else {
      hide Interaction, DotsWith, SumOver;
      var i := n - 1;
      InteractionValue(es, k, dot, row, i);
      assert es[..n] == es[..i] + [es[i]];
      InteractionSnoc(es[..i], es[i]);
      assert forall j: nat | j < i :: dot(i)(j) == Dot(es[i], es[j]);
      DotsWithValue(es[i], es, dot(i), i);
      RangeSnoc(i, row);
    }
  }

  lemma {:induction false} SumWeightsValue(W: seq<real>, ids: seq<nat>, weight: nat -> real, n: nat)
    requires ValidIds(ids, |W|) && n <= |ids| && forall f: nat | f < |ids| :: weight(f) == W[ids[f]]
    ensures SumWeights(W, ids[..n]) == SumOver(Range(n), weight)
  {
    if n > 0 {
      SumWeightsValue(W, ids, weight, n - 1);
      SumWeightsSnoc(W, ids[..n]);
      assert ids[..n][..n-1] == ids[..n-1];
      RangeSnoc(n - 1, weight);
    }
  }

  /** The logit of every row, in full: the bias, the weights of the fields' ids, and for every two fields the sum of the
      products of the components of their embeddings. */
  lemma LogitExactly(p: Params, k: nat, ids: seq<nat>, weight: nat -> real, product: nat -> nat -> nat -> real,
                     dot: nat -> nat -> real, row: nat -> real)
    requires ValidParams(p, k) && ValidIds(ids, |p.V|)
    requires forall f: nat | f < |ids| :: weight(f) == p.W[ids[f]]
    requires forall i: nat, j: nat, c: nat {:trigger product(i)(j)(c)} | j < i < |ids| && c < k ::
               product(i)(j)(c) == p.V[ids[i]][c] * p.V[ids[j]][c]
    requires forall i: nat, j: nat {:trigger dot(i)(j)} | j < i < |ids| ::
               dot(i)(j) == SumOver(Range(k), product(i)(j))
    requires forall i: nat | i < |ids| :: row(i) == SumOver(Range(i), dot(i))
    ensures Logit(p, k, ids) == p.b + SumOver(Range(|ids|), weight) + SumOver(Range(|ids|), row)
  {
    hide SumOver, Interaction, SumWeights;
    var es := Embed(p.V, ids);
    forall i: nat, j: nat {:trigger dot(i)(j)} | j < i < |ids|
      ensures dot(i)(j) == Dot(es[i], es[j])
    {
      forall c: nat | c < k
        ensures product(i)(j)(c) == Times(es[i][c], es[j][c])
      {
      }
      DotValue(es[i], es[j], product(i)(j), k);
      assert es[i][..k] == es[i] && es[j][..k] == es[j];
    }
    InteractionValue(es, k, dot, row, |es|);
    assert es[..|es|] == es;
    SumWeightsValue(p.W, ids, weight, |ids|);
    assert ids[..|ids|] == ids;
  }

  // ---------------------------------------------------------------- the gradient of `step`

  lemma {:induction false} SumVectorsValue(es: seq<seq<real>>, k: nat, c: nat, f: nat -> real, n: nat)
    requires Uniform(es, k) && c < k && n <= |es| && forall i: nat | i < |es| :: f(i) == es[i][c]
    ensures SumVectors(es[..n], k)[c] == SumOver(Range(n), f)
  {
    if n > 0 {
      SumVectorsValue(es, k, c, f, n - 1);
      assert es[..n] == es[..n-1] + [es[n-1]];
      SumVectorsSnoc(es[..n-1], es[n-1], k);
      RangeSnoc(n - 1, f);
    }
  }

  lemma {:induction false} SlotValue(V: seq<seq<real>>, k: nat, ids: seq<nat>, s: seq<real>, id: nat, c: nat,
                                     slot: nat -> real, n: nat)
    requires Uniform(V, k) && ValidIds(ids, |V|) && |s| == k && c < k && id < |V| && n <= |ids|
    requires forall f: nat | f < |ids| :: slot(f) == if ids[f] == id then s[c] - V[id][c] else 0.0
    ensures Slot(V, k, ids[..n], s, id)[c] == SumOver(Range(n), slot)
  {
    if n > 0 {
      SlotValue(V, k, ids, s, id, c, slot, n - 1);
      assert ids[..n][..n-1] == ids[..n-1];
      RangeSnoc(n - 1, slot);
    }
  }

  lemma {:induction false} WeightedVectorsValue(g: seq<real>, vs: seq<seq<real>>, k: nat, c: nat, f: nat -> real, n: nat)
    requires |g| == |vs| && Uniform(vs, k) && c < k && n <= |g|
    requires forall m: nat | m < |g| :: f(m) == Times(g[m], vs[m][c])
    ensures WeightedVectors(g[..n], vs[..n], k)[c] == SumOver(Range(n), f)
  {
    if n > 0 {
      WeightedVectorsValue(g, vs, k, c, f, n - 1);
      WeightedVectorsSnoc(g, vs, k, n - 1);
      RangeSnoc(n - 1, f);
    }
  }

  /** One component of one row's slot. */
  lemma SlotsValue(V: seq<seq<real>>, k: nat, X: seq<seq<nat>>, id: nat, c: nat, n: nat, part: nat -> real,
                   slot: nat -> real)
    requires Uniform(V, k) && ValidBatch(X, |V|) && id < |V| && c < k && n < |X|
    requires forall f: nat | f < |X[n]| :: part(f) == V[X[n][f]][c]
    requires forall f: nat | f < |X[n]| ::
               slot(f) == if X[n][f] == id then SumOver(Range(|X[n]|), part) - V[id][c] else 0.0
    ensures Slots(V, k, X, id)[n][c] == SumOver(Range(|X[n]|), slot)
  {
    hide SumOver, Slot, SumVectors;
    var ids, es := X[n], Embed(V, X[n]);
    SumVectorsValue(es, k, c, part, |es|);
    assert es[..|es|] == es && ids[..|ids|] == ids;
    SlotValue(V, k, ids, SumVectors(es, k), id, c, slot, |ids|);
  }

  /** Every component of the embedding gradient, in full: for each row the residual times what its fields with the id
      contribute, each the sum of the row's embeddings without the field's own, and the decay. */
  lemma EmbeddingGradientExactly(grad: Gradients, p: Params, k: nat, X: seq<seq<nat>>, g: seq<real>, l2: real, id: nat,
                                 c: nat, part: nat -> nat -> real, slot: nat -> nat -> real, term: nat -> real)
    requires ValidParams(p, k) && ValidBatch(X, |p.V|) && |g| == |X| && IsGradient(grad, p, k, X, g, l2)
    requires id < |p.V| && c < k
    requires forall n: nat, f: nat {:trigger part(n)(f)} | n < |X| && f < |X[n]| :: part(n)(f) == p.V[X[n][f]][c]
    requires forall n: nat, f: nat {:trigger slot(n)(f)} | n < |X| && f < |X[n]| ::
               slot(n)(f) == if X[n][f] == id then SumOver(Range(|X[n]|), part(n)) - p.V[id][c] else 0.0
    requires forall n: nat | n < |X| :: term(n) == g[n] * SumOver(Range(|X[n]|), slot(n))
    ensures |grad.V| == |p.V| && |grad.V[id]| == k
    ensures grad.V[id][c] == SumOver(Range(|X|), term) + l2 * p.V[id][c]
  {
    hide SumOver, Slot, SumVectors, WeightedVectors;
    var vs := Slots(p.V, k, X, id);
    forall n: nat | n < |X|
      ensures term(n) == Times(g[n], vs[n][c])
    {
      SlotsValue(p.V, k, X, id, c, n, part(n), slot(n));
    }
    WeightedVectorsValue(g, vs, k, c, term, |g|);
    assert g[..|g|] == g && vs[..|g|] == vs;
  }

  lemma {:induction false} CountValue(ids: seq<nat>, id: nat, hit: nat -> real, n: nat)
    requires n <= |ids| && forall f: nat | f < |ids| :: hit(f) == if ids[f] == id then 1.0 else 0.0
    ensures CountId(ids[..n], id) as real == SumOver(Range(n), hit)
  {
    if n > 0 {
      CountValue(ids, id, hit, n - 1);
      assert ids[..n][..n-1] == ids[..n-1];
      RangeSnoc(n - 1, hit);
    }
  }

  lemma {:induction false} WeightedSumValue(g: seq<real>, z: seq<real>, f: nat -> real, n: nat)
    requires |g| == |z| && n <= |g| && forall m: nat | m < |g| :: f(m) == Times(g[m], z[m])
    ensures WeightedSum(g[..n], z[..n]) == SumOver(Range(n), f)
  {
    if n > 0 {
      WeightedSumValue(g, z, f, n - 1);
      WeightedSumSnoc(g, z, n - 1);
      RangeSnoc(n - 1, f);
    }
  }

  /** And of the weight gradient: each row's residual times the number of its fields with the id, and the decay. */
  lemma WeightGradientExactly(grad: Gradients, p: Params, k: nat, X: seq<seq<nat>>, g: seq<real>, l2: real, id: nat,
                              hit: nat -> nat -> real, term: nat -> real)
    requires ValidParams(p, k) && ValidBatch(X, |p.V|) && |g| == |X| && IsGradient(grad, p, k, X, g, l2)
    requires id < |p.W|
    requires forall n: nat, f: nat {:trigger hit(n)(f)} | n < |X| && f < |X[n]| ::
               hit(n)(f) == if X[n][f] == id then 1.0 else 0.0
    requires forall n: nat | n < |X| :: term(n) == g[n] * SumOver(Range(|X[n]|), hit(n))
    ensures |grad.W| == |p.W| && grad.W[id] == SumOver(Range(|X|), term) + l2 * p.W[id]
  {
    hide SumOver, CountId, WeightedSum;
    var cs := Counts(X, id);
    forall n: nat | n < |X|
      ensures term(n) == Times(g[n], cs[n])
    {
      CountValue(X[n], id, hit(n), |X[n]|);
      assert X[n][..|X[n]|] == X[n];
    }
    WeightedSumValue(g, cs, term, |g|);
    assert g[..|g|] == g && cs[..|g|] == cs;
  }

  /** The residuals themselves, and the bias gradient as their sum. */
  lemma BiasGradientExactly(grad: Gradients, p: Params, k: nat, X: seq<seq<nat>>, g: seq<real>, l2: real,
                            residual: nat -> real)
    requires ValidParams(p, k) && ValidBatch(X, |p.V|) && |g| == |X| && IsGradient(grad, p, k, X, g, l2)
    requires forall n: nat | n < |X| :: residual(n) == g[n]
    ensures grad.b == SumOver(Range(|X|), residual)
  {
    ResidualsValue(g, residual, |g|);
    assert g[..|g|] == g;
  }

  lemma {:induction false} ResidualsValue(g: seq<real>, residual: nat -> real, n: nat)
    requires n <= |g| && forall m: nat | m < |g| :: residual(m) == g[m]
    ensures SumResiduals(g[..n]) == SumOver(Range(n), residual)
  {
    if n > 0 {
      ResidualsValue(g, residual, n - 1);
      assert g[..n][..n-1] == g[..n-1];
      RangeSnoc(n - 1, residual);
    }
  }
}
