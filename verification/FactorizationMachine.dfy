/** The second-order interaction of kuairand-starter-kit/baseline.py: linear-time form, logits and gradient. */
module FactorizationMachine {
  import opened Sums
  import opened Vectors

  /** All vectors have k components. */
  ghost predicate Uniform(es: seq<seq<real>>, k: nat) { forall i | 0 <= i < |es| :: |es[i]| == k }

  /** `E.sum(1)` for one row */
  function SumVectors(es: seq<seq<real>>, k: nat): (s: seq<real>)
    requires Uniform(es, k)
    ensures |s| == k
  {
    if es == [] then Zero(k) else Add(es[0], SumVectors(es[1..], k))
  }

  /** `(E ** 2).sum((1, 2))` for one row */
  function SumSquares(es: seq<seq<real>>): real {
    if es == [] then 0.0 else Dot(es[0], es[0]) + SumSquares(es[1..])
  }

  /** Half of (square of sum minus sum of squares). */
  function Interaction(es: seq<seq<real>>, k: nat): real
    requires Uniform(es, k)
  {
    0.5 * (Dot(SumVectors(es, k), SumVectors(es, k)) - SumSquares(es))
  }

  function DotsWith(e: seq<real>, es: seq<seq<real>>): real
    requires Uniform(es, |e|)
  {
    if es == [] then 0.0 else Dot(e, es[0]) + DotsWith(e, es[1..])
  }

  /** The definition: the sum over unordered field pairs of the dot products. */
  function PairDots(es: seq<seq<real>>, k: nat): real
    requires Uniform(es, k)
  {
    if es == [] then 0.0 else DotsWith(es[0], es[1..]) + PairDots(es[1..], k)
  }

  lemma {:induction false} DotsWithSum(e: seq<real>, es: seq<seq<real>>)
    requires Uniform(es, |e|)
    ensures Dot(e, SumVectors(es, |e|)) == DotsWith(e, es)
  {
    if es == [] {
      DotZero(e);
    } else {
      DotsWithSum(e, es[1..]);
      DotAdd(e, es[0], SumVectors(es[1..], |e|));
    }
  }

  /** The linear-time form computes the sum over all field pairs. */
  lemma {:induction false} InteractionIsPairSum(es: seq<seq<real>>, k: nat)
    requires Uniform(es, k)
    ensures Interaction(es, k) == PairDots(es, k)
  {
    if es == [] {
      DotZero(Zero(k));
    } else {
      InteractionIsPairSum(es[1..], k);
      SquareOfSum(es[0], SumVectors(es[1..], k));
      DotsWithSum(es[0], es[1..]);
    }
  }

  lemma {:induction false} SumVectorsSnoc(es: seq<seq<real>>, e: seq<real>, k: nat)
    requires Uniform(es, k) && |e| == k
    ensures Uniform(es + [e], k)
    ensures SumVectors(es + [e], k) == Add(SumVectors(es, k), e)
    ensures SumSquares(es + [e]) == SumSquares(es) + Dot(e, e)
  {
    assert [e][1..] == [];
    if es == [] {
      assert es + [e] == [e];
      AddZero(e);
      AddCommutes(e, Zero(k));
    } else {
      assert (es + [e])[1..] == es[1..] + [e];
      SumVectorsSnoc(es[1..], e, k);
      AddAssociates(es[0], SumVectors(es[1..], k), e);
    }
  }

  // ---------------------------------------------------------------- changing one vector

  lemma {:induction false} SumAfterShift(es: seq<seq<real>>, k: nat, f: nat, h: seq<real>)
    requires Uniform(es, k) && f < |es| && |h| == k
    ensures SumVectors(es[f := Add(es[f], h)], k) == Add(SumVectors(es, k), h)
  {
    var es' := es[f := Add(es[f], h)];
    var rest := SumVectors(es[1..], k);
    AddAssociates(es[0], rest, h);
    if f == 0 {
      assert es'[1..] == es[1..];
    } else {
      assert es'[1..] == es[1..][f-1 := Add(es[1..][f-1], h)];
      SumAfterShift(es[1..], k, f - 1, h);
    }
  }

  lemma {:induction false} SquaresAfterShift(es: seq<seq<real>>, k: nat, f: nat, h: seq<real>)
    requires Uniform(es, k) && f < |es| && |h| == k
    ensures SumSquares(es[f := Add(es[f], h)]) == SumSquares(es) + 2.0 * Dot(es[f], h) + Dot(h, h)
  {
    var es' := es[f := Add(es[f], h)];
    if f == 0 {
      assert es'[1..] == es[1..];
      SquareOfSum(es[0], h);
    } else {
      assert es'[1..] == es[1..][f-1 := Add(es[1..][f-1], h)];
      SquaresAfterShift(es[1..], k, f - 1, h);
    }
  }

  /** Moving one field's vector by h changes the interaction by exactly <h, S - E_f>: no second-order term. */
  lemma InteractionShift(es: seq<seq<real>>, k: nat, f: nat, h: seq<real>)
    requires Uniform(es, k) && f < |es| && |h| == k
    ensures Interaction(es[f := Add(es[f], h)], k) - Interaction(es, k) == Dot(h, Sub(SumVectors(es, k), es[f]))
  {
    var s := SumVectors(es, k);
    SumAfterShift(es, k, f, h);
    SquaresAfterShift(es, k, f, h);
    SquareOfSum(s, h);
    DotSub(h, s, es[f]);
    DotSymmetric(s, h);
    DotSymmetric(es[f], h);
  }

  // ---------------------------------------------------------------- the model

  datatype Params = Params(V: seq<seq<real>>, W: seq<real>, b: real)

  ghost predicate ValidParams(p: Params, k: nat) { |p.V| == |p.W| && Uniform(p.V, k) }

  ghost predicate ValidIds(ids: seq<nat>, dim: nat) { forall f | 0 <= f < |ids| :: ids[f] < dim }

  /** `self.V[X]` for one row */
  function Embed(V: seq<seq<real>>, ids: seq<nat>): (es: seq<seq<real>>)
    requires ValidIds(ids, |V|)
    ensures |es| == |ids|
    ensures forall f :: 0 <= f < |ids| ==> es[f] == V[ids[f]]
  {
    seq(|ids|, f requires 0 <= f < |ids| => V[ids[f]])
  }

  /** `self.W[X].sum(1)` for one row */
  function SumWeights(W: seq<real>, ids: seq<nat>): real
    requires ValidIds(ids, |W|)
  {
    if ids == [] then 0.0 else W[ids[0]] + SumWeights(W, ids[1..])
  }

  function Logit(p: Params, k: nat, ids: seq<nat>): real
    requires ValidParams(p, k) && ValidIds(ids, |p.V|)
  {
    p.b + SumWeights(p.W, ids) + Interaction(Embed(p.V, ids), k)
  }

  function ShiftV(p: Params, id: nat, h: seq<real>): Params
    requires id < |p.V| && |h| == |p.V[id]|
  {
    p.(V := p.V[id := Add(p.V[id], h)])
  }

  function ShiftW(p: Params, id: nat, d: real): Params
    requires id < |p.W|
  {
    p.(W := p.W[id := p.W[id] + d])
  }

  /** What `np.add.at` collects in slot id from one row: S - E_f for every field f that holds id. */
  function Slot(V: seq<seq<real>>, k: nat, ids: seq<nat>, s: seq<real>, id: nat): (v: seq<real>)
    requires Uniform(V, k) && ValidIds(ids, |V|) && |s| == k
    ensures |v| == k
  {
    if ids == [] then Zero(k)
    else
      var n := |ids| - 1;
      var front := Slot(V, k, ids[..n], s, id);
      if ids[n] == id then Add(front, Sub(s, V[id])) else front
  }

  lemma {:induction false} SlotAbsent(V: seq<seq<real>>, k: nat, ids: seq<nat>, s: seq<real>, id: nat)
    requires Uniform(V, k) && ValidIds(ids, |V|) && |s| == k && id !in ids
    ensures Slot(V, k, ids, s, id) == Zero(k)
  {
    if ids != [] {
      assert ids[|ids|-1] in ids;
      SlotAbsent(V, k, ids[..|ids|-1], s, id);
    }
  }

  lemma {:induction false} SlotPresent(V: seq<seq<real>>, k: nat, ids: seq<nat>, s: seq<real>, f: nat)
    requires Uniform(V, k) && ValidIds(ids, |V|) && |s| == k
    requires NoDuplicates(ids) && f < |ids|
    ensures Slot(V, k, ids, s, ids[f]) == Sub(s, V[ids[f]])
  {
    var n := |ids| - 1;
    if f == n {
      assert ids[n] !in ids[..n];
      SlotAbsent(V, k, ids[..n], s, ids[n]);
    } else {
      assert ids[..n][f] == ids[f];
      SlotPresent(V, k, ids[..n], s, f);
    }
  }

  lemma EmbedShift(V: seq<seq<real>>, ids: seq<nat>, f: nat, v: seq<real>)
    requires ValidIds(ids, |V|) && NoDuplicates(ids) && f < |ids|
    ensures Embed(V[ids[f] := v], ids) == Embed(V, ids)[f := v]
  {
  }

  lemma EmbedUntouched(V: seq<seq<real>>, ids: seq<nat>, id: nat, v: seq<real>)
    requires ValidIds(ids, |V|) && id < |V| && id !in ids
    ensures Embed(V[id := v], ids) == Embed(V, ids)
  {
    assert forall f | 0 <= f < |ids| :: ids[f] in ids;
  }

  /** On a row of distinct ids, moving one embedding changes the interaction by exactly <h, slot>. */
  lemma SlotIsDifference(V: seq<seq<real>>, k: nat, ids: seq<nat>, id: nat, h: seq<real>)
    requires Uniform(V, k) && ValidIds(ids, |V|) && NoDuplicates(ids)
    requires id < |V| && |h| == k
    ensures Interaction(Embed(V[id := Add(V[id], h)], ids), k) - Interaction(Embed(V, ids), k)
         == Dot(h, Slot(V, k, ids, SumVectors(Embed(V, ids), k), id))
  {
    var es := Embed(V, ids);
    var s := SumVectors(es, k);
    if id in ids {
      var f :| 0 <= f < |ids| && ids[f] == id;
      EmbedShift(V, ids, f, Add(V[id], h));
      InteractionShift(es, k, f, h);
      SlotPresent(V, k, ids, s, f);
    } else {
      EmbedUntouched(V, ids, id, Add(V[id], h));
      SlotAbsent(V, k, ids, s, id);
      DotZero(h);
    }
  }

  /** Hence the logit moves by exactly <h, slot>. */
  lemma LogitShiftV(p: Params, k: nat, ids: seq<nat>, id: nat, h: seq<real>)
    requires ValidParams(p, k) && ValidIds(ids, |p.V|) && NoDuplicates(ids)
    requires id < |p.V| && |h| == k
    ensures ValidParams(ShiftV(p, id, h), k)
    ensures Logit(ShiftV(p, id, h), k, ids) - Logit(p, k, ids)
         == Dot(h, Slot(p.V, k, ids, SumVectors(Embed(p.V, ids), k), id))
  {
    SlotIsDifference(p.V, k, ids, id, h);
  }

  function CountId(ids: seq<nat>, id: nat): nat {
    if ids == [] then 0 else CountId(ids[..|ids|-1], id) + if ids[|ids|-1] == id then 1 else 0
  }

  lemma {:induction false} SumWeightsSnoc(W: seq<real>, ids: seq<nat>)
    requires ids != [] && ValidIds(ids, |W|)
    ensures SumWeights(W, ids) == SumWeights(W, ids[..|ids|-1]) + W[ids[|ids|-1]]
  {
    if |ids| > 1 {
      SumWeightsSnoc(W, ids[1..]);
      assert ids[1..][..|ids|-2] == ids[..|ids|-1][1..];
    }
  }

  lemma {:induction false} WeightsShift(W: seq<real>, ids: seq<nat>, id: nat, d: real)
    requires ValidIds(ids, |W|) && id < |W|
    ensures SumWeights(W[id := W[id] + d], ids) - SumWeights(W, ids) == Times(d, CountId(ids, id) as real)
  {
    if ids != [] {
      var n := |ids| - 1;
      var W' := W[id := W[id] + d];
      WeightsShift(W, ids[..n], id, d);
      SumWeightsSnoc(W, ids);
      SumWeightsSnoc(W', ids);
      TimesAdd(d, CountId(ids[..n], id) as real, 1.0);
    }
  }

  /** Moving one weight changes the logit by that step for every field that holds the id. */
  lemma LogitShiftW(p: Params, k: nat, ids: seq<nat>, id: nat, d: real)
    requires ValidParams(p, k) && ValidIds(ids, |p.V|) && id < |p.W|
    ensures ValidParams(ShiftW(p, id, d), k)
    ensures Logit(ShiftW(p, id, d), k, ids) - Logit(p, k, ids) == Times(d, CountId(ids, id) as real)
  {
    WeightsShift(p.W, ids, id, d);
  }

  // ---------------------------------------------------------------- the batch gradient of `step`

  /** sum of g[n] * z[n] */
  function WeightedSum(g: seq<real>, z: seq<real>): real
    requires |g| == |z|
  {
    if g == [] then 0.0
    else
      var n := |g| - 1;
      WeightedSum(g[..n], z[..n]) + Times(g[n], z[n])
  }

  /** sum of g[n] * v[n] */
  function WeightedVectors(g: seq<real>, vs: seq<seq<real>>, k: nat): (v: seq<real>)
    requires |g| == |vs| && Uniform(vs, k)
    ensures |v| == k
  {
    if g == [] then Zero(k)
    else
      var n := |g| - 1;
      Add(WeightedVectors(g[..n], vs[..n], k), Scale(g[n], vs[n]))
  }

  ghost predicate IsDifference(z': seq<real>, z: seq<real>, d: seq<real>) {
    |z'| == |z| == |d| && forall n | 0 <= n < |z| :: z'[n] - z[n] == d[n]
  }

  lemma {:induction false} WeightedSumDifference(g: seq<real>, z': seq<real>, z: seq<real>, d: seq<real>)
    requires |g| == |z| && IsDifference(z', z, d)
    ensures WeightedSum(g, z') - WeightedSum(g, z) == WeightedSum(g, d)
  {
    if g != [] {
      var n := |g| - 1;
      WeightedSumDifference(g[..n], z'[..n], z[..n], d[..n]);
      TimesSub(g[n], z'[n], z[n]);
    }
  }

  lemma {:induction false} WeightedSumScaled(g: seq<real>, c: seq<real>, d: real)
    requires |g| == |c|
    ensures WeightedSum(g, Scale(d, c)) == Times(d, WeightedSum(g, c))
  {
    if g != [] {
      var n := |g| - 1;
      assert Scale(d, c)[..n] == Scale(d, c[..n]);
      WeightedSumScaled(g[..n], c[..n], d);
      TimesAdd(d, WeightedSum(g[..n], c[..n]), Times(g[n], c[n]));
      TimesCommutes(g[n], d, c[n]);
    }
  }

  /** The dot product commutes with weighting. */
  lemma {:induction false} DotWeighted(h: seq<real>, g: seq<real>, vs: seq<seq<real>>, d: seq<real>)
    requires |g| == |vs| == |d| && Uniform(vs, |h|)
    requires forall n | 0 <= n < |g| :: d[n] == Dot(h, vs[n])
    ensures Dot(h, WeightedVectors(g, vs, |h|)) == WeightedSum(g, d)
  {
    if g == [] {
      DotZero(h);
    } else {
      var n := |g| - 1;
      DotWeighted(h, g[..n], vs[..n], d[..n]);
      DotStep(h, WeightedVectors(g[..n], vs[..n], |h|), g[n], vs[n]);
    }
  }

  ghost predicate ValidBatch(X: seq<seq<nat>>, dim: nat) { forall n | 0 <= n < |X| :: ValidIds(X[n], dim) }

  /** The batch of logits z. */
  function BatchLogits(p: Params, k: nat, X: seq<seq<nat>>): (z: seq<real>)
    requires ValidParams(p, k) && ValidBatch(X, |p.V|)
    ensures |z| == |X|
    ensures forall n :: 0 <= n < |X| ==> z[n] == Logit(p, k, X[n])
  {
    seq(|X|, n requires 0 <= n < |X| => Logit(p, k, X[n]))
  }

  /** Each row's contribution to the slot of one id, before weighting. */
  function Slots(V: seq<seq<real>>, k: nat, X: seq<seq<nat>>, id: nat): (vs: seq<seq<real>>)
    requires Uniform(V, k) && ValidBatch(X, |V|)
    ensures |vs| == |X| && Uniform(vs, k)
    ensures forall n :: 0 <= n < |X| ==> vs[n] == Slot(V, k, X[n], SumVectors(Embed(V, X[n]), k), id)
  {
    seq(|X|, n requires 0 <= n < |X| => Slot(V, k, X[n], SumVectors(Embed(V, X[n]), k), id))
  }

  function Counts(X: seq<seq<nat>>, id: nat): (cs: seq<real>)
    ensures |cs| == |X|
    ensures forall n :: 0 <= n < |X| ==> cs[n] == CountId(X[n], id) as real
  {
    seq(|X|, n requires 0 <= n < |X| => CountId(X[n], id) as real)
  }

  /** The embedding gradient is the exact difference of the residual-weighted logits, in every direction h. */
  lemma GradVExact(p: Params, k: nat, X: seq<seq<nat>>, g: seq<real>, id: nat, h: seq<real>)
    requires ValidParams(p, k) && ValidBatch(X, |p.V|) && |g| == |X| && id < |p.V| && |h| == k
    requires forall n | 0 <= n < |X| :: NoDuplicates(X[n])
    ensures ValidParams(ShiftV(p, id, h), k)
    ensures Dot(h, WeightedVectors(g, Slots(p.V, k, X, id), k))
         == WeightedSum(g, BatchLogits(ShiftV(p, id, h), k, X)) - WeightedSum(g, BatchLogits(p, k, X))
  {
    var p' := ShiftV(p, id, h);
    var vs := Slots(p.V, k, X, id);
    var d := seq(|X|, n requires 0 <= n < |X| => Dot(h, vs[n]));
    forall n | 0 <= n < |X|
      ensures BatchLogits(p', k, X)[n] - BatchLogits(p, k, X)[n] == d[n]
    {
      LogitShiftV(p, k, X[n], id, h);
    }
    WeightedSumDifference(g, BatchLogits(p', k, X), BatchLogits(p, k, X), d);
    DotWeighted(h, g, vs, d);
  }

  lemma LogitShiftsW(p: Params, k: nat, X: seq<seq<nat>>, id: nat, d: real)
    requires ValidParams(p, k) && ValidBatch(X, |p.V|) && id < |p.W|
    ensures ValidParams(ShiftW(p, id, d), k)
    ensures forall n | 0 <= n < |X| ::
              BatchLogits(ShiftW(p, id, d), k, X)[n] - BatchLogits(p, k, X)[n] == Scale(d, Counts(X, id))[n]
  {
    forall n | 0 <= n < |X|
      ensures BatchLogits(ShiftW(p, id, d), k, X)[n] - BatchLogits(p, k, X)[n] == Scale(d, Counts(X, id))[n]
    {
      LogitShiftW(p, k, X[n], id, d);
    }
  }

  /** So is the weight gradient. */
  lemma GradWExact(p: Params, k: nat, X: seq<seq<nat>>, g: seq<real>, id: nat, d: real)
    requires ValidParams(p, k) && ValidBatch(X, |p.V|) && |g| == |X| && id < |p.W|
    ensures ValidParams(ShiftW(p, id, d), k)
    ensures Times(d, WeightedSum(g, Counts(X, id)))
         == WeightedSum(g, BatchLogits(ShiftW(p, id, d), k, X)) - WeightedSum(g, BatchLogits(p, k, X))
  {
    LogitShiftsW(p, k, X, id, d);
    WeightedSumScaled(g, Counts(X, id), d);
    WeightedSumDifference(g, BatchLogits(ShiftW(p, id, d), k, X), BatchLogits(p, k, X), Scale(d, Counts(X, id)));
  }

  /** `g.sum()` */
  function SumResiduals(g: seq<real>): real {
    if g == [] then 0.0 else SumResiduals(g[..|g|-1]) + g[|g|-1]
  }

  lemma {:induction false} WeightedOnes(g: seq<real>, e: seq<real>, d: real)
    requires |g| == |e| && forall n | 0 <= n < |g| :: e[n] == d
    ensures WeightedSum(g, e) == Times(d, SumResiduals(g))
  {
    if g != [] {
      var n := |g| - 1;
      WeightedOnes(g[..n], e[..n], d);
      TimesAdd(d, SumResiduals(g[..n]), g[n]);
      assert Times(d, g[n]) == Times(g[n], d);
    }
  }

  /** And the bias gradient. */
  lemma GradBExact(p: Params, k: nat, X: seq<seq<nat>>, g: seq<real>, d: real)
    requires ValidParams(p, k) && ValidBatch(X, |p.V|) && |g| == |X|
    ensures Times(d, SumResiduals(g))
         == WeightedSum(g, BatchLogits(p.(b := p.b + d), k, X)) - WeightedSum(g, BatchLogits(p, k, X))
  {
    var e := seq(|X|, _ => d);
    WeightedSumDifference(g, BatchLogits(p.(b := p.b + d), k, X), BatchLogits(p, k, X), e);
    WeightedOnes(g, e, d);
  }

  // ---------------------------------------------------------------- `np.add.at` and weight decay

  datatype Gradients = Gradients(V: seq<seq<real>>, W: seq<real>, b: real)

  /** What `step` accumulates: the weighted slots of every id, plus the decay term. */
  ghost predicate IsGradient(grad: Gradients, p: Params, k: nat, X: seq<seq<nat>>, g: seq<real>, l2: real)
    requires ValidParams(p, k) && ValidBatch(X, |p.V|) && |g| == |X|
  {
    && |grad.V| == |p.V| && |grad.W| == |p.W|
    && (forall id | 0 <= id < |p.V| ::
          grad.V[id] == Add(WeightedVectors(g, Slots(p.V, k, X, id), k), Scale(l2, p.V[id])))
    && (forall id | 0 <= id < |p.W| :: grad.W[id] == WeightedSum(g, Counts(X, id)) + Times(l2, p.W[id]))
    && grad.b == SumResiduals(g)
  }

  lemma ScaledSlotStep(c: real, ids: seq<nat>, f: nat, V: seq<seq<real>>, k: nat, s: seq<real>, id: nat, G: seq<real>)
    requires Uniform(V, k) && ValidIds(ids, |V|) && |s| == k && f < |ids| && |G| == k
    ensures var before := Add(G, Scale(c, Slot(V, k, ids[..f], s, id)));
            Add(G, Scale(c, Slot(V, k, ids[..f+1], s, id)))
            == if ids[f] == id then Add(before, Scale(c, Sub(s, V[id]))) else before
  {
    assert ids[..f+1][..f] == ids[..f];
    if ids[f] == id {
      var front := Slot(V, k, ids[..f], s, id);
      ScaleAdd(c, front, Sub(s, V[id]));
      AddAssociates(G, Scale(c, front), Scale(c, Sub(s, V[id])));
    }
  }

  lemma ScatteredStep(c: real, ids: seq<nat>, f: nat, V: seq<seq<real>>, k: nat, s: seq<real>, G: seq<seq<real>>,
                      now: seq<seq<real>>)
    requires Uniform(V, k) && ValidIds(ids, |V|) && |s| == k && f < |ids| && |G| == |now| == |V|
    requires forall i | 0 <= i < |G| :: |G[i]| == k && now[i] == Add(G[i], Scale(c, Slot(V, k, ids[..f], s, i)))
    ensures forall i | 0 <= i < |G| :: |now[i]| == |V[i]| == k
    ensures forall i | 0 <= i < |G| ::
              Add(G[i], Scale(c, Slot(V, k, ids[..f+1], s, i)))
              == if ids[f] == i then Add(now[i], Scale(c, Sub(s, V[i]))) else now[i]
  {
    forall i | 0 <= i < |G|
      ensures Add(G[i], Scale(c, Slot(V, k, ids[..f+1], s, i)))
           == if ids[f] == i then Add(now[i], Scale(c, Sub(s, V[i]))) else now[i]
    {
      ScaledSlotStep(c, ids, f, V, k, s, i, G[i]);
    }
  }

  /** `np.add.at(gV, X, ...)` on one row: every field adds into the slot of its id. */
  method ScatterRow(gV: array<seq<real>>, V: seq<seq<real>>, k: nat, ids: seq<nat>, s: seq<real>, c: real)
    requires Uniform(V, k) && ValidIds(ids, |V|) && |s| == k
    requires gV.Length == |V| && forall i | 0 <= i < gV.Length :: |gV[i]| == k
    modifies gV
    ensures forall i | 0 <= i < gV.Length :: |old(gV[i])| == k && gV[i] == Add(old(gV[i]), Scale(c, Slot(V, k, ids, s, i)))
  {
    ghost var G := gV[..];
    forall i | 0 <= i < |G|
      ensures G[i] == Add(G[i], Scale(c, Slot(V, k, [], s, i)))
    {
      ScaleZero(c, k);
      AddZero(G[i]);
    }
    for f := 0 to |ids|
      invariant |G| == gV.Length
      invariant forall i | 0 <= i < |G| :: |G[i]| == k && gV[i] == Add(G[i], Scale(c, Slot(V, k, ids[..f], s, i)))
    {
      var id := ids[f];
      ScatteredStep(c, ids, f, V, k, s, G, gV[..]);
      gV[id] := Add(gV[id], Scale(c, Sub(s, V[id])));
    }
    assert ids[..|ids|] == ids;
  }

  /** The scatter of the whole batch, row by row. */
  method ScatterV(p: Params, k: nat, X: seq<seq<nat>>, g: seq<real>) returns (gV: array<seq<real>>)
    requires ValidParams(p, k) && ValidBatch(X, |p.V|) && |g| == |X|
    ensures fresh(gV) && gV.Length == |p.V|
    ensures forall id | 0 <= id < |p.V| :: gV[id] == WeightedVectors(g, Slots(p.V, k, X, id), k)
  {
    gV := new seq<real>[|p.V|](_ => Zero(k));
    for n := 0 to |X|
      invariant forall id | 0 <= id < |p.V| ::
                  gV[id] == WeightedVectors(g[..n], Slots(p.V, k, X, id)[..n], k)
    {
      ScatterRow(gV, p.V, k, X[n], SumVectors(Embed(p.V, X[n]), k), g[n]);
      forall id | 0 <= id < |p.V|
        ensures WeightedVectors(g[..n+1], Slots(p.V, k, X, id)[..n+1], k)
             == Add(WeightedVectors(g[..n], Slots(p.V, k, X, id)[..n], k), Scale(g[n], Slots(p.V, k, X, id)[n]))
      {
        WeightedVectorsSnoc(g, Slots(p.V, k, X, id), k, n);
      }
    }
    forall id | 0 <= id < |p.V|
      ensures Slots(p.V, k, X, id)[..|X|] == Slots(p.V, k, X, id)
    {
    }
    assert g[..|X|] == g;
  }

  lemma WeightedVectorsSnoc(g: seq<real>, vs: seq<seq<real>>, k: nat, n: nat)
    requires |g| == |vs| && Uniform(vs, k) && n < |g|
    ensures WeightedVectors(g[..n+1], vs[..n+1], k) == Add(WeightedVectors(g[..n], vs[..n], k), Scale(g[n], vs[n]))
  {
    assert g[..n+1][..n] == g[..n] && vs[..n+1][..n] == vs[..n];
  }

  lemma {:induction false} WeightedSumSnoc(g: seq<real>, z: seq<real>, n: nat)
    requires |g| == |z| && n < |g|
    ensures WeightedSum(g[..n+1], z[..n+1]) == WeightedSum(g[..n], z[..n]) + Times(g[n], z[n])
  {
    assert g[..n+1][..n] == g[..n] && z[..n+1][..n] == z[..n];
  }

  /** `np.add.at(gW, X, g[:, None])` on one row. */
  method ScatterRowW(gW: array<real>, ids: seq<nat>, c: real)
    requires ValidIds(ids, gW.Length)
    modifies gW
    ensures forall i | 0 <= i < gW.Length :: gW[i] == old(gW[i]) + Times(c, CountId(ids, i) as real)
  {
    for f := 0 to |ids|
      invariant forall i | 0 <= i < gW.Length :: gW[i] == old(gW[i]) + Times(c, CountId(ids[..f], i) as real)
    {
      assert ids[..f+1][..f] == ids[..f];
      TimesAdd(c, CountId(ids[..f], ids[f]) as real, 1.0);
      gW[ids[f]] := gW[ids[f]] + c;
    }
    assert ids[..|ids|] == ids;
  }

  method ScatterW(X: seq<seq<nat>>, g: seq<real>, dim: nat) returns (gW: array<real>)
    requires ValidBatch(X, dim) && |g| == |X|
    ensures fresh(gW) && gW.Length == dim
    ensures forall id | 0 <= id < dim :: gW[id] == WeightedSum(g, Counts(X, id))
  {
    gW := new real[dim](_ => 0.0);
    for n := 0 to |X|
      invariant forall id | 0 <= id < dim :: gW[id] == WeightedSum(g[..n], Counts(X, id)[..n])
    {
      ScatterRowW(gW, X[n], g[n]);
      forall id | 0 <= id < dim
        ensures WeightedSum(g[..n+1], Counts(X, id)[..n+1])
             == WeightedSum(g[..n], Counts(X, id)[..n]) + Times(g[n], CountId(X[n], id) as real)
      {
        WeightedSumSnoc(g, Counts(X, id), n);
      }
    }
    forall id | 0 <= id < dim
      ensures Counts(X, id)[..|X|] == Counts(X, id)
    {
    }
    assert g[..|X|] == g;
  }

  /** `(sigmoid(z) - y) / B` */
  function Residuals(sigmoid: real -> real, z: seq<real>, y: seq<real>): (g: seq<real>)
    requires |z| == |y|
    ensures |g| == |z|
    ensures forall n :: 0 <= n < |z| ==> g[n] == (sigmoid(z[n]) - y[n]) / |y| as real
  {
    seq(|z|, n requires 0 <= n < |z| => (sigmoid(z[n]) - y[n]) / |y| as real)
  }

  /** The gradient part of `step`: residuals, two scatters, weight decay. */
  method StepGradients(p: Params, k: nat, X: seq<seq<nat>>, y: seq<real>, sigmoid: real -> real, l2: real)
    returns (grad: Gradients)
    requires ValidParams(p, k) && ValidBatch(X, |p.V|) && |y| == |X|
    ensures IsGradient(grad, p, k, X, Residuals(sigmoid, BatchLogits(p, k, X), y), l2)
  {
    var g := Residuals(sigmoid, BatchLogits(p, k, X), y);
    var gW := ScatterW(X, g, |p.V|);
    var gV := ScatterV(p, k, X, g);
    var decayedV := seq(|p.V|, id requires 0 <= id < |p.V| && gV.Length == |p.V| && |gV[id]| == k reads gV =>
                          Add(gV[id], Scale(l2, p.V[id])));
    var decayedW := seq(|p.W|, id requires 0 <= id < |p.W| && gW.Length == |p.W| reads gW =>
                          gW[id] + Times(l2, p.W[id]));
    grad := Gradients(decayedV, decayedW, SumResiduals(g));
  }

  /** What the accumulated gradient means: in every direction it is the exact change of the residual-weighted
      logits, plus the decay term. */
  lemma StepEmbeddingGradient(grad: Gradients, p: Params, k: nat, X: seq<seq<nat>>, g: seq<real>, l2: real,
                              id: nat, h: seq<real>)
    requires ValidParams(p, k) && ValidBatch(X, |p.V|) && |g| == |X| && IsGradient(grad, p, k, X, g, l2)
    requires forall n | 0 <= n < |X| :: NoDuplicates(X[n])
    requires id < |p.V| && |h| == k
    ensures |grad.V[id]| == k && ValidParams(ShiftV(p, id, h), k)
    ensures Dot(h, grad.V[id]) - Times(l2, Dot(h, p.V[id]))
         == WeightedSum(g, BatchLogits(ShiftV(p, id, h), k, X)) - WeightedSum(g, BatchLogits(p, k, X))
  {
    GradVExact(p, k, X, g, id, h);
    DotStep(h, WeightedVectors(g, Slots(p.V, k, X, id), k), l2, p.V[id]);
  }

  lemma StepWeightGradient(grad: Gradients, p: Params, k: nat, X: seq<seq<nat>>, g: seq<real>, l2: real,
                           id: nat, d: real)
    requires ValidParams(p, k) && ValidBatch(X, |p.V|) && |g| == |X| && IsGradient(grad, p, k, X, g, l2)
    requires id < |p.W|
    ensures ValidParams(ShiftW(p, id, d), k)
    ensures Times(d, grad.W[id]) - Times(d, Times(l2, p.W[id]))
         == WeightedSum(g, BatchLogits(ShiftW(p, id, d), k, X)) - WeightedSum(g, BatchLogits(p, k, X))
  {
    GradWExact(p, k, X, g, id, d);
    TimesCancel(d, WeightedSum(g, Counts(X, id)), Times(l2, p.W[id]), grad.W[id]);
  }

  lemma StepBiasGradient(grad: Gradients, p: Params, k: nat, X: seq<seq<nat>>, g: seq<real>, l2: real, d: real)
    requires ValidParams(p, k) && ValidBatch(X, |p.V|) && |g| == |X| && IsGradient(grad, p, k, X, g, l2)
    ensures Times(d, grad.b)
         == WeightedSum(g, BatchLogits(p.(b := p.b + d), k, X)) - WeightedSum(g, BatchLogits(p, k, X))
  {
    GradBExact(p, k, X, g, d);
  }
}
