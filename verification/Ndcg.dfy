/** `ndcg_at_k` of kuairand-starter-kit/evaluate.py on binary labels. */
module Ndcg {
  import opened Sums
  import opened Sorting
  import opened Auc

  /** The discounts log2(2), log2(3), .. of the first k places: positive and strictly increasing. */
  ghost predicate Discounts(disc: seq<real>) {
    && (forall i | 0 <= i < |disc| :: 0.0 < disc[i])
    && (forall i | 0 < i < |disc| :: disc[i-1] < disc[i])
  }

  function Gain(t: Label): real {
    (if t == 0 then 1.0 else 2.0) - 1.0
  }

  /** Discounted gain of the first |disc| labels. */
  function Dcg(labels: seq<Label>, disc: seq<real>): real {
    if labels == [] || disc == [] || disc[0] == 0.0 then 0.0
    else Gain(labels[0]) / disc[0] + Dcg(labels[1..], disc[1..])
  }

  function DescendingLabels(): (Label, Label) -> bool { (x: Label, y: Label) => x >= y }

  /** Normalised gain; the labels are in the order of descending prediction. */
  function NdcgOf(labels: seq<Label>, disc: seq<real>): real {
    var idcg := Dcg(StableSort(DescendingLabels(), labels), disc);
    if idcg == 0.0 then 0.0 else Dcg(labels, disc) / idcg
  }

  function CountOnes(labels: seq<Label>): (n: nat)
    ensures n <= |labels|
  {
    if labels == [] then 0 else labels[0] + CountOnes(labels[1..])
  }

  /** Discounted gain of n positives in a row. */
  function Ideal(n: nat, disc: seq<real>): real {
    if n == 0 || disc == [] || disc[0] == 0.0 then 0.0 else 1.0 / disc[0] + Ideal(n - 1, disc[1..])
  }

  // ---------------------------------------------------------------- the ideal order

  lemma {:induction false} DcgOfSorted(labels: seq<Label>, disc: seq<real>)
    requires forall i, j | 0 <= i < j < |labels| :: labels[i] >= labels[j]
    requires Discounts(disc)
    ensures Dcg(labels, disc) == Ideal(CountOnes(labels), disc)
  {
    if labels != [] && disc != [] {
      if labels[0] == 0 {
        AllZero(labels);
      }
      DcgOfSorted(labels[1..], disc[1..]);
    }
  }

  lemma {:induction false} AllZero(labels: seq<Label>)
    requires forall i | 0 <= i < |labels| :: labels[i] == 0
    ensures CountOnes(labels) == 0
  {
    if labels != [] {
      AllZero(labels[1..]);
    }
  }

  lemma {:induction false} CountOnesConcat(xs: seq<Label>, ys: seq<Label>)
    ensures CountOnes(xs + ys) == CountOnes(xs) + CountOnes(ys)
  {
    if xs == [] {
      assert xs + ys == ys;
    } else {
      assert (xs + ys)[1..] == xs[1..] + ys;
      CountOnesConcat(xs[1..], ys);
    }
  }

  lemma {:induction false} CountOnesPermute(xs: seq<Label>, ys: seq<Label>)
    requires multiset(xs) == multiset(ys)
    ensures CountOnes(xs) == CountOnes(ys)
  {
    assert |xs| == |multiset(xs)| == |multiset(ys)| == |ys|;
    if xs != [] {
      var i := StrikeOut(xs, ys);
      CountOnesPermute(xs[1..], ys[..i] + ys[i+1..]);
      assert ys == ys[..i] + ([ys[i]] + ys[i+1..]);
      CountOnesConcat(ys[..i], [ys[i]] + ys[i+1..]);
      CountOnesConcat(ys[..i], ys[i+1..]);
    }
  }

  /** Sorting puts every positive first, so the normaliser depends on the number of positives only. */
  lemma IdealOrder(labels: seq<Label>, disc: seq<real>)
    requires Discounts(disc)
    ensures Dcg(StableSort(DescendingLabels(), labels), disc) == Ideal(CountOnes(labels), disc)
  {
    var ideal := StableSort(DescendingLabels(), labels);
    StableSortSorted(DescendingLabels(), labels);
    forall i, j | 0 <= i < j < |ideal|
      ensures ideal[i] >= ideal[j]
    {
      assert DescendingLabels()(ideal[i], ideal[j]);
    }
    DcgOfSorted(ideal, disc);
    CountOnesPermute(ideal, labels);
  }

  // ---------------------------------------------------------------- bounds

  lemma LaterPlaceWeighsLess(d: real, d': real)
    requires 0.0 < d < d'
    ensures 0.0 < 1.0 / d' < 1.0 / d
  {
    var w, w' := 1.0 / d, 1.0 / d';
    assert w * d == 1.0 && w' * d' == 1.0;
    assert w' > 0.0;
    assert w' * d < w' * d';
    assert w' * d < w * d;
  }

  /** Starting one place later costs the ideal list; strictly, as long as it has something to lose. */
  lemma {:induction false} IdealShift(n: nat, disc: seq<real>)
    requires Discounts(disc) && disc != []
    ensures Ideal(n, disc[1..]) <= Ideal(n, disc)
    ensures n > 0 ==> Ideal(n, disc[1..]) < Ideal(n, disc)
  {
    if n > 0 {
      if |disc| == 1 {
        assert 0.0 < 1.0 / disc[0];
      } else {
        LaterPlaceWeighsLess(disc[0], disc[1]);
        IdealShift(n - 1, disc[1..]);
      }
    }
  }

  lemma {:induction false} IdealPositive(n: nat, disc: seq<real>)
    requires Discounts(disc)
    ensures 0.0 <= Ideal(n, disc)
    ensures 0.0 < Ideal(n, disc) <==> n > 0 && disc != []
  {
    if n > 0 && disc != [] {
      assert 0.0 < 1.0 / disc[0];
      IdealPositive(n - 1, disc[1..]);
    }
  }

  ghost predicate LeadingOnes(labels: seq<Label>, n: nat) {
    n <= |labels| && forall i | 0 <= i < n :: labels[i] == 1
  }

  function Min(a: nat, b: nat): nat { if a <= b then a else b }

  /** No order beats the ideal one, and only an order that leads with its positives attains it. */
  lemma {:induction false} DcgVersusIdeal(labels: seq<Label>, disc: seq<real>)
    requires Discounts(disc)
    ensures 0.0 <= Dcg(labels, disc) <= Ideal(CountOnes(labels), disc)
    ensures Dcg(labels, disc) == Ideal(CountOnes(labels), disc)
       <==> LeadingOnes(labels, Min(|disc|, CountOnes(labels)))
  {
    if labels != [] && disc != [] {
      var n := CountOnes(labels);
      var lead := Min(|disc|, n);
      assert 0.0 < 1.0 / disc[0];
      DcgVersusIdeal(labels[1..], disc[1..]);
      if labels[0] == 1 {
        LeadingOnesStep(labels, lead);
      } else {
        IdealShift(n, disc);
      }
    }
  }

  lemma LeadingOnesStep(labels: seq<Label>, n: nat)
    requires labels != [] && labels[0] == 1 && 0 < n
    ensures LeadingOnes(labels, n) <==> LeadingOnes(labels[1..], n - 1)
  {
    if LeadingOnes(labels[1..], n - 1) {
      forall i | 0 <= i < n
        ensures labels[i] == 1
      {
        assert i > 0 ==> labels[i] == labels[1..][i-1];
      }
    }
  }

  lemma Quotient(a: real, b: real)
    requires 0.0 <= a <= b && 0.0 < b
    ensures 0.0 <= a / b <= 1.0
    ensures a / b == 1.0 <==> a == b
  {
    var q := a / b;
    assert q * b == a;
    assert q < 0.0 ==> q * b < 0.0;
    assert q > 1.0 ==> (q - 1.0) * b > 0.0;
  }

  /** The score lies in [0,1]; it is 1 exactly for orders that lead with their positives, and 0 without any positive. */
  lemma NdcgCharacterised(labels: seq<Label>, disc: seq<real>)
    requires Discounts(disc)
    ensures 0.0 <= NdcgOf(labels, disc) <= 1.0
    ensures CountOnes(labels) == 0 ==> NdcgOf(labels, disc) == 0.0
    ensures NdcgOf(labels, disc) == 1.0
       <==> disc != [] && CountOnes(labels) > 0 && LeadingOnes(labels, Min(|disc|, CountOnes(labels)))
  {
    IdealOrder(labels, disc);
    DcgVersusIdeal(labels, disc);
    var n := CountOnes(labels);
    IdealPositive(n, disc);
    if Ideal(n, disc) != 0.0 {
      Quotient(Dcg(labels, disc), Ideal(n, disc));
    }
  }

  // ---------------------------------------------------------------- moving a positive up

  lemma {:induction false} DcgSwap(a: seq<Label>, b: seq<Label>, disc: seq<real>)
    requires Discounts(disc)
    ensures Dcg(a + [0, 1] + b, disc) <= Dcg(a + [1, 0] + b, disc)
    ensures |a| < |disc| ==> Dcg(a + [0, 1] + b, disc) < Dcg(a + [1, 0] + b, disc)
  {
    var low, high := a + [0, 1] + b, a + [1, 0] + b;
    if disc == [] {
    } else if a == [] {
      assert low[1..] == [1] + b && high[1..] == [0] + b;
      assert ([1] + b)[1..] == b && ([0] + b)[1..] == b;
      assert 0.0 < 1.0 / disc[0];
      if |disc| > 1 {
        LaterPlaceWeighsLess(disc[0], disc[1]);
      }
    } else {
      assert low[1..] == a[1..] + [0, 1] + b && high[1..] == a[1..] + [1, 0] + b;
      DcgSwap(a[1..], b, disc[1..]);
    }
  }

  lemma SwapKeepsLabels(a: seq<Label>, b: seq<Label>)
    ensures CountOnes(a + [0, 1] + b) == CountOnes(a + [1, 0] + b) == CountOnes(a) + 1 + CountOnes(b)
  {
    CountOnesConcat(a + [0, 1], b);
    CountOnesConcat(a + [1, 0], b);
    CountOnesConcat(a, [0, 1]);
    CountOnesConcat(a, [1, 0]);
  }

  /** Moving a positive ahead of its negative neighbour never hurts, and helps inside the first k places. */
  lemma NdcgSwap(a: seq<Label>, b: seq<Label>, disc: seq<real>)
    requires Discounts(disc)
    ensures NdcgOf(a + [0, 1] + b, disc) <= NdcgOf(a + [1, 0] + b, disc)
    ensures |a| < |disc| ==> NdcgOf(a + [0, 1] + b, disc) < NdcgOf(a + [1, 0] + b, disc)
  {
    var low, high := a + [0, 1] + b, a + [1, 0] + b;
    SwapKeepsLabels(a, b);
    IdealOrder(low, disc);
    IdealOrder(high, disc);
    DcgSwap(a, b, disc);
    var d := Ideal(CountOnes(low), disc);
    IdealPositive(CountOnes(low), disc);
    if d > 0.0 {
      DivideOrder(Dcg(low, disc), Dcg(high, disc), d);
    }
  }

  lemma DivideOrder(a: real, b: real, d: real)
    requires a <= b && 0.0 < d
    ensures a / d <= b / d
    ensures a < b ==> a / d < b / d
  {
    var q, r := a / d, b / d;
    assert q * d == a && r * d == b;
    assert q > r ==> (q - r) * d > 0.0;
    assert a < b && q == r ==> q * d == r * d;
  }
}
