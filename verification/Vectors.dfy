/** Real vectors of one common length, as far as the factorization machine needs them. */
module Vectors {

  /** A product with a name: equal factors then give equal products without any arithmetic. */
  function Times(a: real, b: real): real { a * b }

  lemma TimesAdd(c: real, a: real, b: real)
    ensures Times(c, a + b) == Times(c, a) + Times(c, b)
  {
  }

  lemma TimesSub(c: real, a: real, b: real)
    ensures Times(c, a - b) == Times(c, a) - Times(c, b)
  {
  }

  /** a (c b) = c (a b) */
  lemma TimesCommutes(a: real, c: real, b: real)
    ensures Times(a, Times(c, b)) == Times(c, Times(a, b))
  {
  }

  lemma TimesAssociates(a: real, b: real, c: real)
    ensures Times(a, Times(b, c)) == Times(Times(a, b), c)
  {
  }

  /** Taking one summand out again. */
  lemma TimesCancel(d: real, a: real, b: real, total: real)
    requires total == a + b
    ensures Times(d, total) - Times(d, b) == Times(d, a)
  {
    TimesAdd(d, a, b);
  }

  function Dot(a: seq<real>, b: seq<real>): real
    requires |a| == |b|
  {
    if a == [] then 0.0 else Times(a[0], b[0]) + Dot(a[1..], b[1..])
  }

  function Add(a: seq<real>, b: seq<real>): (c: seq<real>)
    requires |a| == |b|
    ensures |c| == |a|
    ensures forall i :: 0 <= i < |a| ==> c[i] == a[i] + b[i]
  {
    if a == [] then [] else [a[0] + b[0]] + Add(a[1..], b[1..])
  }

  function Scale(c: real, a: seq<real>): (b: seq<real>)
    ensures |b| == |a|
    ensures forall i :: 0 <= i < |a| ==> b[i] == Times(c, a[i])
  {
    if a == [] then [] else [Times(c, a[0])] + Scale(c, a[1..])
  }

  function Sub(a: seq<real>, b: seq<real>): (c: seq<real>)
    requires |a| == |b|
    ensures |c| == |a|
    ensures forall i :: 0 <= i < |a| ==> c[i] == a[i] - b[i]
  {
    if a == [] then [] else [a[0] - b[0]] + Sub(a[1..], b[1..])
  }

  function Zero(k: nat): (z: seq<real>)
    ensures |z| == k
    ensures forall i :: 0 <= i < k ==> z[i] == 0.0
  {
    if k == 0 then [] else [0.0] + Zero(k - 1)
  }

  lemma {:induction false} DotSymmetric(a: seq<real>, b: seq<real>)
    requires |a| == |b|
    ensures Dot(a, b) == Dot(b, a)
  {
    if a != [] {
      DotSymmetric(a[1..], b[1..]);
    }
  }

  lemma {:induction false} DotAdd(a: seq<real>, b: seq<real>, c: seq<real>)
    requires |a| == |b| == |c|
    ensures Dot(a, Add(b, c)) == Dot(a, b) + Dot(a, c)
  {
    if a != [] {
      DotAdd(a[1..], b[1..], c[1..]);
      TimesAdd(a[0], b[0], c[0]);
      assert Add(b, c)[1..] == Add(b[1..], c[1..]);
    }
  }

  lemma {:induction false} DotSub(a: seq<real>, b: seq<real>, c: seq<real>)
    requires |a| == |b| == |c|
    ensures Dot(a, Sub(b, c)) == Dot(a, b) - Dot(a, c)
  {
    if a != [] {
      DotSub(a[1..], b[1..], c[1..]);
      TimesSub(a[0], b[0], c[0]);
      assert Sub(b, c)[1..] == Sub(b[1..], c[1..]);
    }
  }

  lemma {:induction false} DotScale(a: seq<real>, c: real, b: seq<real>)
    requires |a| == |b|
    ensures Dot(a, Scale(c, b)) == Times(c, Dot(a, b))
  {
    if a != [] {
      DotScale(a[1..], c, b[1..]);
      assert Scale(c, b)[1..] == Scale(c, b[1..]);
      TimesAdd(c, Times(a[0], b[0]), Dot(a[1..], b[1..]));
      TimesCommutes(a[0], c, b[0]);
    }
  }

  lemma {:induction false} DotZero(a: seq<real>)
    ensures Dot(a, Zero(|a|)) == 0.0
  {
    if a != [] {
      DotZero(a[1..]);
      assert Zero(|a|)[1..] == Zero(|a| - 1);
    }
  }

  /** |a + b|^2 = |a|^2 + 2<a,b> + |b|^2 */
  lemma SquareOfSum(a: seq<real>, b: seq<real>)
    requires |a| == |b|
    ensures Dot(Add(a, b), Add(a, b)) == Dot(a, a) + 2.0 * Dot(a, b) + Dot(b, b)
  {
    var s := Add(a, b);
    DotAdd(s, a, b);
    DotSymmetric(s, a);
    DotSymmetric(s, b);
    DotAdd(a, a, b);
    DotAdd(b, a, b);
    DotSymmetric(a, b);
  }

  lemma DotStep(h: seq<real>, a: seq<real>, c: real, v: seq<real>)
    requires |h| == |a| == |v|
    ensures Dot(h, Add(a, Scale(c, v))) == Dot(h, a) + Times(c, Dot(h, v))
  {
    DotAdd(h, a, Scale(c, v));
    DotScale(h, c, v);
  }

  lemma {:induction false} AddAssociates(a: seq<real>, b: seq<real>, c: seq<real>)
    requires |a| == |b| == |c|
    ensures Add(a, Add(b, c)) == Add(Add(a, b), c)
    ensures Add(Add(a, c), b) == Add(Add(a, b), c)
  {
    if a != [] {
      AddAssociates(a[1..], b[1..], c[1..]);
      assert Add(b, c)[1..] == Add(b[1..], c[1..]) && Add(a, b)[1..] == Add(a[1..], b[1..]);
      assert Add(a, c)[1..] == Add(a[1..], c[1..]);
    }
  }

  lemma {:induction false} ScaleAdd(c: real, a: seq<real>, b: seq<real>)
    requires |a| == |b|
    ensures Scale(c, Add(a, b)) == Add(Scale(c, a), Scale(c, b))
  {
    if a != [] {
      ScaleAdd(c, a[1..], b[1..]);
      assert Add(a, b)[1..] == Add(a[1..], b[1..]);
      TimesAdd(c, a[0], b[0]);
      assert Scale(c, a)[1..] == Scale(c, a[1..]) && Scale(c, b)[1..] == Scale(c, b[1..]);
    }
  }

  lemma {:induction false} ScaleZero(c: real, k: nat)
    ensures Scale(c, Zero(k)) == Zero(k)
  {
    if k > 0 {
      ScaleZero(c, k - 1);
      assert Zero(k)[1..] == Zero(k - 1);
    }
  }

  lemma {:induction false} AddZero(a: seq<real>)
    ensures Add(a, Zero(|a|)) == a
  {
  }

  lemma {:induction false} AddCommutes(a: seq<real>, b: seq<real>)
    requires |a| == |b|
    ensures Add(a, b) == Add(b, a)
  {
  }
}
