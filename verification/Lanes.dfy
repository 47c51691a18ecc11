/** The vector kernels over the reals: four accumulators of four lanes each add up to
    the plain sum, for every length. */
module Lanes {
  /** One 128-bit register of four floats. */
  datatype Lanes4 = Lanes4(x0: real, x1: real, x2: real, x3: real) {
    function Total(): real { x0 + x1 + x2 + x3 }

    function Plus(o: Lanes4): Lanes4 { Lanes4(x0 + o.x0, x1 + o.x1, x2 + o.x2, x3 + o.x3) }

    /** Fused multiply-add, lane by lane. */
    function Fma(a: Lanes4, b: Lanes4): Lanes4 {
      Lanes4(x0 + a.x0 * b.x0, x1 + a.x1 * b.x1, x2 + a.x2 * b.x2, x3 + a.x3 * b.x3)
    }
  }

  const ZERO: Lanes4 := Lanes4(0.0, 0.0, 0.0, 0.0)

  function Load(s: seq<real>, i: nat): Lanes4
    requires i + 4 <= |s|
  {
    Lanes4(s[i], s[i + 1], s[i + 2], s[i + 3])
  }

  /** The plain sum of products. */
  function Dot(a: seq<real>, b: seq<real>, n: nat): real
    requires n <= |a| && n <= |b|
  {
    if n == 0 then 0.0 else Dot(a, b, n - 1) + a[n - 1] * b[n - 1]
  }

  /** One vector step of one accumulator is four steps of the sum. */
  lemma FmaAddsFour(acc: Lanes4, a: seq<real>, b: seq<real>, i: nat)
    requires i + 4 <= |a| && i + 4 <= |b|
    ensures acc.Fma(Load(a, i), Load(b, i)).Total() - acc.Total() == Dot(a, b, i + 4) - Dot(a, b, i)
  {
    assert Dot(a, b, i + 4) == Dot(a, b, i + 3) + a[i + 3] * b[i + 3];
    assert Dot(a, b, i + 3) == Dot(a, b, i + 2) + a[i + 2] * b[i + 2];
    assert Dot(a, b, i + 2) == Dot(a, b, i + 1) + a[i + 1] * b[i + 1];
    assert Dot(a, b, i + 1) == Dot(a, b, i) + a[i] * b[i];
  }

  /** The vector dot product: a loop over sixteen, in the fp32 and fp16 kernels a loop
      over four, the horizontal sum, and a scalar tail. */
  method LaneDot(a: seq<real>, b: seq<real>, d: nat, fourWide: bool) returns (sum: real)
    requires d <= |a| && d <= |b|
    ensures sum == Dot(a, b, d)
  {
    hide Dot, Load, Lanes4.Fma;
    var acc0, acc1, acc2, acc3 := ZERO, ZERO, ZERO, ZERO;
    var i := 0;
    DotNone(a, b);
    while i + 16 <= d
      invariant 0 <= i <= d
      invariant acc0.Total() + acc1.Total() + acc2.Total() + acc3.Total() == Dot(a, b, i)
    {
      FmaAddsFour(acc0, a, b, i);
      FmaAddsFour(acc1, a, b, i + 4);
      FmaAddsFour(acc2, a, b, i + 8);
      FmaAddsFour(acc3, a, b, i + 12);
      acc0 := acc0.Fma(Load(a, i), Load(b, i));
      acc1 := acc1.Fma(Load(a, i + 4), Load(b, i + 4));
      acc2 := acc2.Fma(Load(a, i + 8), Load(b, i + 8));
      acc3 := acc3.Fma(Load(a, i + 12), Load(b, i + 12));
      i := i + 16;
    }
    while fourWide && i + 4 <= d
      invariant 0 <= i <= d
      invariant acc0.Total() + acc1.Total() + acc2.Total() + acc3.Total() == Dot(a, b, i)
      decreases d - i
    {
      FmaAddsFour(acc0, a, b, i);
      acc0 := acc0.Fma(Load(a, i), Load(b, i));
      i := i + 4;
    }
    sum := acc0.Plus(acc1).Plus(acc2.Plus(acc3)).Total();
    while i < d
      invariant 0 <= i <= d
      invariant sum == Dot(a, b, i)
    {
      DotNext(a, b, i);
      sum := sum + a[i] * b[i];
      i := i + 1;
    }
  }

  lemma DotNone(a: seq<real>, b: seq<real>)
    ensures Dot(a, b, 0) == 0.0
  {
  }

  lemma DotNext(a: seq<real>, b: seq<real>, i: nat)
    requires i < |a| && i < |b|
    ensures Dot(a, b, i + 1) == Dot(a, b, i) + a[i] * b[i]
  {
  }

  /** The scalar kernel's loop computes the same number, so over the reals the vector
      kernels refine the scalar ones. */
  method ScalarDot(a: seq<real>, b: seq<real>, d: nat) returns (sum: real)
    requires d <= |a| && d <= |b|
    ensures sum == Dot(a, b, d)
  {
    sum := 0.0;
    var i := 0;
    while i < d
      invariant 0 <= i <= d
      invariant sum == Dot(a, b, i)
    {
      sum := sum + a[i] * b[i];
      i := i + 1;
    }
  }
}
