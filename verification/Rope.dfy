/** Rotary frequencies over the reals, with the three-band scaling of long contexts. */
module Rope {
  /** Circle constant, scaling factor, the two band edges and the trained context. */
  datatype Scaling = Scaling(twoPi: real, factor: real, low: real, high: real, original: real) {
    predicate Valid() {
      twoPi > 0.0 && factor >= 1.0 && 0.0 < low < high && original > 0.0
    }
  }

  /** Frequency `i` before scaling.  With `rho` the base to the power two over the head
      dimension, it is the `i`-th power of one over `rho`. */
  function Frequency(rho: real, i: nat): (f: real)
    requires rho > 1.0
    ensures f > 0.0
  {
    if i == 0 then 1.0 else Frequency(rho, i - 1) / rho
  }

  function Wavelength(p: Scaling, fr: real): real
    requires fr > 0.0
  {
    p.twoPi / fr
  }

  /** The straight line between the band edges. */
  function Line(p: Scaling, x: real): real
    requires p.Valid()
  {
    (x - p.low) / Width(p)
  }

  function Width(p: Scaling): (w: real)
    requires p.Valid()
    ensures w > 0.0
  {
    p.high - p.low
  }

  /** How often a frequency turns over the trained context. */
  function Cycles(p: Scaling, fr: real): real
    requires p.Valid()
  {
    p.original / p.twoPi * fr
  }

  /** A share `smooth` of the frequency and the rest of it slowed down. */
  function Blend(fr: real, smooth: real, factor: real): real
    requires factor > 0.0
  {
    (1.0 - smooth) * fr / factor + smooth * fr
  }

  /** One frequency scaled as the code does it: long waves are slowed down by the
      factor, short ones kept, those between blended. */
  function Scaled(p: Scaling, fr: real): real
    requires p.Valid() && fr > 0.0
  {
    var w := Wavelength(p, fr);
    PositiveQuotient(p.twoPi, fr);
    if w > p.original / p.low then fr / p.factor
    else if w < p.original / p.high then fr
    else
      Blend(fr, Line(p, p.original / w), p.factor)
  }

  // ---- Divisions ----

  lemma PositiveQuotient(a: real, b: real)
    requires a > 0.0 && b > 0.0
    ensures a / b > 0.0 && a / b * b == a
  {
    if a / b <= 0.0 { NonPositive(a / b, b); }
  }

  lemma NonPositive(x: real, y: real)
    requires x <= 0.0 && y > 0.0
    ensures x * y <= 0.0
  {
  }

  lemma Cancel(x: real, y: real, s: real)
    requires s > 0.0
    ensures x * s < y * s <==> x < y
    ensures x * s == y * s <==> x == y
  {
    assert (y - x) * s == y * s - x * s;
    if y - x <= 0.0 { NonPositive(y - x, s); } else { PositiveProduct(y - x, s); }
    if x - y <= 0.0 { NonPositive(x - y, s); } else { PositiveProduct(x - y, s); }
    assert (x - y) * s == x * s - y * s;
  }

  lemma PositiveProduct(x: real, y: real)
    requires x > 0.0 && y > 0.0
    ensures x * y > 0.0
  {
  }

  lemma QuotientOf(a: real, b: real, q: real)
    requires b > 0.0 && a == q * b
    ensures a / b == q
  {
    Cancel(a / b, q, b);
  }

  /** One over the wavelength grows with the frequency. */
  lemma OverWavelength(p: Scaling, fr: real)
    requires p.Valid() && fr > 0.0
    ensures Wavelength(p, fr) > 0.0 && p.original / Wavelength(p, fr) == Cycles(p, fr)
  {
    var w := Wavelength(p, fr);
    PositiveQuotient(p.twoPi, fr);
    PositiveQuotient(p.original, p.twoPi);
    var c := p.original / p.twoPi;
    assert c * fr * w == c * (fr * w) == c * p.twoPi == p.original by {
      assert fr * w == w * fr == p.twoPi;
    }
    QuotientOf(p.original, w, c * fr);
  }

  /** Comparing a wavelength with a band edge is comparing its inverse with the edge. */
  lemma BandEdge(w: real, original: real, edge: real)
    requires w > 0.0 && original > 0.0 && edge > 0.0
    ensures w > original / edge <==> original / w < edge
    ensures w < original / edge <==> original / w > edge
  {
    PositiveQuotient(original, edge);
    PositiveQuotient(original, w);
    Cancel(original / edge, w, edge);
    Cancel(original / w, edge, w);
    assert w * edge == edge * w;
    Cancel(w, original / edge, edge);
    Cancel(edge, original / w, w);
  }

  // ---- The blend ----

  /** How much of the unscaled frequency is kept: nothing below the low band edge, all
      above the high one, in between a straight line. */
  function Kept(p: Scaling, fr: real): real
    requires p.Valid() && fr > 0.0
  {
    KeptAt(p, Cycles(p, fr))
  }

  function KeptAt(p: Scaling, x: real): real
    requires p.Valid()
  {
    if x < p.low then 0.0 else if x > p.high then 1.0 else Line(p, x)
  }

  function Multiplier(p: Scaling, kept: real): real
    requires p.Valid()
  {
    (1.0 - kept) / p.factor + kept
  }

  /** The scaled frequency is the frequency times the blend. */
  lemma ScaledIsBlend(p: Scaling, fr: real)
    requires p.Valid() && fr > 0.0
    ensures Scaled(p, fr) == fr * Multiplier(p, Kept(p, fr))
  {
    hide Line, Blend, Multiplier, Wavelength, Cycles;
    var w := Wavelength(p, fr);
    PositiveQuotient(p.twoPi, fr);
    OverWavelength(p, fr);
    BandEdge(w, p.original, p.low);
    BandEdge(w, p.original, p.high);
    BlendOut(p, fr, Kept(p, fr));
  }

  lemma BlendOut(p: Scaling, fr: real, s: real)
    requires p.Valid()
    ensures fr * Multiplier(p, s) == Blend(fr, s, p.factor)
    ensures s == 0.0 ==> fr * Multiplier(p, s) == fr / p.factor
    ensures s == 1.0 ==> fr * Multiplier(p, s) == fr
  {
    var factor := p.factor;
    var q := (1.0 - s) / factor;
    assert q * factor == 1.0 - s;
    assert (fr * q) * factor == fr * (q * factor) == (1.0 - s) * fr;
    QuotientOf((1.0 - s) * fr, factor, fr * q);
    if s == 0.0 { assert (1.0 - s) * fr == fr; }
    if s == 1.0 { assert q * factor == 0.0; Cancel(q, 0.0, factor); }
  }

  lemma KeptInRange(p: Scaling, fr: real)
    requires p.Valid() && fr > 0.0
    ensures 0.0 <= Kept(p, fr) <= 1.0
  {
    hide Line, Cycles;
    var x := Cycles(p, fr);
    if p.low <= x <= p.high { LineInRange(p, x); }
  }

  lemma LineInRange(p: Scaling, x: real)
    requires p.Valid() && p.low <= x <= p.high
    ensures 0.0 <= Line(p, x) <= 1.0
  {
    hide Line;
    LineIs(p, x);
    assert 0.0 * Width(p) == 0.0 && 1.0 * Width(p) == Width(p);
    NoMore(0.0, Line(p, x), Width(p));
    NoMore(Line(p, x), 1.0, Width(p));
  }

  lemma LineIs(p: Scaling, x: real)
    requires p.Valid()
    ensures Line(p, x) * Width(p) == x - p.low
  {
  }

  lemma NoMore(x: real, y: real, s: real)
    requires s > 0.0 && x * s <= y * s
    ensures x <= y
  {
    Cancel(y, x, s);
  }

  lemma LineGrows(p: Scaling, x: real, y: real)
    requires p.Valid() && x <= y
    ensures Line(p, x) <= Line(p, y)
  {
    hide Line, Width;
    LineIs(p, x);
    LineIs(p, y);
    NoMore(Line(p, x), Line(p, y), Width(p));
  }

  lemma KeptGrows(p: Scaling, x: real, y: real)
    requires p.Valid() && 0.0 < x < y
    ensures Kept(p, x) <= Kept(p, y)
  {
    hide KeptAt, Cycles;
    CyclesGrow(p, x, y);
    KeptAtGrows(p, Cycles(p, x), Cycles(p, y));
  }

  lemma CyclesGrow(p: Scaling, x: real, y: real)
    requires p.Valid() && x < y
    ensures Cycles(p, x) < Cycles(p, y)
  {
    var c := p.original / p.twoPi;
    PositiveQuotient(p.original, p.twoPi);
    PositiveProduct(c, y - x);
    assert c * (y - x) == c * y - c * x;
  }

  lemma KeptAtGrows(p: Scaling, u: real, v: real)
    requires p.Valid() && u <= v
    ensures KeptAt(p, u) <= KeptAt(p, v)
  {
    hide Line;
    LineGrows(p, u, v);
    if p.low <= u <= p.high { LineInRange(p, u); }
    if p.low <= v <= p.high { LineInRange(p, v); }
  }

  lemma MultiplierInRange(p: Scaling, s: real)
    requires p.Valid() && 0.0 <= s <= 1.0
    ensures 0.0 < 1.0 / p.factor <= Multiplier(p, s) <= 1.0
  {
    var i, f := 1.0 / p.factor, p.factor;
    PositiveQuotient(1.0, f);
    assert i * f == 1.0;
    Cancel(1.0, i, f);
    assert (1.0 - s) / f == (1.0 - s) * i by {
      assert (1.0 - s) * i * f == (1.0 - s) * (i * f);
      QuotientOf(1.0 - s, f, (1.0 - s) * i);
    }
    assert (1.0 - s) * i + s == i + s * (1.0 - i);
    assert (1.0 - s) * i + s == 1.0 - (1.0 - s) * (1.0 - i);
    NotNegative(s, 1.0 - i);
    NotNegative(1.0 - s, 1.0 - i);
  }

  lemma NotNegative(x: real, y: real)
    requires x >= 0.0 && y >= 0.0
    ensures x * y >= 0.0
  {
  }

  lemma MultiplierGrows(p: Scaling, s: real, t: real)
    requires p.Valid() && 0.0 <= s <= t <= 1.0
    ensures Multiplier(p, s) <= Multiplier(p, t)
  {
    var i, f := 1.0 / p.factor, p.factor;
    PositiveQuotient(1.0, f);
    Cancel(1.0, i, f);
    QuotientOf(1.0 - s, f, (1.0 - s) * i) by { assert (1.0 - s) * i * f == (1.0 - s) * (i * f); }
    QuotientOf(1.0 - t, f, (1.0 - t) * i) by { assert (1.0 - t) * i * f == (1.0 - t) * (i * f); }
    NotNegative(t - s, 1.0 - i);
    assert (t - s) * (1.0 - i) == ((1.0 - t) * i + t) - ((1.0 - s) * i + s);
  }

  // ---- The claims ----

  /** A scaled frequency lies between the frequency over the factor and the frequency. */
  lemma ScaledInRange(p: Scaling, fr: real)
    requires p.Valid() && fr > 0.0
    ensures 0.0 < fr / p.factor <= Scaled(p, fr) <= fr
  {
    hide Scaled, Kept, Multiplier;
    var k := Multiplier(p, Kept(p, fr));
    ScaledIsBlend(p, fr);
    KeptInRange(p, fr);
    MultiplierInRange(p, Kept(p, fr));
    PositiveQuotient(fr, p.factor);
    PositiveQuotient(1.0, p.factor);
    QuotientOf(fr, p.factor, fr * (1.0 / p.factor)) by { assert fr * (1.0 / p.factor) * p.factor
      == fr * (1.0 / p.factor * p.factor); }
    NotNegative(fr, k - 1.0 / p.factor);
    NotNegative(fr, 1.0 - k);
    assert fr * (k - 1.0 / p.factor) == fr * k - fr * (1.0 / p.factor);
    assert fr * (1.0 - k) == fr - fr * k;
  }

  /** Scaling keeps the order of frequencies, across all three bands. */
  lemma ScaledGrows(p: Scaling, x: real, y: real)
    requires p.Valid() && 0.0 < x < y
    ensures Scaled(p, x) < Scaled(p, y)
  {
    hide Scaled, Kept, Multiplier;
    ScaledIsBlend(p, x);
    ScaledIsBlend(p, y);
    KeptInRange(p, x);
    KeptInRange(p, y);
    KeptGrows(p, x, y);
    var s, t := Multiplier(p, Kept(p, x)), Multiplier(p, Kept(p, y));
    MultiplierInRange(p, Kept(p, x));
    MultiplierInRange(p, Kept(p, y));
    MultiplierGrows(p, Kept(p, x), Kept(p, y));
    NotNegative(x, t - s);
    PositiveProduct(y - x, t);
    assert x * (t - s) == x * t - x * s && (y - x) * t == y * t - x * t;
  }

  lemma FrequencyFalls(rho: real, i: nat)
    requires rho > 1.0
    ensures Frequency(rho, i + 1) < Frequency(rho, i)
  {
    var f := Frequency(rho, i);
    PositiveQuotient(f, rho);
    Cancel(f / rho, f, rho);
    PositiveProduct(f, rho - 1.0);
    assert f * (rho - 1.0) == f * rho - f;
  }

  /** The table: the plain frequencies first, then the scaling in place. */
  method InverseFrequencies(rho: real, half: nat, scaled: bool, p: Scaling) returns (table: array<real>)
    requires rho > 1.0 && (scaled ==> p.Valid())
    ensures fresh(table) && table.Length == half
    ensures forall i: nat | i < half :: table[i] == if scaled then Scaled(p, Frequency(rho, i)) else Frequency(rho, i)
    ensures forall i: nat, j: nat | i < j < half :: table[j] < table[i]
    ensures forall i: nat | i < half :: 0.0 < table[i] <= Frequency(rho, i)
    ensures scaled ==> forall i: nat | i < half :: Frequency(rho, i) / p.factor <= table[i]
  {
    hide Scaled, Frequency;
    table := new real[half];
    var i := 0;
    while i < half
      invariant 0 <= i <= half
      invariant forall j: nat | j < i :: table[j] == Frequency(rho, j)
    {
      table[i] := Frequency(rho, i);
      i := i + 1;
    }
    if scaled {
      i := 0;
      while i < half
        invariant 0 <= i <= half
        invariant forall j: nat | j < half ::
          table[j] == if j < i then Scaled(p, Frequency(rho, j)) else Frequency(rho, j)
      {
        table[i] := Scaled(p, table[i]);
        i := i + 1;
      }
    }
    forall i: nat, j: nat | i < j < half ensures table[j] < table[i] {
      FrequenciesFall(rho, i, j);
      if scaled { ScaledGrows(p, Frequency(rho, j), Frequency(rho, i)); }
    }
    forall i: nat | i < half
      ensures 0.0 < table[i] <= Frequency(rho, i) && (scaled ==> Frequency(rho, i) / p.factor <= table[i])
    {
      if scaled { ScaledInRange(p, Frequency(rho, i)); }
    }
  }

  lemma {:induction false} FrequenciesFall(rho: real, i: nat, j: nat)
    requires rho > 1.0 && i < j
    ensures Frequency(rho, j) < Frequency(rho, i)
    decreases j
  {
    hide Frequency;
    FrequencyFalls(rho, j - 1);
    if i < j - 1 { FrequenciesFall(rho, i, j - 1); }
  }

  // ---- What the numbers are ----

  /** The base to a whole power. */
  function Power(rho: real, i: nat): real {
    if i == 0 then 1.0 else rho * Power(rho, i - 1)
  }

  /** The first frequency is one, and each is one over the power of the base. */
  lemma {:induction false} FrequencyIsPower(rho: real, i: nat)
    requires rho > 1.0
    ensures Frequency(rho, 0) == 1.0 && Frequency(rho, i) * Power(rho, i) == 1.0
    decreases i
  {
    if i == 0 {
    } else {
      FrequencyIsPower(rho, i - 1);
      var f, p := Frequency(rho, i - 1), Power(rho, i - 1);
      PositiveQuotient(f, rho);
      assert f / rho * (rho * p) == f / rho * rho * p;
    }
  }

  /** The three bands, in turns `x` over the trained context: below the low edge a
      frequency is divided by the factor, above the high edge it stays, and in between it
      goes from one to the other in a straight line. */
  lemma ScaledInBands(p: Scaling, fr: real, x: real)
    requires p.Valid() && fr > 0.0 && p.original * fr == p.twoPi * x
    ensures x < p.low ==> Scaled(p, fr) * p.factor == fr
    ensures x > p.high ==> Scaled(p, fr) == fr
    ensures p.low <= x <= p.high ==>
      Scaled(p, fr) * p.factor * (p.high - p.low) == fr * ((p.high - x) + p.factor * (x - p.low))
  {
    hide Scaled, Line, Multiplier;
    ScaledIsBlend(p, fr);
    TurnsAre(p, fr, x);
    var kept := Kept(p, fr);
    MultiplierTimes(p, kept);
    var m := Multiplier(p, kept);
    assert fr * m * p.factor == fr * (m * p.factor);
    if p.low <= x <= p.high {
      LineIs(p, x);
      InBetween(fr, m, p.factor, kept, p.low, p.high, x);
    }
  }

  lemma TurnsAre(p: Scaling, fr: real, x: real)
    requires p.Valid() && p.original * fr == p.twoPi * x
    ensures Cycles(p, fr) == x
  {
    var c := p.original / p.twoPi;
    PositiveQuotient(p.original, p.twoPi);
    assert c * fr * p.twoPi == c * p.twoPi * fr;
    Cancel(c * fr, x, p.twoPi);
  }

  lemma MultiplierTimes(p: Scaling, s: real)
    requires p.Valid()
    ensures Multiplier(p, s) * p.factor == (1.0 - s) + s * p.factor
    ensures s == 1.0 ==> Multiplier(p, s) == 1.0
  {
    var q := (1.0 - s) / p.factor;
    assert q * p.factor == 1.0 - s;
    assert (q + s) * p.factor == q * p.factor + s * p.factor;
    if s == 1.0 { Cancel(q, 0.0, p.factor); }
  }

  lemma InBetween(fr: real, m: real, factor: real, s: real, low: real, high: real, x: real)
    requires m * factor == (1.0 - s) + s * factor && s * (high - low) == x - low
    ensures fr * m * factor * (high - low) == fr * ((high - x) + factor * (x - low))
  {
    var w := high - low;
    assert fr * m * factor * w == fr * (m * factor * w);
    assert m * factor * w == w - s * w + s * w * factor by {
      assert ((1.0 - s) + s * factor) * w == w - s * w + s * factor * w;
      assert s * factor * w == s * w * factor;
    }
    assert s * w * factor == factor * (x - low);
  }
}
