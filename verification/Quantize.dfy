/** Per-row int8 quantization over the reals, and what it costs a product. */
module Quantize {
  import opened Numeric
  import opened Layout
  import Lanes

  const TINY: real := 0.000000000001

  function Abs(x: real): (r: real)
    ensures r >= 0.0 && (r == x || r == -x)
  {
    if x < 0.0 then -x else x
  }

  /** Round to nearest, ties to even: the default rounding of `nearbyint`. */
  function Nearest(x: real): (n: int)
    ensures -0.5 <= n as real - x <= 0.5
  {
    var f := x.Floor;
    var d := x - f as real;
    if d < 0.5 || (d == 0.5 && f % 2 == 0) then f else f + 1
  }

  lemma NearestOfInt(n: int, x: real)
    requires x == n as real
    ensures Nearest(x) == n
  {
  }

  /** A value within `m` rounds to within `m`. */
  lemma NearestWithin(x: real, m: nat)
    requires -(m as real) <= x <= m as real
    ensures -(m as int) <= Nearest(x) <= m
  {
    hide Nearest;
    var n: int := Nearest(x);
    assert n as real <= m as real + 0.5 && n as real >= -(m as real) - 0.5;
    IntBelow(n, m);
    IntBelow(-n, m);
  }

  lemma IntBelow(n: int, m: int)
    requires n as real <= m as real + 0.5
    ensures n <= m
  {
  }

  // ---- Reals in units of a scale ----

  /** A value in units of `s`, as the code has it: times the reciprocal. */
  function Unit(v: real, s: real): real
    requires s > 0.0
  {
    v * (1.0 / s)
  }

  lemma UnitTimes(v: real, s: real)
    requires s > 0.0
    ensures Unit(v, s) * s == v
  {
    var i := 1.0 / s;
    assert i * s == 1.0;
    assert v * i * s == v * (i * s);
  }

  lemma UnitOfMultiple(v: real, q: real, s: real)
    requires s > 0.0 && v == q * s
    ensures Unit(v, s) == q
  {
    var i := 1.0 / s;
    assert s * i == 1.0;
    assert q * s * i == q * (s * i);
  }

  lemma UnitWithin(v: real, s: real, m: real)
    requires s > 0.0 && Abs(v) <= m * s
    ensures -m <= Unit(v, s) <= m
  {
    hide Unit;
    UnitTimes(v, s);
    Cancel(Unit(v, s), m, s);
    Cancel(-m, Unit(v, s), s);
  }

  lemma Cancel(x: real, y: real, s: real)
    requires s > 0.0 && x * s <= y * s
    ensures x <= y
  {
    assert (x - y) * s <= 0.0;
  }

  lemma Scaled(x: real, y: real, s: real)
    requires s > 0.0 && Abs(x) <= y
    ensures Abs(x * s) <= s * y
  {
    assert (y - x) * s >= 0.0 && (y + x) * s >= 0.0;
  }

  lemma AbsTimes(x: real, y: real, mx: real, my: real)
    requires Abs(x) <= mx && Abs(y) <= my
    ensures Abs(x * y) <= mx * my
  {
    var p, q := Abs(x), Abs(y);
    Signs(x, y);
    NonNegative(mx - p, q);
    NonNegative(mx, my - q);
    assert (mx - p) * q == mx * q - p * q;
    assert mx * (my - q) == mx * my - mx * q;
  }

  lemma Signs(x: real, y: real)
    ensures Abs(x * y) == Abs(x) * Abs(y)
  {
    NonNegative(Abs(x), Abs(y));
    if x < 0.0 {
      if y < 0.0 { assert x * y == (-x) * (-y); } else { assert x * y == -((-x) * y); }
    } else if y < 0.0 {
      assert x * y == -(x * (-y));
    }
  }

  lemma NonNegative(x: real, y: real)
    requires x >= 0.0 && y >= 0.0
    ensures x * y >= 0.0
  {
  }

  lemma AbsSum(x: real, y: real)
    ensures Abs(x + y) <= Abs(x) + Abs(y)
  {
  }

  /** The largest magnitude of a row, zero for an empty one. */
  function MaxAbs(row: seq<real>): (m: real)
    ensures m >= 0.0
    ensures forall k | 0 <= k < |row| :: Abs(row[k]) <= m
    ensures m > 0.0 ==> exists k :: 0 <= k < |row| && Abs(row[k]) == m
  {
    if |row| == 0 then 0.0
    else
      var m := MaxAbs(row[..|row| - 1]);
      assert forall k | 0 <= k < |row| - 1 :: row[..|row| - 1][k] == row[k];
      if Abs(row[|row| - 1]) > m then Abs(row[|row| - 1]) else m
  }

  /** The scale of a row; a row of nothing but zeros gets scale one. */
  function Scale(row: seq<real>): (s: real)
    ensures s > 0.0
  {
    if MaxAbs(row) > TINY then MaxAbs(row) / 127.0 else 1.0
  }

  /** Every value of a row is within 127 units of its scale, and the largest is at it
      unless the row counts as zero. */
  lemma ScaleFacts(row: seq<real>)
    ensures MaxAbs(row) > TINY ==> 127.0 * Scale(row) == MaxAbs(row)
    ensures MaxAbs(row) <= TINY ==> Scale(row) == 1.0
    ensures forall k | 0 <= k < |row| :: Abs(row[k]) <= 127.0 * Scale(row)
  {
    hide MaxAbs;
  }

  function Quant(row: seq<real>, k: nat): int
    requires k < |row|
  {
    Nearest(Unit(row[k], Scale(row)))
  }

  function Clamp(q: int): int {
    if q > 127 then 127 else if q < -128 then -128 else q
  }

  /** The clamps never change a value. */
  lemma ClampIsIdle(row: seq<real>, k: nat)
    requires k < |row|
    ensures -127 <= Quant(row, k) <= 127 && Clamp(Quant(row, k)) == Quant(row, k)
  {
    hide Nearest, Unit, Scale, MaxAbs;
    ScaleFacts(row);
    UnitWithin(row[k], Scale(row), 127.0);
    NearestWithin(Unit(row[k], Scale(row)), 127);
  }

  /** A quantized value is off by at most half a unit. */
  lemma HalfUnit(row: seq<real>, k: nat)
    requires k < |row|
    ensures Abs(Quant(row, k) as real * Scale(row) - row[k]) <= Scale(row) * 0.5
  {
    hide Nearest, Unit, Scale, MaxAbs;
    var s, u := Scale(row), Unit(row[k], Scale(row));
    UnitTimes(row[k], s);
    var e := Quant(row, k) as real - u;
    Scaled(e, 0.5, s);
    assert e * s == Quant(row, k) as real * s - u * s;
  }

  // ---- Quantizing a matrix ----

  /** A weight as the checkpoint stores it: three precisions the code reads, and the rest. */
  datatype Tensor = Single(xs: seq<real>) | Half(hs: seq<Float16>) | Brain(bs: seq<Float16>) | Other(count: nat) {
    function Count(): nat {
      match this
      case Single(xs) => |xs|
      case Half(hs) => |hs|
      case Brain(bs) => |bs|
      case Other(count) => count
    }

    /** The numbers stored, when they can be read or there are none to read. */
    function Numbers(half: Float16 -> real, brain: Float16 -> real): (t: seq<real>)
      requires Other? ==> count == 0
      ensures |t| == Count()
    {
      match this
      case Single(xs) => xs
      case Half(hs) => seq(|hs|, i requires 0 <= i < |hs| => half(hs[i]))
      case Brain(bs) => seq(|bs|, i requires 0 <= i < |bs| => brain(bs[i]))
      case Other(_) => []
    }
  }

  /** Row by row: the largest magnitude, then the rounded and clamped values, then the
      scale in half precision.  Reading a precision the code does not know throws, before
      anything is written; with nothing to read it does not come to that. */
  method QuantizePerRow(t: Tensor, half: Float16 -> real, brain: Float16 -> real, n: nat, k: nat, narrow: real -> real,
      w: array<int>, scales: array<real>) returns (r: Result<()>)
    requires w.Length == n * k && scales.Length == n
    modifies w, scales
    ensures r == if t.Count() == n * k && (t.Other? ==> t.count == 0) then Success(()) else Failure(RuntimeError)
    ensures r.Failure? ==> w[..] == old(w[..]) && scales[..] == old(scales[..])
    ensures r.Success? ==> forall j: nat | j < n :: RowDone(t.Numbers(half, brain), n, k, narrow, w[..], scales[..], j)
  {
    if t.Count() != n * k { return Failure(RuntimeError); }
    hide RowDone;
    var unknown := t.Other? && k > 0;
    var j := 0;
    while j < n
      invariant 0 <= j <= n
      invariant unknown ==> j == 0 && w[..] == old(w[..]) && scales[..] == old(scales[..])
      invariant !unknown ==> t.Other? ==> t.count == 0
      invariant !unknown ==>
        forall i: nat | i < j :: RowDone(t.Numbers(half, brain), n, k, narrow, w[..], scales[..], i)
    {
      if unknown {
        RowFits(0, n, k);
        return Failure(RuntimeError);
      }
      ghost var ws, ss := w[..], scales[..];
      RowFits(j, n, k);
      var row := InputRow(t.Numbers(half, brain), n, k, j);
      var scale := QuantizeRow(row, w, j * k);
      scales[j] := narrow(scale);
      forall i: nat | i < j + 1 ensures RowDone(t.Numbers(half, brain), n, k, narrow, w[..], scales[..], i) {
        RowKept(t.Numbers(half, brain), n, k, narrow, ws, ss, j, i);
      }
      j := j + 1;
    }
    r := Success(());
  }

  function InputRow(t: seq<real>, n: nat, k: nat, j: nat): (row: seq<real>)
    requires |t| == n * k && j < n
    ensures |row| == k
  {
    RowFits(j, n, k);
    t[j * k..j * k + k]
  }

  function QuantRow(row: seq<real>): (q: seq<int>)
    ensures |q| == |row| && forall k | 0 <= k < |row| :: q[k] == Quant(row, k)
  {
    seq(|row|, k requires 0 <= k < |row| => Quant(row, k))
  }

  /** Row `j` of the outputs is the quantized row `j`. */
  ghost predicate RowDone(t: seq<real>, n: nat, k: nat, half: real -> real, w: seq<int>, scales: seq<real>, j: nat)
    requires |t| == n * k && j < n
  {
    && j < |scales| && scales[j] == half(Scale(InputRow(t, n, k, j)))
    && RowIs(w, j, k, QuantRow(InputRow(t, n, k, j)))
  }

  /** Which elements of the flat buffers that are. */
  lemma DoneRowIs(t: seq<real>, n: nat, k: nat, half: real -> real, w: seq<int>, scales: seq<real>, j: nat)
    requires |t| == n * k && j < n && RowDone(t, n, k, half, w, scales, j)
    ensures 0 <= j * k && j * k + k <= |t| && j * k + k <= |w|
    ensures var row := t[j * k..j * k + k];
      scales[j] == half(Scale(row)) && forall i | 0 <= i < k :: w[j * k..j * k + k][i] == Quant(row, i)
  {
    hide Scale, Quant;
    RowFits(j, n, k);
  }

  lemma RowKept(t: seq<real>, n: nat, k: nat, half: real -> real, w: seq<int>, scales: seq<real>, j: nat, i: nat)
    requires |t| == |w| == n * k && |scales| == n && j < n && i < n
    requires i != j ==> RowDone(t, n, k, half, w, scales, i)
    ensures j * k + k <= |w|
    ensures RowDone(t, n, k, half, Splice(w, j * k, QuantRow(InputRow(t, n, k, j))),
      scales[j := half(Scale(InputRow(t, n, k, j)))], i)
  {
    hide InputRow, Quant, Scale;
    RowFits(j, n, k);
    SpliceIs(w, n, k, j, QuantRow(InputRow(t, n, k, j)), i, QuantRow(InputRow(t, n, k, i)));
  }

  /** One row. */
  method QuantizeRow(row: seq<real>, w: array<int>, off: nat) returns (scale: real)
    requires off + |row| <= w.Length
    modifies w
    ensures scale == Scale(row)
    ensures w[..] == Splice(old(w[..]), off, QuantRow(row))
  {
    hide Nearest, Scale, MaxAbs;
    scale := FindScale(row);
    var inverse := 1.0 / scale;
    var c := 0;
    while c < |row|
      invariant 0 <= c <= |row|
      invariant forall i | 0 <= i < w.Length :: w[i] == if off <= i < off + c then Quant(row, i - off) else old(w[i])
    {
      ClampIsIdle(row, c);
      assert row[c] * inverse == Unit(row[c], scale);
      var q := Nearest(row[c] * inverse);
      if q > 127 { q := 127; }
      if q < -128 { q := -128; }
      w[off + c] := q;
      c := c + 1;
    }
  }

  method FindScale(row: seq<real>) returns (scale: real)
    ensures scale == Scale(row)
  {
    var maxAbs := 0.0;
    var c := 0;
    while c < |row|
      invariant 0 <= c <= |row| && maxAbs == MaxAbs(row[..c])
    {
      var v := row[c];
      if v < 0.0 { v := -v; }
      assert row[..c + 1][..c] == row[..c];
      if v > maxAbs { maxAbs := v; }
      c := c + 1;
    }
    assert row[..c] == row;
    scale := if maxAbs > TINY then maxAbs / 127.0 else 1.0;
  }

  // ---- What it costs a product ----

  function Times(x: real, y: real): real { x * y }

  /** The int8 kernel's accumulator: integers widened, nothing scaled yet. */
  function DotQ(a: seq<real>, q: seq<int>, n: nat): real
    requires n <= |a| && n <= |q|
  {
    if n == 0 then 0.0 else DotQ(a, q, n - 1) + Times(a[n - 1], q[n - 1] as real)
  }

  function DotR(a: seq<real>, v: seq<real>, n: nat): real
    requires n <= |a| && n <= |v|
  {
    if n == 0 then 0.0 else DotR(a, v, n - 1) + Times(a[n - 1], v[n - 1])
  }

  function SumAbs(a: seq<real>, n: nat): (s: real)
    requires n <= |a|
    ensures s >= 0.0
  {
    if n == 0 then 0.0 else SumAbs(a, n - 1) + Abs(a[n - 1])
  }

  /** The weights the kernel effectively uses. */
  function Effective(q: seq<int>, stored: real): (x: seq<real>)
    ensures |x| == |q| && forall k | 0 <= k < |q| :: x[k] == q[k] as real * stored
  {
    seq(|q|, k requires 0 <= k < |q| => q[k] as real * stored)
  }

  /** Scaling once at the end is scaling every weight. */
  lemma {:induction false} ScaleAtTheEnd(a: seq<real>, q: seq<int>, stored: real, n: nat)
    requires n <= |a| && n <= |q|
    ensures DotQ(a, q, n) * stored == DotR(a, Effective(q, stored), n)
    decreases n
  {
    if n > 0 {
      ScaleAtTheEnd(a, q, stored, n - 1);
      ScaleSum(DotQ(a, q, n - 1), a[n - 1], q[n - 1] as real, stored);
    }
  }

  lemma ScaleSum(d: real, a: real, q: real, stored: real)
    ensures (d + a * q) * stored == d * stored + a * (q * stored)
  {
  }

  /** Half a unit of rounding, and the stored scale's error on up to 127 units. */
  function ErrorBound(scale: real, delta: real): real {
    scale * (0.5 + 127.0 * delta)
  }

  /** The stored scale is off by a share of at most `delta`. */
  predicate StoredWithin(stored: real, scale: real, delta: real) {
    Abs(stored - scale) <= delta * scale
  }

  /** With a stored scale within relative error `delta`, one weight is off by at most
      half a unit plus 127 times that error. */
  lemma WeightError(row: seq<real>, k: nat, stored: real, delta: real)
    requires k < |row| && StoredWithin(stored, Scale(row), delta)
    ensures Abs(Quant(row, k) as real * stored - row[k]) <= ErrorBound(Scale(row), delta)
  {
    hide Quant, Scale, Abs, ErrorBound, StoredWithin;
    var q, s, v := Quant(row, k), Scale(row), row[k];
    QuantFacts(row, k);
    RealError(q as real, stored, s, v, delta);
  }

  lemma QuantFacts(row: seq<real>, k: nat)
    requires k < |row|
    ensures Abs(Quant(row, k) as real) <= 127.0
    ensures Abs(Quant(row, k) as real * Scale(row) - row[k]) <= Scale(row) * 0.5
  {
    hide Quant, Scale, Abs;
    ClampIsIdle(row, k);
    AbsAtMost(Quant(row, k), 127);
    HalfUnit(row, k);
  }

  lemma AbsAtMost(q: int, m: int)
    requires -m <= q <= m
    ensures Abs(q as real) <= m as real
  {
  }

  lemma RealError(q: real, stored: real, s: real, v: real, delta: real)
    requires Abs(q) <= 127.0 && Abs(q * s - v) <= s * 0.5 && StoredWithin(stored, s, delta)
    ensures Abs(q * stored - v) <= ErrorBound(s, delta)
  {
    hide Abs;
    assert q * stored - v == q * (stored - s) + (q * s - v);
    AbsTimes(q, stored - s, 127.0, delta * s);
    AbsSum(q * (stored - s), q * s - v);
  }

  /** Errors of at most `unit` in every weight, gathered term by term. */
  function Spread(a: seq<real>, unit: real, n: nat): real
    requires n <= |a|
  {
    if n == 0 then 0.0 else Spread(a, unit, n - 1) + Times(Abs(a[n - 1]), unit)
  }

  lemma {:induction false} SpreadIs(a: seq<real>, unit: real, n: nat)
    requires n <= |a|
    ensures Spread(a, unit, n) == unit * SumAbs(a, n)
    decreases n
  {
    if n > 0 {
      SpreadIs(a, unit, n - 1);
      assert unit * (SumAbs(a, n - 1) + Abs(a[n - 1])) == unit * SumAbs(a, n - 1) + Abs(a[n - 1]) * unit;
    }
  }

  /** Weights off by at most `unit` move a product by at most what the errors gather to. */
  lemma {:induction false} DotError(a: seq<real>, x: seq<real>, y: seq<real>, unit: real, n: nat)
    requires n <= |a| && n <= |x| && n <= |y| && forall k | 0 <= k < n :: Abs(x[k] - y[k]) <= unit
    ensures Abs(DotR(a, x, n) - DotR(a, y, n)) <= Spread(a, unit, n)
    decreases n
  {
    hide Abs, Times;
    if n == 0 {
    } else {
      DotError(a, x, y, unit, n - 1);
      TermError(DotR(a, x, n - 1), DotR(a, y, n - 1), a[n - 1], x[n - 1], y[n - 1], unit, Spread(a, unit, n - 1));
    }
  }

  lemma TermError(dx: real, dy: real, a: real, x: real, y: real, unit: real, sum: real)
    requires Abs(dx - dy) <= sum && Abs(x - y) <= unit
    ensures Abs((dx + Times(a, x)) - (dy + Times(a, y))) <= sum + Times(Abs(a), unit)
  {
    assert (dx + a * x) - (dy + a * y) == (dx - dy) + a * (x - y);
    AbsTimes(a, x - y, Abs(a), unit);
    AbsSum(dx - dy, a * (x - y));
  }

  /** The int8 kernel's product against the full-precision one. */
  lemma ProductError(a: seq<real>, row: seq<real>, stored: real, delta: real, n: nat)
    requires n <= |a| && n <= |row| && StoredWithin(stored, Scale(row), delta)
    ensures Abs(DotQ(a, QuantRow(row), n) * stored - DotR(a, row, n)) <= ErrorBound(Scale(row), delta) * SumAbs(a, n)
  {
    hide Quant, Scale, Abs, ErrorBound, DotQ, DotR, SumAbs, Spread;
    ScaleAtTheEnd(a, QuantRow(row), stored, n);
    WeightsError(row, stored, delta, n);
    DotError(a, Effective(QuantRow(row), stored), row, ErrorBound(Scale(row), delta), n);
    SpreadIs(a, ErrorBound(Scale(row), delta), n);
  }

  lemma WeightsError(row: seq<real>, stored: real, delta: real, n: nat)
    requires n <= |row| && StoredWithin(stored, Scale(row), delta)
    ensures forall k | 0 <= k < n :: Abs(Effective(QuantRow(row), stored)[k] - row[k]) <= ErrorBound(Scale(row), delta)
  {
    hide Quant, Scale, Abs, ErrorBound;
    forall k | 0 <= k < n ensures Abs(Effective(QuantRow(row), stored)[k] - row[k]) <= ErrorBound(Scale(row), delta) {
      WeightError(row, k, stored, delta);
    }
  }

  // ---- Quantizing again ----

  /** The value a stored integer stands for. */
  function Back(row: seq<real>, k: nat): real
    requires k < |row|
  {
    Quant(row, k) as real * Scale(row)
  }

  function Dequantized(row: seq<real>): (d: seq<real>)
    ensures |d| == |row| && forall k | 0 <= k < |row| :: d[k] == Back(row, k)
  {
    seq(|row|, k requires 0 <= k < |row| => Back(row, k))
  }

  /** The value of largest magnitude is exactly 127 units. */
  lemma PeakIs127(row: seq<real>, k: nat)
    requires k < |row| && MaxAbs(row) > TINY && Abs(row[k]) == MaxAbs(row)
    ensures Abs(Back(row, k)) == MaxAbs(row)
  {
    hide Nearest, Unit, Scale, MaxAbs;
    ScaleFacts(row);
    if row[k] >= 0.0 {
      UnitOfMultiple(row[k], 127.0, Scale(row));
      NearestOfInt(127, Unit(row[k], Scale(row)));
    } else {
      UnitOfMultiple(row[k], -127.0, Scale(row));
      NearestOfInt(-127, Unit(row[k], Scale(row)));
    }
  }

  lemma DequantizedWithin(row: seq<real>, k: nat)
    requires k < |row|
    ensures Abs(Back(row, k)) <= 127.0 * Scale(row)
  {
    hide Quant, Scale;
    ClampIsIdle(row, k);
    AbsTimes(Quant(row, k) as real, Scale(row), 127.0, Scale(row));
  }

  lemma ZeroRow(row: seq<real>, k: nat)
    requires k < |row| && MaxAbs(row) <= TINY
    ensures Quant(row, k) == 0
  {
    hide MaxAbs, Scale;
    ScaleFacts(row);
    assert Abs(row[k]) <= TINY;
    assert Unit(row[k], 1.0) == row[k];
  }

  /** Dequantizing keeps the largest magnitude. */
  lemma PeakStays(row: seq<real>)
    ensures MaxAbs(row) > TINY ==> MaxAbs(Dequantized(row)) == MaxAbs(row)
    ensures MaxAbs(row) <= TINY ==> MaxAbs(Dequantized(row)) == 0.0
  {
    hide Quant, Scale, MaxAbs;
    var d := Dequantized(row);
    ScaleFacts(row);
    if MaxAbs(row) > TINY {
      forall k | 0 <= k < |row| ensures Abs(d[k]) <= MaxAbs(row) { DequantizedWithin(row, k); }
      var k :| 0 <= k < |row| && Abs(row[k]) == MaxAbs(row);
      PeakIs127(row, k);
      assert Abs(d[k]) == MaxAbs(row);
    } else {
      forall k | 0 <= k < |row| ensures d[k] == 0.0 { ZeroRow(row, k); }
    }
  }

  /** With the exact scale, quantizing the dequantized row gives the same integers and
      the same scale. */
  lemma QuantizingIsIdempotent(row: seq<real>)
    ensures Scale(Dequantized(row)) == Scale(row)
    ensures QuantRow(Dequantized(row)) == QuantRow(row)
  {
    hide Quant;
    PeakStays(row);
    forall k | 0 <= k < |row| ensures Quant(Dequantized(row), k) == Quant(row, k) {
      SameUnit(row, k);
    }
  }

  lemma QuantIs(row: seq<real>, k: nat)
    requires k < |row|
    ensures Quant(row, k) == Nearest(Unit(row[k], Scale(row)))
  {
  }

  lemma SameUnit(row: seq<real>, k: nat)
    requires k < |row| && Scale(Dequantized(row)) == Scale(row)
    ensures Quant(Dequantized(row), k) == Quant(row, k)
  {
    hide Nearest, Unit, Scale, MaxAbs, Quant;
    var q, s := Quant(row, k), Scale(row);
    var v := Dequantized(row)[k];
    UnitOfMultiple(v, q as real, s);
    NearestOfInt(q, Unit(v, s));
    QuantIs(Dequantized(row), k);
  }

  // ---- What a quantized row is ----

  /** Ties round to the even neighbour. */
  lemma NearestTies(x: real, n: int)
    ensures Abs(Nearest(x) as real - x) == 0.5 ==> Nearest(x) % 2 == 0
    ensures x == n as real + 0.5 ==> Nearest(x) % 2 == 0
  {
    assert x == n as real + 0.5 ==> x.Floor == n;
  }

  /** A row with a value of magnitude above 1e-12: its largest magnitude becomes 127, every
      other value the nearest whole number on that scale, ties to even. */
  lemma LoudRow(row: seq<real>, p: nat, k: nat)
    requires p < |row| && k < |row| && Abs(row[p]) > 0.000000000001
    requires forall i | 0 <= i < |row| :: Abs(row[i]) <= Abs(row[p])
    ensures 127.0 * Scale(row) == Abs(row[p]) && (Quant(row, p) == 127 || Quant(row, p) == -127)
    ensures Abs(Quant(row, k) as real * Abs(row[p]) - 127.0 * row[k]) <= Abs(row[p]) * 0.5
    ensures Abs(Quant(row, k) as real * Abs(row[p]) - 127.0 * row[k]) == Abs(row[p]) * 0.5 ==> Quant(row, k) % 2 == 0
  {
    hide Nearest, Unit, MaxAbs, Quant, Scale, Abs;
    LoudPeak(row, p);
    var q, unit, v, m := Quant(row, k) as real, Scale(row), row[k], Abs(row[p]);
    HalfUnit(row, k);
    TieIsEven(row, k);
    Times127(q, unit, v, m);
  }

  lemma LoudPeak(row: seq<real>, p: nat)
    requires p < |row| && Abs(row[p]) > 0.000000000001 && forall i | 0 <= i < |row| :: Abs(row[i]) <= Abs(row[p])
    ensures 127.0 * Scale(row) == Abs(row[p]) && (Quant(row, p) == 127 || Quant(row, p) == -127)
  {
    hide Nearest, Unit, MaxAbs, Quant, Scale, Abs, Back;
    PeakIs(row, p);
    ScaleFacts(row);
    PeakIs127(row, p);
    OneTwentySeven(Quant(row, p), Scale(row));
  }

  lemma PeakIs(row: seq<real>, p: nat)
    requires p < |row| && Abs(row[p]) > 0.000000000001 && forall i | 0 <= i < |row| :: Abs(row[i]) <= Abs(row[p])
    ensures MaxAbs(row) == Abs(row[p]) > TINY
    ensures Abs(Quant(row, p) as real * Scale(row)) == Abs(Back(row, p))
  {
    hide MaxAbs, Quant, Scale;
  }

  lemma OneTwentySeven(q: int, s: real)
    requires s > 0.0 && Abs(q as real * s) == 127.0 * s
    ensures q == 127 || q == -127
  {
    if q as real * s >= 0.0 {
      assert (q as real - 127.0) * s == 0.0;
    } else {
      assert (q as real + 127.0) * s == 0.0;
    }
  }

  lemma Times127(q: real, s: real, v: real, m: real)
    requires 127.0 * s == m
    ensures Abs(q * s - v) <= s * 0.5 ==> Abs(q * m - 127.0 * v) <= m * 0.5
    ensures Abs(q * m - 127.0 * v) == m * 0.5 ==> Abs(q * s - v) == s * 0.5
  {
    assert q * m == q * (127.0 * s) == 127.0 * (q * s);
    assert q * m - 127.0 * v == 127.0 * (q * s - v);
  }

  lemma TieIsEven(row: seq<real>, k: nat)
    requires k < |row|
    ensures Abs(Quant(row, k) as real * Scale(row) - row[k]) == Scale(row) * 0.5 ==> Quant(row, k) % 2 == 0
  {
    hide Nearest, Unit, Scale, MaxAbs, Abs;
    var s, u := Scale(row), Unit(row[k], Scale(row));
    UnitTimes(row[k], s);
    NearestTies(u, 0);
    HalfOf(Quant(row, k) as real - u, s);
    Distribute(Quant(row, k) as real, u, s);
  }

  lemma Distribute(x: real, y: real, s: real)
    ensures (x - y) * s == x * s - y * s
  {
  }

  lemma HalfOf(e: real, s: real)
    requires s > 0.0
    ensures Abs(e * s) == s * 0.5 ==> Abs(e) == 0.5
  {
    Signs(e, s);
    assert Abs(e) * s == s * 0.5 ==> (Abs(e) - 0.5) * s == 0.0;
  }

  /** A row of magnitudes up to 1e-12 becomes zeros with scale one. */
  lemma QuietRow(row: seq<real>, k: nat)
    requires k < |row| && forall i | 0 <= i < |row| :: Abs(row[i]) <= 0.000000000001
    ensures Scale(row) == 1.0 && Quant(row, k) == 0
  {
    hide MaxAbs;
    ZeroRow(row, k);
  }

  /** The products are plain sums of products. */
  lemma {:induction false} DotsAreSums(a: seq<real>, q: seq<int>, v: seq<real>, n: nat)
    requires n <= |a| && n <= |q| && |v| == |q| && forall i | 0 <= i < |q| :: v[i] == q[i] as real
    ensures DotQ(a, q, n) == DotR(a, v, n) == Lanes.Dot(a, v, n)
    decreases n
  {
    if n == 0 {
    } else {
      DotsAreSums(a, q, v, n - 1);
    }
  }
}
