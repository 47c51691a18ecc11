/** Attention over the reals: what the kernel leaves in the output is the average of the
    group's value rows, weighted by the exponentials of the scaled scores. */
module AttentionReals {
  import opened Layout
  import opened Kernels
  import opened Attention
  import DotProducts

  /** An exponential: positive, and a difference of exponents is a quotient. */
  ghost predicate Exponential(e: real -> real) {
    && (forall x: real :: e(x) > 0.0)
    && (forall x: real, y: real :: e(x - y) * e(y) == e(x))
  }

  /** The kernel's scalars, as real numbers. */
  function RealOps(e: real -> real, lowest: real, scale: real): HeadOps<real> {
    HeadOps(DotProducts.REALS, 1.0, lowest, scale,
      (x: real, y: real) => x - y,
      (x: real, y: real) => if y == 0.0 then 0.0 else x / y,
      e,
      (x: real, y: real) => x > y)
  }

  /** The sum of the first `n` values. */
  function SumOf(f: nat -> real, n: nat): real {
    if n == 0 then 0.0 else SumOf(f, n - 1) + f(n - 1)
  }

  lemma {:induction false} SumPositive(f: nat -> real, n: nat)
    requires forall t: nat | t < n :: f(t) > 0.0
    ensures SumOf(f, n) >= 0.0 && (n > 0 ==> SumOf(f, n) > 0.0)
    decreases n
  {
    if n == 0 {
    } else {
      SumPositive(f, n - 1);
    }
  }

  lemma {:induction false} SumTimes(f: nat -> real, g: nat -> real, c: real, n: nat)
    requires forall t: nat | t < n :: f(t) * c == g(t)
    ensures SumOf(f, n) * c == SumOf(g, n)
    decreases n
  {
    if n == 0 {
    } else {
      SumTimes(f, g, c, n - 1);
      assert (SumOf(f, n - 1) + f(n - 1)) * c == SumOf(f, n - 1) * c + f(n - 1) * c;
    }
  }

  // ---- The softmax ----

  lemma {:induction false} TotalIsSum(ops: HeadOps<real>, xs: seq<real>, f: nat -> real, n: nat)
    requires ops.arith == DotProducts.REALS && n == |xs| && forall t: nat | t < n :: f(t) == xs[t]
    ensures Total(ops, xs) == SumOf(f, n)
    decreases n
  {
    if n == 0 {
    } else {
      TotalIsSum(ops, xs[..n - 1], f, n - 1);
    }
  }

  ghost function At(xs: seq<real>): nat -> real {
    (t: nat) => if t < |xs| then xs[t] else 0.0
  }

  /** The exponentials of the scores themselves, without moving by the top. */
  ghost function Raw(e: real -> real, xs: seq<real>): nat -> real {
    (t: nat) => if t < |xs| then e(xs[t]) else 0.0
  }

  lemma Shifted(e: real -> real, x: real, top: real)
    requires Exponential(e)
    ensures e(x - top) > 0.0 && e(x - top) * e(top) == e(x)
  {
  }

  /** The kernel's total, moved back by the top, is the sum of all the exponentials. */
  lemma TotalShare(e: real -> real, lowest: real, scale: real, xs: seq<real>)
    requires Exponential(e) && |xs| > 0
    ensures var ops := RealOps(e, lowest, scale);
      var total := Total(ops, Exponentials(ops, xs, Top(ops, xs)));
      total > 0.0 && total * e(Top(ops, xs)) == SumOf(Raw(e, xs), |xs|)
  {
    hide SumOf, Top, Exponential, Total;
    var ops := RealOps(e, lowest, scale);
    var top := Top(ops, xs);
    var es := Exponentials(ops, xs, top);
    forall t: nat | t < |xs| ensures At(es)(t) > 0.0 && At(es)(t) * e(top) == Raw(e, xs)(t) {
      Shifted(e, xs[t], top);
    }
    TotalIsSum(ops, es, At(es), |es|);
    SumPositive(At(es), |es|);
    SumTimes(At(es), Raw(e, xs), e(top), |xs|);
  }

  lemma WeightIs(e: real -> real, lowest: real, scale: real, xs: seq<real>, i: nat)
    requires i < |xs|
    ensures var ops := RealOps(e, lowest, scale);
      var top, total := Top(ops, xs), Total(ops, Exponentials(ops, xs, Top(ops, xs)));
      total != 0.0 ==> Weights(ops, xs)[i] == e(xs[i] - top) * (1.0 / total)
  {
    hide Top, Total, Exponentials, Factor, Weights;
    WeightAt(RealOps(e, lowest, scale), xs);
    FactorIs(e, lowest, scale, xs);
  }

  lemma FactorIs(e: real -> real, lowest: real, scale: real, xs: seq<real>)
    ensures var ops := RealOps(e, lowest, scale);
      var total := Total(ops, Exponentials(ops, xs, Top(ops, xs)));
      total != 0.0 ==> Factor(ops, xs) == 1.0 / total
  {
    hide Top, Total, Exponentials;
  }

  /** A weight times the sum of all the exponentials is its own exponential. */
  lemma WeightShare(e: real -> real, lowest: real, scale: real, xs: seq<real>, i: nat)
    requires Exponential(e) && i < |xs|
    ensures var ws := Weights(RealOps(e, lowest, scale), xs);
      ws[i] > 0.0 && ws[i] * SumOf(Raw(e, xs), |xs|) == e(xs[i])
  {
    hide SumOf, Top, Total, Exponentials, Exponential, Weights, Raw;
    var ops := RealOps(e, lowest, scale);
    var top := Top(ops, xs);
    TotalShare(e, lowest, scale, xs);
    WeightIs(e, lowest, scale, xs, i);
    Shifted(e, xs[i], top);
    Share(e(xs[i] - top), Total(ops, Exponentials(ops, xs, top)), e(top), SumOf(Raw(e, xs), |xs|), e(xs[i]),
      Weights(ops, xs)[i]);
  }

  lemma Share(x: real, total: real, top: real, all: real, y: real, w: real)
    requires x > 0.0 && total > 0.0 && w == x * (1.0 / total) && total * top == all && x * top == y
    ensures w > 0.0 && w * all == y
  {
    var inv := 1.0 / total;
    assert inv * total == 1.0;
    assert inv > 0.0;
    assert w * all == x * inv * (total * top) == x * (inv * total) * top == y;
  }

  /** What the softmax leaves in the score buffer: positive shares that add up to one, in
      the proportions of the exponentials of the scores. */
  method SoftmaxOverReals(e: real -> real, lowest: real, scale: real, scores: array<real>, len: nat, top: real)
    requires Exponential(e) && 0 < len <= scores.Length && top == Top(RealOps(e, lowest, scale), scores[..len])
    modifies scores
    ensures forall i | 0 <= i < len :: scores[i] > 0.0
    ensures SumOf(At(scores[..len]), len) == 1.0
    ensures forall i, j | 0 <= i < len && 0 <= j < len :: scores[i] * e(old(scores[j])) == scores[j] * e(old(scores[i]))
  {
    hide Exponential, Top, SumOf, Weights, RealOps, KeepOrder;
    ghost var xs := scores[..len];
    ghost var inv := Softmax(RealOps(e, lowest, scale), scores, len, top);
    SharesAddUp(e, lowest, scale, xs);
    ghost var ws := scores[..len];
    forall i, j | 0 <= i < len && 0 <= j < len
      ensures scores[i] == ws[i] > 0.0 && ws[i] * e(xs[j]) == ws[j] * e(xs[i])
    {
      SharesProportional(e, lowest, scale, xs, i, j);
    }
  }

  lemma SharesProportional(e: real -> real, lowest: real, scale: real, xs: seq<real>, i: nat, j: nat)
    requires Exponential(e) && i < |xs| && j < |xs|
    ensures var ws := Weights(RealOps(e, lowest, scale), xs); ws[i] > 0.0 && ws[i] * e(xs[j]) == ws[j] * e(xs[i])
  {
    hide Exponential, SumOf, Weights, RealOps;
    var ws := Weights(RealOps(e, lowest, scale), xs);
    WeightShare(e, lowest, scale, xs, i);
    WeightShare(e, lowest, scale, xs, j);
    Proportion(ws[i], ws[j], SumOf(Raw(e, xs), |xs|), e(xs[i]), e(xs[j]));
  }

  lemma Proportion(x: real, y: real, all: real, a: real, b: real)
    requires x * all == a && y * all == b
    ensures x * b == y * a
  {
    assert x * (y * all) == y * (x * all);
  }

  lemma SharesAddUp(e: real -> real, lowest: real, scale: real, xs: seq<real>)
    requires Exponential(e) && |xs| > 0
    ensures SumOf(At(Weights(RealOps(e, lowest, scale), xs)), |xs|) == 1.0
  {
    hide Exponential, SumOf, Weights, RealOps;
    var ws, all := Weights(RealOps(e, lowest, scale), xs), SumOf(Raw(e, xs), |xs|);
    forall t: nat | t < |xs| ensures At(ws)(t) * all == Raw(e, xs)(t) > 0.0 {
      WeightShare(e, lowest, scale, xs, t);
      Shifted(e, xs[t], xs[t]);
      ExponentialPositive(e, xs[t]);
    }
    SumTimes(At(ws), Raw(e, xs), all, |xs|);
    SumPositive(Raw(e, xs), |xs|);
    OneShare(SumOf(At(ws), |xs|), all);
  }

  lemma ExponentialPositive(e: real -> real, x: real)
    requires Exponential(e)
    ensures e(x) > 0.0
  {
  }

  lemma OneShare(x: real, all: real)
    requires x * all == all > 0.0
    ensures x == 1.0
  {
    assert (x - 1.0) * all == 0.0;
  }

  // ---- A head ----

  /** An element of a flat buffer. */
  function Cell(a: seq<real>, i: nat): real { if i < |a| then a[i] else 0.0 }

  /** Where the row of a position begins that query head `h` reads: positions one after
      the other, the key and value heads of each side by side, `group` query heads to one. */
  function From(s: Shape, h: nat, t: nat): nat
    requires s.Valid()
  {
    (t * s.kvHeads + h / s.group) * s.dim
  }

  /** Where the slice of query head `h` begins. */
  function Slice(s: Shape, h: nat): nat {
    h * s.dim
  }

  /** Elementwise products of two stretches. */
  function Products(q: seq<real>, a: nat, k: seq<real>, b: nat): nat -> real {
    (d: nat) => Cell(q, a + d) * Cell(k, b + d)
  }

  /** The scaled score of a position. */
  function ScoreAt(scale: real, s: Shape, q: seq<real>, k: seq<real>, h: nat, t: nat): real
    requires s.Valid()
  {
    SumOf(Products(q, Slice(s, h), k, From(s, h, t)), s.dim) * scale
  }

  /** The weight of a position before it is normalised. */
  function RawAt(e: real -> real, scale: real, s: Shape, q: seq<real>, k: seq<real>, h: nat, t: nat): real
    requires s.Valid()
  {
    e(ScoreAt(scale, s, q, k, h, t))
  }

  function Raws(e: real -> real, scale: real, s: Shape, q: seq<real>, k: seq<real>, h: nat): nat -> real
    requires s.Valid()
  {
    (t: nat) => RawAt(e, scale, s, q, k, h, t)
  }

  /** Those weights times one element of the group's values. */
  function RawValues(e: real -> real, scale: real, s: Shape, q: seq<real>, k: seq<real>, v: seq<real>, h: nat, d: nat):
      nat -> real
    requires s.Valid()
  {
    (t: nat) => RawAt(e, scale, s, q, k, h, t) * Cell(v, From(s, h, t) + d)
  }

  lemma {:induction false} DotIsSum(a: seq<real>, w: seq<real>, n: nat, f: nat -> real)
    requires n <= |a| && n <= |w| && forall d: nat | d < n :: f(d) == a[d] * w[d]
    ensures Dot(DotProducts.REALS, a, w, n) == SumOf(f, n)
    decreases n
  {
    if n == 0 {
    } else {
      DotIsSum(a, w, n - 1, f);
    }
  }

  lemma {:induction false} MixedIsSum(ops: HeadOps<real>, ws: seq<real>, vs: seq<seq<real>>, d: nat, n: nat,
      f: nat -> real)
    requires ops.arith == DotProducts.REALS && n <= |ws| && n <= |vs| && forall t | 0 <= t < |vs| :: d < |vs[t]|
    requires forall t: nat | t < n :: f(t) == ws[t] * vs[t][d]
    ensures Mixed(ops, ws, vs, d, n) == SumOf(f, n)
    decreases n
  {
    if n == 0 {
    } else {
      MixedIsSum(ops, ws, vs, d, n - 1, f);
    }
  }

  /** The scores of a head. */
  function HeadScores<T>(ops: HeadOps<T>, s: Shape, q: seq<T>, k: seq<T>, h: nat): (xs: seq<T>)
    requires s.Valid() && h < s.Heads() && |q| == s.Heads() * s.dim && |k| == s.HistorySize()
    ensures |xs| == s.len
  {
    GroupOf(s, h);
    RowFits(h, s.Heads(), s.dim);
    Scores(ops, RowOf(q, h, s.dim), HistoryRows(s, k, h / s.group))
  }

  lemma DotOfStretches(q: seq<real>, a: nat, k: seq<real>, b: nat, n: nat)
    requires a + n <= |q| && b + n <= |k|
    ensures Dot(DotProducts.REALS, q[a..a + n], k[b..b + n], n) == SumOf(Products(q, a, k, b), n)
  {
    hide SumOf, Dot;
    var x, y := q[a..a + n], k[b..b + n];
    forall d: nat | d < n ensures Products(q, a, k, b)(d) == x[d] * y[d] {
      assert x[d] == q[a + d] && y[d] == k[b + d];
    }
    DotIsSum(x, y, n, Products(q, a, k, b));
  }

  /** The row of a position, in the flat buffer. */
  lemma RowFrom<T>(s: Shape, hist: seq<T>, h: nat, t: nat)
    requires s.Valid() && h < s.Heads() && |hist| == s.HistorySize() && t < s.len
    ensures h / s.group < s.kvHeads && From(s, h, t) + s.dim <= |hist|
    ensures HistoryRows(s, hist, h / s.group)[t] == hist[From(s, h, t)..From(s, h, t) + s.dim]
  {
    GroupOf(s, h);
    HistoryFits(s, h / s.group, t);
    HistoryRowAt(s, hist, h / s.group, t);
  }

  lemma QueryRow<T>(s: Shape, q: seq<T>, h: nat)
    requires h < s.Heads() && |q| == s.Heads() * s.dim
    ensures 0 <= h * s.dim && h * s.dim + s.dim <= |q| && (h + 1) * s.dim <= |q|
    ensures RowOf(q, h, s.dim) == q[h * s.dim..h * s.dim + s.dim]
  {
    RowFits(h, s.Heads(), s.dim);
  }

  lemma ScoreOf<T>(ops: HeadOps<T>, row: seq<T>, ks: seq<seq<T>>, t: nat)
    requires t < |ks| && forall i | 0 <= i < |ks| :: |ks[i]| == |row|
    ensures Scores(ops, row, ks)[t] == ops.arith.mul(Dot(ops.arith, row, ks[t], |row|), ops.scale)
  {
    hide Dot;
  }

  lemma RealsAre(x: real, y: real)
    ensures DotProducts.REALS.add(x, y) == x + y && DotProducts.REALS.mul(x, y) == x * y
  {
  }

  lemma RealOpsAre(e: real -> real, lowest: real, scale: real)
    ensures var ops := RealOps(e, lowest, scale); ops.arith == DotProducts.REALS && ops.scale == scale
  {
  }

  /** A head's scores, from the flat buffers. */
  lemma ScoreIs(e: real -> real, lowest: real, scale: real, s: Shape, q: seq<real>, k: seq<real>, h: nat, t: nat)
    requires s.Valid() && h < s.Heads() && |q| == s.Heads() * s.dim && |k| == s.HistorySize() && t < s.len
    ensures HeadScores(RealOps(e, lowest, scale), s, q, k, h)[t] == ScoreAt(scale, s, q, k, h, t)
  {
    hide SumOf, Dot, Products, From, Scores, HistoryRows, RowOf, RealOps, Shape.Heads, Shape.HistorySize;
    QueryRow(s, q, h);
    RowFrom(s, k, h, t);
    RealOpsAre(e, lowest, scale);
    ScoreOf(RealOps(e, lowest, scale), RowOf(q, h, s.dim), HistoryRows(s, k, h / s.group), t);
    DotOfStretches(q, h * s.dim, k, From(s, h, t), s.dim);
    RealsAre(SumOf(Products(q, h * s.dim, k, From(s, h, t)), s.dim), scale);
  }

  /** The same value row element, from the flat buffer. */
  lemma ValueIs(s: Shape, v: seq<real>, h: nat, t: nat, d: nat)
    requires s.Valid() && h < s.Heads() && |v| == s.HistorySize() && t < s.len && d < s.dim
    ensures h / s.group < s.kvHeads && HistoryRows(s, v, h / s.group)[t][d] == Cell(v, From(s, h, t) + d)
  {
    hide HistoryRows, From, Shape.Heads, Shape.HistorySize;
    RowFrom(s, v, h, t);
  }

  lemma RawsAre(e: real -> real, scale: real, s: Shape, q: seq<real>, k: seq<real>, v: seq<real>, h: nat, d: nat,
      t: nat)
    requires s.Valid()
    ensures Raws(e, scale, s, q, k, h)(t) == RawAt(e, scale, s, q, k, h, t)
    ensures RawValues(e, scale, s, q, k, v, h, d)(t) == RawAt(e, scale, s, q, k, h, t) * Cell(v, From(s, h, t) + d)
  {
  }

  lemma RawOfScore(e: real -> real, lowest: real, scale: real, s: Shape, q: seq<real>, k: seq<real>, h: nat, t: nat)
    requires s.Valid() && h < s.Heads() && |q| == s.Heads() * s.dim && |k| == s.HistorySize() && t < s.len
    ensures RawAt(e, scale, s, q, k, h, t) == e(HeadScores(RealOps(e, lowest, scale), s, q, k, h)[t])
  {
    hide HeadScores, RealOps, ScoreAt, Shape.Heads, Shape.HistorySize;
    ScoreIs(e, lowest, scale, s, q, k, h, t);
  }

  /** A head's output is the average of its group's values, each with the exponential of
      its scaled score for a weight. */
  lemma HeadIsAverage(e: real -> real, lowest: real, scale: real, s: Shape, q: seq<real>, k: seq<real>, v: seq<real>,
      h: nat, d: nat)
    requires Exponential(e) && s.Valid() && h < s.Heads() && d < s.dim && s.len > 0
    requires |q| == s.Heads() * s.dim && |k| == |v| == s.HistorySize()
    ensures HeadOf(RealOps(e, lowest, scale), s, q, k, v, h)[d] * SumOf(Raws(e, scale, s, q, k, h), s.len)
         == SumOf(RawValues(e, scale, s, q, k, v, h, d), s.len)
  {
    hide SumOf, Exponential, RealOps, Weights, Scores, Mixed, Products, HistoryRows, Raws, RawValues, RawAt,
      From, Cell, Shape.Heads, Shape.HistorySize;
    var ops := RealOps(e, lowest, scale);
    GroupOf(s, h);
    QueryRow(s, q, h);
    var xs, vs := HeadScores(ops, s, q, k, h), HistoryRows(s, v, h / s.group);
    assert HeadOf(ops, s, q, k, v, h)[d] == Mixed(ops, Weights(ops, xs), vs, d, s.len);
    var raws, values := Raws(e, scale, s, q, k, h), RawValues(e, scale, s, q, k, v, h, d);
    forall t: nat | t < s.len ensures raws(t) == e(xs[t]) && values(t) == raws(t) * vs[t][d] {
      RawOfScore(e, lowest, scale, s, q, k, h, t);
      ValueIs(s, v, h, t, d);
      RawsAre(e, scale, s, q, k, v, h, d, t);
    }
    Averaged(e, lowest, scale, s, xs, vs, d, raws, values);
  }

  lemma Averaged(e: real -> real, lowest: real, scale: real, s: Shape, xs: seq<real>, vs: seq<seq<real>>, d: nat,
      raws: nat -> real, values: nat -> real)
    requires Exponential(e) && |xs| == |vs| == s.len > 0 && forall t | 0 <= t < |vs| :: d < |vs[t]|
    requires forall t: nat | t < s.len :: raws(t) == e(xs[t]) && values(t) == raws(t) * vs[t][d]
    ensures SumOf(raws, s.len) > 0.0
    ensures var ops := RealOps(e, lowest, scale);
      Mixed(ops, Weights(ops, xs), vs, d, s.len) * SumOf(raws, s.len) == SumOf(values, s.len)
  {
    hide SumOf, Exponential, Weights, Mixed;
    var ops := RealOps(e, lowest, scale);
    var ws := Weights(ops, xs);
    var shares: nat -> real := (t: nat) => if t < |ws| && t < |vs| && d < |vs[t]| then ws[t] * vs[t][d] else 0.0;
    MixedIsSum(ops, ws, vs, d, s.len, shares);
    SameSum(Raw(e, xs), raws, s.len);
    forall t: nat | t < s.len ensures shares(t) * SumOf(raws, s.len) == values(t) && raws(t) > 0.0 {
      WeightShare(e, lowest, scale, xs, t);
      ExponentialPositive(e, xs[t]);
      assert ws[t] * vs[t][d] * SumOf(raws, s.len) == ws[t] * SumOf(raws, s.len) * vs[t][d];
    }
    SumTimes(shares, values, SumOf(raws, s.len), s.len);
    SumPositive(raws, s.len);
  }

  lemma {:induction false} SameSum(f: nat -> real, g: nat -> real, n: nat)
    requires forall t: nat | t < n :: f(t) == g(t)
    ensures SumOf(f, n) == SumOf(g, n)
    decreases n
  {
    if n == 0 {
    } else {
      SameSum(f, g, n - 1);
    }
  }

  lemma RawsPositive(e: real -> real, scale: real, s: Shape, q: seq<real>, k: seq<real>, h: nat)
    requires Exponential(e) && s.Valid() && s.len > 0
    ensures SumOf(Raws(e, scale, s, q, k, h), s.len) > 0.0
  {
    hide SumOf, Products;
    SumPositive(Raws(e, scale, s, q, k, h), s.len);
  }

  /** The kernel on arrays of reals: a whole head, from whatever the buffers held. */
  method AttendOverReals(e: real -> real, lowest: real, scale: real, s: Shape, q: array<real>, k: array<real>,
      v: array<real>, scores: array<real>, out: array<real>, h: nat)
    requires Exponential(e) && s.Valid() && h < s.Heads() && s.len > 0
    requires q.Length == s.Heads() * s.dim && k.Length == v.Length == s.HistorySize()
    requires s.len <= scores.Length && h * s.dim + s.dim <= out.Length
    requires scores != q && scores != k && scores != v && scores != out && out != q && out != k && out != v
    modifies scores, out
    ensures SumOf(Raws(e, scale, s, q[..], k[..], h), s.len) > 0.0
    ensures forall d: nat | d < s.dim ::
      Cell(out[..], Slice(s, h) + d) * SumOf(Raws(e, scale, s, q[..], k[..], h), s.len)
        == SumOf(RawValues(e, scale, s, q[..], k[..], v[..], h, d), s.len)
  {
    hide SumOf, Exponential, RealOps, HeadOf, Raws, RawValues, Cell, Splice, Shape.Heads, Shape.HistorySize;
    ghost var before := out[..];
    AttendHead(RealOps(e, lowest, scale), s, q, k, v, scores, out, h);
    ghost var row := HeadOf(RealOps(e, lowest, scale), s, q[..], k[..], v[..], h);
    Spliced(before, Slice(s, h), row, out[..]);
    RawsPositive(e, scale, s, q[..], k[..], h);
    forall d: nat | d < s.dim
      ensures row[d] * SumOf(Raws(e, scale, s, q[..], k[..], h), s.len)
           == SumOf(RawValues(e, scale, s, q[..], k[..], v[..], h, d), s.len) {
      HeadIsAverage(e, lowest, scale, s, q[..], k[..], v[..], h, d);
    }
  }

  lemma Spliced(before: seq<real>, from: nat, row: seq<real>, out: seq<real>)
    requires from + |row| <= |before| && out == Splice(before, from, row)
    ensures forall d: nat | d < |row| :: Cell(out, from + d) == row[d]
  {
  }

  /** A value that every position of the group shares comes back as itself. */
  lemma SharedValueComesBack(e: real -> real, lowest: real, scale: real, s: Shape, q: seq<real>, k: seq<real>,
      v: seq<real>, h: nat, d: nat, x: real)
    requires Exponential(e) && s.Valid() && h < s.Heads() && d < s.dim && s.len > 0
    requires |q| == s.Heads() * s.dim && |k| == |v| == s.HistorySize()
    requires forall t: nat | t < s.len :: Cell(v, From(s, h, t) + d) == x
    ensures HeadOf(RealOps(e, lowest, scale), s, q, k, v, h)[d] == x
  {
    hide SumOf, RealOps, HeadOf, Raws, RawValues, RawAt, From, Cell, Exponential, Shape.Heads, Shape.HistorySize;
    HeadIsAverage(e, lowest, scale, s, q, k, v, h, d);
    RawsPositive(e, scale, s, q, k, h);
    var raws, values := Raws(e, scale, s, q, k, h), RawValues(e, scale, s, q, k, v, h, d);
    forall t: nat | t < s.len ensures raws(t) * x == values(t) {
      RawsAre(e, scale, s, q, k, v, h, d, t);
    }
    SumTimes(raws, values, x, s.len);
    SameQuotient(HeadOf(RealOps(e, lowest, scale), s, q, k, v, h)[d], x, SumOf(raws, s.len));
  }

  lemma SameQuotient(x: real, y: real, all: real)
    requires all > 0.0 && x * all == all * y
    ensures x == y
  {
    assert (x - y) * all == 0.0;
  }
}
