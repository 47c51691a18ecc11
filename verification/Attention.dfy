/** One attention head as the kernel computes it, in place: scores, a stable softmax and
    the weighted sum of values, over scalar operations about which nothing is known. */
module Attention {
  import opened Layout
  import opened Kernels

  datatype HeadOps<!T> = HeadOps(
    arith: Ops<T>,
    one: T,
    lowest: T,
    scale: T,
    sub: (T, T) -> T,
    div: (T, T) -> T,
    exp: T -> T,
    gt: (T, T) -> bool)

  /** Query heads in groups that share a key and value head; `len` positions of history. */
  datatype Shape = Shape(kvHeads: nat, group: nat, dim: nat, len: nat) {
    function Heads(): nat { kvHeads * group }

    function HistorySize(): nat { len * kvHeads * dim }

    predicate Valid() { kvHeads > 0 && group > 0 }
  }

  // ---- What a head is ----

  function Scores<T>(ops: HeadOps<T>, q: seq<T>, ks: seq<seq<T>>): (xs: seq<T>)
    requires forall t | 0 <= t < |ks| :: |ks[t]| == |q|
    ensures |xs| == |ks|
  {
    seq(|ks|, t requires 0 <= t < |ks| => ops.arith.mul(Dot(ops.arith, q, ks[t], |q|), ops.scale))
  }

  /** The running maximum, from the lowest value up. */
  function Top<T>(ops: HeadOps<T>, xs: seq<T>): T {
    if |xs| == 0 then ops.lowest
    else
      var top, x := Top(ops, xs[..|xs| - 1]), xs[|xs| - 1];
      if ops.gt(x, top) then x else top
  }

  function Total<T>(ops: HeadOps<T>, xs: seq<T>): T {
    if |xs| == 0 then ops.arith.zero else ops.arith.add(Total(ops, xs[..|xs| - 1]), xs[|xs| - 1])
  }

  function Exponentials<T>(ops: HeadOps<T>, xs: seq<T>, top: T): (es: seq<T>)
    ensures |es| == |xs|
  {
    seq(|xs|, t requires 0 <= t < |xs| => ops.exp(ops.sub(xs[t], top)))
  }

  function Scaled<T>(ops: HeadOps<T>, es: seq<T>, inv: T): (ws: seq<T>)
    ensures |ws| == |es|
  {
    seq(|es|, t requires 0 <= t < |es| => ops.arith.mul(es[t], inv))
  }

  /** The weights: exponentials of the distances from the top, over their total. */
  function Weights<T>(ops: HeadOps<T>, xs: seq<T>): (ws: seq<T>)
    ensures |ws| == |xs|
  {
    var es := Exponentials(ops, xs, Top(ops, xs));
    Scaled(ops, es, ops.div(ops.one, Total(ops, es)))
  }

  /** One element of the weighted sum, position by position from zero. */
  function Mixed<T>(ops: HeadOps<T>, ws: seq<T>, vs: seq<seq<T>>, d: nat, n: nat): T
    requires n <= |ws| && n <= |vs| && forall t | 0 <= t < |vs| :: d < |vs[t]|
  {
    if n == 0 then ops.arith.zero
    else ops.arith.add(Mixed(ops, ws, vs, d, n - 1), ops.arith.mul(ws[n - 1], vs[n - 1][d]))
  }

  function MixedRow<T>(ops: HeadOps<T>, ws: seq<T>, vs: seq<seq<T>>, dim: nat, n: nat): (row: seq<T>)
    requires n <= |ws| && n <= |vs| && forall t | 0 <= t < |vs| :: dim <= |vs[t]|
    ensures |row| == dim && forall d | 0 <= d < dim :: row[d] == Mixed(ops, ws, vs, d, n)
  {
    seq(dim, d requires 0 <= d < dim => Mixed(ops, ws, vs, d, n))
  }

  function HeadRow<T>(ops: HeadOps<T>, q: seq<T>, ks: seq<seq<T>>, vs: seq<seq<T>>): (row: seq<T>)
    requires |ks| == |vs| && forall t | 0 <= t < |ks| :: |ks[t]| == |vs[t]| == |q|
    ensures |row| == |q|
  {
    MixedRow(ops, Weights(ops, Scores(ops, q, ks)), vs, |q|, |vs|)
  }

  // ---- Where its rows are ----

  lemma HistoryFits(s: Shape, g: nat, t: nat)
    requires g < s.kvHeads && t < s.len
    ensures 0 <= (t * s.kvHeads + g) * s.dim && (t * s.kvHeads + g) * s.dim + s.dim <= s.HistorySize()
  {
    DigitsBound(t, g, s.len, s.kvHeads);
    RowFits(t * s.kvHeads + g, s.len * s.kvHeads, s.dim);
  }

  function HistoryRow<T>(s: Shape, hist: seq<T>, g: nat, t: nat): (row: seq<T>)
    requires g < s.kvHeads && t < s.len && |hist| == s.HistorySize()
    ensures |row| == s.dim
  {
    HistoryFits(s, g, t);
    var off := (t * s.kvHeads + g) * s.dim;
    hist[off..off + s.dim]
  }

  /** The rows of key and value head `g`. */
  function HistoryRows<T>(s: Shape, hist: seq<T>, g: nat): (rows: seq<seq<T>>)
    requires g < s.kvHeads && |hist| == s.HistorySize()
    ensures |rows| == s.len && forall t | 0 <= t < s.len :: rows[t] == HistoryRow(s, hist, g, t) && |rows[t]| == s.dim
  {
    seq(s.len, t requires 0 <= t < s.len => HistoryRow(s, hist, g, t))
  }

  lemma GroupOf(s: Shape, h: nat)
    requires s.Valid() && h < s.Heads()
    ensures h / s.group < s.kvHeads
  {
    var g := h / s.group;
    assert h == g * s.group + h % s.group;
    if g >= s.kvHeads { RowsBelow(s.kvHeads, g, s.group); }
  }

  lemma RowsBelow(a: nat, b: nat, d: nat)
    requires a <= b
    ensures a * d <= b * d
  {
  }

  /** Head `h` of the whole input. */
  function HeadOf<T>(ops: HeadOps<T>, s: Shape, q: seq<T>, k: seq<T>, v: seq<T>, h: nat): (row: seq<T>)
    requires s.Valid() && h < s.Heads() && |q| == s.Heads() * s.dim && |k| == |v| == s.HistorySize()
    ensures |row| == s.dim
  {
    GroupOf(s, h);
    RowFits(h, s.Heads(), s.dim);
    HeadRow(ops, RowOf(q, h, s.dim), HistoryRows(s, k, h / s.group), HistoryRows(s, v, h / s.group))
  }

  // ---- How it is computed ----

  /** Scores of one query row against every position, and their maximum. */
  method ScoreHead<T>(ops: HeadOps<T>, s: Shape, q: array<T>, qOff: nat, k: array<T>, g: nat,
      scores: array<T>)
    returns (top: T)
    requires g < s.kvHeads && qOff + s.dim <= q.Length && k.Length == s.HistorySize() && s.len <= scores.Length
    requires scores != q && scores != k
    modifies scores
    ensures scores[..s.len] == Scores(ops, q[qOff..qOff + s.dim], HistoryRows(s, k[..], g))
    ensures top == Top(ops, scores[..s.len])
  {
    hide Dot, HistoryRows, HistoryRow, Top;
    ghost var row, ks := q[qOff..qOff + s.dim], HistoryRows(s, k[..], g);
    top := ops.lowest;
    TopNone(ops);
    var t := 0;
    while t < s.len
      invariant 0 <= t <= s.len && q[..] == old(q[..]) && k[..] == old(k[..])
      invariant scores[..t] == Scores(ops, row, ks)[..t] && top == Top(ops, scores[..t])
    {
      HistoryFits(s, g, t);
      HistoryRowAt(s, k[..], g, t);
      var dot := DotLoop(ops.arith, q, qOff, k, (t * s.kvHeads + g) * s.dim, s.dim);
      var x := ops.arith.mul(dot, ops.scale);
      ghost var before := scores[..t];
      scores[t] := x;
      assert scores[..t + 1] == before + [x];
      TopNext(ops, before, x);
      if ops.gt(x, top) { top := x; }
      t := t + 1;
    }
  }

  lemma TopNone<T>(ops: HeadOps<T>)
    ensures Top(ops, []) == ops.lowest
  {
  }

  lemma TopNext<T>(ops: HeadOps<T>, xs: seq<T>, x: T)
    ensures Top(ops, xs + [x]) == if ops.gt(x, Top(ops, xs)) then x else Top(ops, xs)
  {
    assert (xs + [x])[..|xs|] == xs;
  }

  lemma HistoryRowAt<T>(s: Shape, hist: seq<T>, g: nat, t: nat)
    requires g < s.kvHeads && |hist| == s.HistorySize() && t < s.len
    requires 0 <= (t * s.kvHeads + g) * s.dim && (t * s.kvHeads + g) * s.dim + s.dim <= |hist|
    ensures HistoryRow(s, hist, g, t) == hist[(t * s.kvHeads + g) * s.dim..(t * s.kvHeads + g) * s.dim + s.dim]
  {
  }

  /** The softmax, over the scores in place.  The score at every place is moved by the
      same amount, exponentiated and multiplied by the same factor, so where those keep
      the order the weights are in the order of the scores. */
  method Softmax<T(!new)>(ops: HeadOps<T>, scores: array<T>, len: nat, top: T) returns (ghost inv: T)
    requires len <= scores.Length && top == Top(ops, scores[..len])
    modifies scores
    ensures scores[..len] == Weights(ops, old(scores[..len]))
    ensures forall i | 0 <= i < len :: scores[i] == ops.arith.mul(ops.exp(ops.sub(old(scores[i]), top)), inv)
    ensures KeepOrder(ops, top, inv) ==>
      forall i, j | 0 <= i < len && 0 <= j < len && ops.gt(old(scores[i]), old(scores[j])) ::
        ops.gt(scores[i], scores[j])
  {
    hide Top, Exponentials, Scaled;
    ghost var xs := scores[..len];
    var total := Exponentiate(ops, scores, len, top);
    var factor := ops.div(ops.one, total);
    inv := factor;
    ghost var es := scores[..len];
    Multiply(ops, scores, len, factor);
    WeightAt(ops, xs);
    WeightsKeepOrder(ops, xs, top, inv);
    assert forall i | 0 <= i < len :: scores[i] == scores[..len][i];
  }

  /** Moving by `top`, exponentiating and multiplying by `inv` keep the order. */
  ghost predicate KeepOrder<T(!new)>(ops: HeadOps<T>, top: T, inv: T) {
    forall x: T, y: T | ops.gt(x, y) ::
      ops.gt(ops.sub(x, top), ops.sub(y, top)) && ops.gt(ops.exp(x), ops.exp(y))
      && ops.gt(ops.arith.mul(x, inv), ops.arith.mul(y, inv))
  }

  method Exponentiate<T>(ops: HeadOps<T>, scores: array<T>, len: nat, top: T) returns (total: T)
    requires len <= scores.Length
    modifies scores
    ensures scores[..len] == Exponentials(ops, old(scores[..len]), top) && total == Total(ops, scores[..len])
  {
    ghost var xs := scores[..len];
    ghost var es := Exponentials(ops, xs, top);
    total := ops.arith.zero;
    var t := 0;
    while t < len
      invariant 0 <= t <= len && forall j | 0 <= j < len :: scores[j] == if j < t then es[j] else xs[j]
      invariant total == Total(ops, es[..t])
    {
      assert es[..t + 1][..t] == es[..t];
      scores[t] := ops.exp(ops.sub(scores[t], top));
      total := ops.arith.add(total, scores[t]);
      t := t + 1;
    }
    assert es[..len] == es == scores[..len];
  }

  method Multiply<T>(ops: HeadOps<T>, scores: array<T>, len: nat, inv: T)
    requires len <= scores.Length
    modifies scores
    ensures scores[..len] == Scaled(ops, old(scores[..len]), inv)
  {
    var t := 0;
    while t < len
      invariant 0 <= t <= len
      invariant forall j | 0 <= j < len ::
        scores[j] == if j < t then ops.arith.mul(old(scores[j]), inv) else old(scores[j])
    {
      scores[t] := ops.arith.mul(scores[t], inv);
      t := t + 1;
    }
  }

  /** The factor every exponential is multiplied by. */
  function Factor<T>(ops: HeadOps<T>, xs: seq<T>): T {
    ops.div(ops.one, Total(ops, Exponentials(ops, xs, Top(ops, xs))))
  }

  lemma WeightAt<T>(ops: HeadOps<T>, xs: seq<T>)
    ensures forall i | 0 <= i < |xs| ::
      Weights(ops, xs)[i] == ops.arith.mul(ops.exp(ops.sub(xs[i], Top(ops, xs))), Factor(ops, xs))
  {
  }

  lemma WeightsKeepOrder<T(!new)>(ops: HeadOps<T>, xs: seq<T>, top: T, inv: T)
    requires top == Top(ops, xs) && inv == Factor(ops, xs)
    ensures KeepOrder(ops, top, inv) ==>
      forall i, j | 0 <= i < |xs| && 0 <= j < |xs| && ops.gt(xs[i], xs[j]) ::
        ops.gt(Weights(ops, xs)[i], Weights(ops, xs)[j])
  {
    hide Weights, Top, Factor;
    WeightAt(ops, xs);
  }

  /** The weighted sum of values, accumulated into the head's slice of the output. */
  method MixHead<T>(ops: HeadOps<T>, s: Shape, ws: array<T>, v: array<T>, g: nat, out: array<T>, off: nat)
    requires g < s.kvHeads && v.Length == s.HistorySize() && s.len <= ws.Length && off + s.dim <= out.Length
    requires out != ws && out != v
    modifies out
    ensures out[..] == Splice(old(out[..]), off, MixedRow(ops, ws[..s.len], HistoryRows(s, v[..], g), s.dim, s.len))
  {
    hide HistoryRows, HistoryRow, MixedRow, Mixed, Splice, MixedInto, Shape.HistorySize;
    ghost var w, vs, before := ws[..s.len], HistoryRows(s, v[..], g), out[..];
    Clear(ops.arith.zero, out, off, s.dim);
    NothingMixed(ops, w, vs, before, off, s.dim, out[..]);
    var t := 0;
    while t < s.len
      invariant 0 <= t <= s.len && ws[..] == old(ws[..]) && v[..] == old(v[..])
      invariant MixedInto(ops, w, vs, before, off, s.dim, t, out[..])
    {
      HistoryFits(s, g, t);
      HistoryRowAt(s, v[..], g, t);
      ghost var o := out[..];
      var from := (t * s.kvHeads + g) * s.dim;
      assert vs[t] == v[from..from + s.dim];
      AddWeighted(ops, ws[t], v, from, s.dim, out, off);
      assert forall d | 0 <= d < s.dim :: vs[t][d] == v[from + d];
      MixedNext(ops, w, vs, before, off, s.dim, t, o, out[..]);
      t := t + 1;
    }
    MixedAll(ops, w, vs, before, off, s.dim, s.len, out[..]);
  }

  method Clear<T>(zero: T, out: array<T>, off: nat, dim: nat)
    requires off + dim <= out.Length
    modifies out
    ensures forall j | 0 <= j < out.Length :: out[j] == if off <= j < off + dim then zero else old(out[j])
  {
    var d := 0;
    while d < dim
      invariant 0 <= d <= dim
      invariant forall j | 0 <= j < out.Length :: out[j] == if off <= j < off + d then zero else old(out[j])
    {
      out[off + d] := zero;
      d := d + 1;
    }
  }

  /** The slice holds the sums of the first `t` positions, the rest what it held before. */
  ghost predicate MixedInto<T>(ops: HeadOps<T>, w: seq<T>, vs: seq<seq<T>>, before: seq<T>, off: nat, dim: nat,
      t: nat, o: seq<T>)
    requires t <= |w| && t <= |vs| && forall i | 0 <= i < |vs| :: |vs[i]| == dim
  {
    && |o| == |before|
    && forall j | 0 <= j < |o| ::
        o[j] == if off <= j < off + dim then Mixed(ops, w, vs, j - off, t) else before[j]
  }

  lemma NothingMixed<T>(ops: HeadOps<T>, w: seq<T>, vs: seq<seq<T>>, before: seq<T>, off: nat, dim: nat, o: seq<T>)
    requires (forall i | 0 <= i < |vs| :: |vs[i]| == dim) && |o| == |before|
    requires forall j | 0 <= j < |o| :: o[j] == if off <= j < off + dim then ops.arith.zero else before[j]
    ensures MixedInto(ops, w, vs, before, off, dim, 0, o)
  {
  }

  lemma MixedNext<T>(ops: HeadOps<T>, w: seq<T>, vs: seq<seq<T>>, before: seq<T>, off: nat, dim: nat, t: nat,
      o: seq<T>, o': seq<T>)
    requires t < |w| && t < |vs| && forall i | 0 <= i < |vs| :: |vs[i]| == dim
    requires MixedInto(ops, w, vs, before, off, dim, t, o) && |o'| == |o|
    requires forall j | 0 <= j < |o| ::
      o'[j] == if off <= j < off + dim then ops.arith.add(o[j], ops.arith.mul(w[t], vs[t][j - off])) else o[j]
    ensures MixedInto(ops, w, vs, before, off, dim, t + 1, o')
  {
  }

  lemma MixedAll<T>(ops: HeadOps<T>, w: seq<T>, vs: seq<seq<T>>, before: seq<T>, off: nat, dim: nat, t: nat,
      o: seq<T>)
    requires t <= |w| && t <= |vs| && off + dim <= |before| && forall i | 0 <= i < |vs| :: |vs[i]| == dim
    requires MixedInto(ops, w, vs, before, off, dim, t, o)
    ensures o == Splice(before, off, MixedRow(ops, w, vs, dim, t))
  {
    hide Mixed;
  }

  /** One position's values, times its weight. */
  method AddWeighted<T>(ops: HeadOps<T>, w: T, v: array<T>, from: nat, dim: nat, out: array<T>, off: nat)
    requires from + dim <= v.Length && off + dim <= out.Length && out != v
    modifies out
    ensures forall j | 0 <= j < out.Length ::
      out[j] == if off <= j < off + dim then ops.arith.add(old(out[j]), ops.arith.mul(w, v[from + (j - off)]))
        else old(out[j])
  {
    var d := 0;
    while d < dim
      invariant 0 <= d <= dim && v[..] == old(v[..])
      invariant forall j | 0 <= j < out.Length ::
        out[j] == if off <= j < off + d then ops.arith.add(old(out[j]), ops.arith.mul(w, v[from + (j - off)]))
          else old(out[j])
    {
      out[off + d] := ops.arith.add(out[off + d], ops.arith.mul(w, v[from + d]));
      d := d + 1;
    }
  }

  /** One head.  What the reused score buffer held before does not matter, nor what the
      head's slice did. */
  method AttendHead<T(!new)>(ops: HeadOps<T>, s: Shape, q: array<T>, k: array<T>, v: array<T>,
      scores: array<T>, out: array<T>, h: nat)
    requires s.Valid() && h < s.Heads() && q.Length == s.Heads() * s.dim && k.Length == v.Length == s.HistorySize()
    requires s.len <= scores.Length && h * s.dim + s.dim <= out.Length
    requires scores != q && scores != k && scores != v && scores != out && out != q && out != k && out != v
    modifies scores, out
    ensures out[..] == Splice(old(out[..]), h * s.dim, HeadOf(ops, s, q[..], k[..], v[..], h))
  {
    hide Scores, Top, Weights, Mixed, MixedRow, HistoryRows, KeepOrder;
    GroupOf(s, h);
    RowFits(h, s.Heads(), s.dim);
    var g, off := h / s.group, h * s.dim;
    var top := ScoreHead(ops, s, q, off, k, g, scores);
    ghost var inv := Softmax(ops, scores, s.len, top);
    MixHead(ops, s, scores, v, g, out, off);
  }

  /** The body handed to the pool: heads [b, e), one after the other. */
  method AttendHeads<T(!new)>(ops: HeadOps<T>, s: Shape, q: array<T>, k: array<T>, v: array<T>,
      scores: array<T>, out: array<T>, b: nat, e: nat)
    requires s.Valid() && b <= e <= s.Heads() && q.Length == out.Length == s.Heads() * s.dim
    requires k.Length == v.Length == s.HistorySize() && s.len <= scores.Length
    requires scores != q && scores != k && scores != v && scores != out && out != q && out != k && out != v
    modifies scores, out
    ensures out[..] == Fold(PutHead(Head(ops, s, q[..], k[..], v[..]), s.dim), old(out[..]), Span(b, e))
  {
    hide HeadOf, Fold, PutHead, Span;
    ghost var head := Head(ops, s, q[..], k[..], v[..]);
    SpanNone(PutHead(head, s.dim), out[..], b);
    var h := b;
    while h < e
      invariant b <= h <= e && q[..] == old(q[..]) && k[..] == old(k[..]) && v[..] == old(v[..])
      invariant out[..] == Fold(PutHead(head, s.dim), old(out[..]), Span(b, h))
    {
      RowFits(h, s.Heads(), s.dim);
      ghost var before := out[..];
      AttendHead(ops, s, q, k, v, scores, out, h);
      PutsRow(head, s.dim, before, h);
      SpanNext(PutHead(head, s.dim), old(out[..]), b, h);
      h := h + 1;
    }
  }

  /** The heads of an input, and nothing beyond them. */
  ghost function Head<T>(ops: HeadOps<T>, s: Shape, q: seq<T>, k: seq<T>, v: seq<T>): nat -> seq<T>
    requires s.Valid() && |q| == s.Heads() * s.dim && |k| == |v| == s.HistorySize()
  {
    (h: nat) => if h < s.Heads() then HeadOf(ops, s, q, k, v, h) else []
  }

  lemma PutsRow<T>(head: nat -> seq<T>, dim: nat, o: seq<T>, h: nat)
    requires |head(h)| == dim && 0 <= h * dim && h * dim + dim <= |o|
    ensures PutHead(head, dim)(o, h) == Splice(o, h * dim, head(h))
  {
  }

  lemma SpanNone<T>(put: (seq<T>, nat) -> seq<T>, out: seq<T>, b: nat)
    ensures Fold(put, out, Span(b, b)) == out
  {
  }

  lemma SpanNext<T>(put: (seq<T>, nat) -> seq<T>, out: seq<T>, b: nat, h: nat)
    requires b <= h
    ensures Fold(put, out, Span(b, h + 1)) == put(Fold(put, out, Span(b, h)), h)
  {
    hide Fold, Span;
    SpanSnoc(b, h);
    FoldAppend(put, out, Span(b, h), [h]);
    FoldOne(put, Fold(put, out, Span(b, h)), h);
  }

  /** Attention on the pool: whatever the schedule and the interleaving of the heads,
      every head's slice is that head computed on its own. */
  lemma AttentionIsHeads<T(!new)>(ops: HeadOps<T>, s: Shape, q: seq<T>, k: seq<T>, v: seq<T>, out: seq<T>,
      threshold: nat, threads: nat, order: seq<nat>, interleaved: seq<nat>)
    requires s.Valid() && |q| == |out| == s.Heads() * s.dim && |k| == |v| == s.HistorySize()
    requires threads > 0 && Schedule(order, threads)
    requires multiset(interleaved)
          == multiset(FlatMap(h => [h], Dispatched(s.Heads(), s.Heads() * s.len * s.dim, threshold, threads, order)))
    ensures forall h: nat | h < s.Heads() ::
      RowIs(Fold(PutHead(Head(ops, s, q, k, v), s.dim), out, interleaved), h, s.dim, HeadOf(ops, s, q, k, v, h))
  {
    hide HeadOf, Fold, PutHead, Dispatched, FlatMap, Schedule, RowIs;
    var head := Head(ops, s, q, k, v);
    assert forall h: nat | h < s.Heads() :: head(h) == HeadOf(ops, s, q, k, v, h);
    AttentionWritesHeads(head, s.dim, s.Heads(), s.len, out, threshold, threads, order, interleaved);
  }

  /** Over a history of one position, when the score is a number and one over one is
      one, a head's row is the value row through one multiplication and one addition:
      nothing of the query or the key is left in it. */
  lemma OnePositionCopies<T>(ops: HeadOps<T>, q: seq<T>, k: seq<T>, v: seq<T>, d: nat)
    requires |k| == |v| == |q| && d < |v|
    requires var s := ops.arith.mul(Dot(ops.arith, q, k, |q|), ops.scale);
      ops.gt(s, ops.lowest) && ops.exp(ops.sub(s, s)) == ops.one
    requires ops.arith.add(ops.arith.zero, ops.one) == ops.one && ops.div(ops.one, ops.one) == ops.one
    requires ops.arith.mul(ops.one, ops.one) == ops.one
    ensures HeadRow(ops, q, [k], [v])[d] == ops.arith.add(ops.arith.zero, ops.arith.mul(ops.one, v[d]))
  {
    hide Dot;
    var xs := Scores(ops, q, [k]);
    TopNone(ops);
    TopNext(ops, [], xs[0]);
    assert [] + [xs[0]] == xs;
    var es := Exponentials(ops, xs, Top(ops, xs));
    assert es == [ops.one];
    assert Total(ops, es[..0]) == ops.arith.zero;
    assert Total(ops, es) == ops.one;
    assert Weights(ops, xs) == [ops.one];
    assert Mixed(ops, [ops.one], [v], d, 0) == ops.arith.zero;
  }

  // ---- Groups ----

  /** Query heads [g * group, (g + 1) * group) read key and value head `g` and no other:
      whatever else changes in the history, their rows stay. */
  lemma HeadReadsItsGroup<T>(ops: HeadOps<T>, s: Shape, q: seq<T>, k: seq<T>, v: seq<T>, k': seq<T>, v': seq<T>, h: nat,
      g: nat)
    requires s.Valid() && h < s.Heads() && |q| == s.Heads() * s.dim && |k| == |v| == |k'| == |v'| == s.HistorySize()
    requires g < s.kvHeads && g * s.group <= h < g * s.group + s.group
    requires forall t | 0 <= t < s.len ::
      HistoryRow(s, k, g, t) == HistoryRow(s, k', g, t) && HistoryRow(s, v, g, t) == HistoryRow(s, v', g, t)
    ensures HeadOf(ops, s, q, k, v, h) == HeadOf(ops, s, q, k', v', h)
  {
    hide HeadRow, HistoryRow, HistoryRows;
    GroupIs(h, g, s.group);
    SameRows(s, k, k', g);
    SameRows(s, v, v', g);
    GroupOf(s, h);
    RowFits(h, s.Heads(), s.dim);
  }

  lemma SameRows<T>(s: Shape, a: seq<T>, b: seq<T>, g: nat)
    requires g < s.kvHeads && |a| == |b| == s.HistorySize()
    requires forall t | 0 <= t < s.len :: HistoryRow(s, a, g, t) == HistoryRow(s, b, g, t)
    ensures HistoryRows(s, a, g) == HistoryRows(s, b, g)
  {
    hide HistoryRow;
  }

  lemma GroupIs(h: nat, g: nat, group: nat)
    requires group > 0 && g * group <= h < g * group + group
    ensures h / group == g
  {
    Digits(h / group, h % group, g, h - g * group, group);
  }
}
