/** One matmul for a whole batch: the flat product with an activation row per sequence,
    cut into rows, is each sequence's own projection. */
module BatchKernels {
  import opened Numeric
  import opened Layout
  import opened Kernels
  import EngineCore

  /** The projection of one row: the product with that row as its only activation row. */
  function ProjectRow(ops: Ops<Float32>, w: seq<Float32>, n: nat, k: nat, h: Row): (row: Row)
    requires n * k <= |w| && |h| == k
    ensures |row| == n
  {
    seq(n, j requires 0 <= j < n =>
      RowFits(j, n, k);
      Dot(ops, h, RowOf(w, j, k), k))
  }

  /** The same as a function of any row, as a model has it. */
  function Projection(ops: Ops<Float32>, w: seq<Float32>, n: nat, k: nat): Row -> Row
    requires n * k <= |w|
  {
    (h: Row) => if |h| == k then ProjectRow(ops, w, n, k, h) else []
  }

  /** A flat buffer begins with these rows of `d` elements. */
  predicate BeginsWith(flat: seq<Float32>, d: nat, rows: seq<Row>) {
    forall i | 0 <= i < |rows| :: |rows[i]| == d && RowIs(flat, i, d, rows[i])
  }

  lemma ProjectRowAt(ops: Ops<Float32>, w: seq<Float32>, n: nat, k: nat, h: Row, j: nat)
    requires n * k <= |w| && |h| == k && j < n
    ensures 0 <= j * k && j * k + k <= |w| && ProjectRow(ops, w, n, k, h)[j] == Dot(ops, h, w[j * k..j * k + k], k)
  {
    hide Dot;
    RowFits(j, n, k);
    assert RowOf(w, j, k) == w[j * k..j * k + k];
  }

  /** It is the product with one activation row, and the only one. */
  lemma ProjectRowIsProduct(ops: Ops<Float32>, w: seq<Float32>, n: nat, k: nat, h: Row)
    requires n * k <= |w| && |h| == k
    ensures IsProduct(ProductOf(ops, h, w, 1, n, k), 1, n, ProjectRow(ops, w, n, k, h))
  {
    hide ProductOf, Dot, ProjectRow;
    forall i: nat, j: nat | i < 1 && j < n
      ensures ElementIs(ProductOf(ops, h, w, 1, n, k), n, ProjectRow(ops, w, n, k, h), i, j) {
      ElementOf(ops, h, w, 1, n, k, 0, j);
      ProjectRowAt(ops, w, n, k, h, j);
      assert h[0 * k..0 * k + k] == h;
    }
  }

  /** The flat product, row by row, is what projecting each row on its own gives. */
  lemma ProductIsRows(ops: Ops<Float32>, a: seq<Float32>, w: seq<Float32>, m: nat, n: nat, k: nat, src: seq<Row>,
      out: seq<Float32>, rows: seq<Row>)
    requires m * k <= |a| && n * k <= |w| && |src| == |rows| == m && BeginsWith(a, k, src)
    requires forall i | 0 <= i < m :: rows[i] == Projection(ops, w, n, k)(src[i])
    requires IsProduct(ProductOf(ops, a, w, m, n, k), m, n, out)
    ensures BeginsWith(out, n, rows)
  {
    hide IsProduct, ProductOf, Dot, ProjectRow;
    forall i | 0 <= i < m ensures |rows[i]| == n && RowIs(out, i, n, rows[i]) {
      assert |src[i]| == k && RowIs(a, i, k, src[i]);
      ProjectRowIsProduct(ops, w, n, k, src[i]);
      RowOfProduct(ops, a, w, m, n, k, i, out, rows[i]);
    }
  }

  /** The batched projection on flat buffers, dispatched over the pool, beside the one on
      a row per sequence: the same rows. */
  method ProjectFlat(ops: Ops<Float32>, a: array<Float32>, w: array<Float32>, m: nat, n: nat, k: nat,
      out: array<Float32>, threshold: nat, threads: nat, order: seq<nat>, src: seq<Row>, dst: seq<Row>)
    returns (rows: seq<Row>)
    requires m * k <= a.Length && n * k <= w.Length && out.Length == m * n && out != a && out != w
    requires threads > 0 && Schedule(order, threads)
    requires m <= |src| && m <= |dst| && BeginsWith(a[..], k, src[..m])
    modifies out
    ensures |rows| == |dst| && rows[m..] == dst[m..] && BeginsWith(out[..], n, rows[..m])
    ensures forall i | 0 <= i < m :: rows[i] == Projection(ops, w[..], n, k)(src[i])
  {
    hide ProductOf, IsProduct, Projection, BeginsWith, Schedule;
    rows := EngineCore.ProjectRows(Projection(ops, w[..], n, k), src, dst, m);
    Matmul(ops, a, w, m, n, k, out, threshold, threads, order);
    ProductIsRows(ops, a[..], w[..], m, n, k, src[..m], out[..], rows[..m]);
  }
}
