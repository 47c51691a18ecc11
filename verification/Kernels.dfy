/** Row-parallel kernels.  The scalar operations are functions about which nothing is
    known, associativity least of all, so equal results are equal bits. */
module Kernels {
  import opened Layout
  import Chunks

  datatype Ops<!T> = Ops(zero: T, add: (T, T) -> T, mul: (T, T) -> T)

  // ---- Writes that may come in any order ----

  /** The output after the units of work `us`, one after the other. */
  ghost function Fold<T, U>(put: (seq<T>, U) -> seq<T>, out: seq<T>, us: seq<U>): seq<T>
    decreases |us|
  {
    if |us| == 0 then out else Fold(put, put(out, us[0]), us[1..])
  }

  /** Two units of work can change places. */
  ghost predicate Commutes<T(!new), U(!new)>(put: (seq<T>, U) -> seq<T>) {
    forall o: seq<T>, u: U, v: U :: put(put(o, u), v) == put(put(o, v), u)
  }

  lemma {:induction false} FoldAppend<T, U>(put: (seq<T>, U) -> seq<T>, out: seq<T>, us: seq<U>,
      vs: seq<U>)
    ensures Fold(put, out, us + vs) == Fold(put, Fold(put, out, us), vs)
    decreases |us|
  {
    if |us| == 0 {
      assert us + vs == vs;
    } else {
      assert (us + vs)[1..] == us[1..] + vs;
      FoldAppend(put, put(out, us[0]), us[1..], vs);
    }
  }

  /** One unit can be brought to the front. */
  lemma {:induction false} FoldFirst<T(!new), U(!new)>(put: (seq<T>, U) -> seq<T>, out: seq<T>, us: seq<U>,
      i: nat)
    requires Commutes(put) && i < |us|
    ensures Fold(put, out, us) == Fold(put, put(out, us[i]), us[..i] + us[i + 1..])
    decreases i
  {
    if i == 0 {
      assert us[..0] + us[1..] == us[1..];
    } else {
      FoldFirst(put, put(out, us[0]), us[1..], i - 1);
      var rest := us[..i] + us[i + 1..];
      assert us[1..][..i - 1] + us[1..][i..] == rest[1..];
      assert put(put(out, us[0]), us[i]) == put(put(out, us[i]), us[0]);
      assert rest[0] == us[0];
    }
  }

  /** Any order of the same units gives the same output. */
  lemma {:induction false} FoldPermutation<T(!new), U(!new)>(put: (seq<T>, U) -> seq<T>, out: seq<T>,
      us: seq<U>, vs: seq<U>)
    requires Commutes(put) && multiset(us) == multiset(vs)
    ensures Fold(put, out, us) == Fold(put, out, vs)
    decreases |us|
  {
    if |us| == 0 {
      assert |multiset(vs)| == 0;
    } else {
      assert us[0] in multiset(vs);
      var i :| 0 <= i < |vs| && vs[i] == us[0];
      FoldFirst(put, out, vs, i);
      assert us == [us[0]] + us[1..];
      assert vs == vs[..i] + [vs[i]] + vs[i + 1..];
      WithoutOne(us, vs, i);
      FoldPermutation(put, put(out, us[0]), us[1..], vs[..i] + vs[i + 1..]);
    }
  }

  lemma WithoutOne<U>(us: seq<U>, vs: seq<U>, i: nat)
    requires |us| > 0 && i < |vs| && vs[i] == us[0] && multiset(us) == multiset(vs)
    ensures multiset(us[1..]) == multiset(vs[..i] + vs[i + 1..])
  {
    assert us == [us[0]] + us[1..];
    assert vs == vs[..i] + [vs[i]] + vs[i + 1..];
    var rest, left := multiset(us[1..]), multiset(vs[..i] + vs[i + 1..]);
    assert multiset(us) == multiset{us[0]} + rest;
    assert multiset(vs) == left + multiset{vs[i]};
    forall x: U ensures rest[x] == left[x] {
      assert (multiset{us[0]} + rest)[x] == (left + multiset{us[0]})[x];
    }
  }

  // ---- Lists of lists ----

  function FlatMap<A, B>(f: A -> seq<B>, xs: seq<A>): seq<B> {
    if |xs| == 0 then [] else f(xs[0]) + FlatMap(f, xs[1..])
  }

  lemma {:induction false} FlatMapAppend<A, B>(f: A -> seq<B>, xs: seq<A>, ys: seq<A>)
    ensures FlatMap(f, xs + ys) == FlatMap(f, xs) + FlatMap(f, ys)
    decreases |xs|
  {
    if |xs| == 0 {
      assert xs + ys == ys;
    } else {
      assert (xs + ys)[1..] == xs[1..] + ys;
      FlatMapAppend(f, xs[1..], ys);
    }
  }

  lemma FlatMapOne<A, B>(f: A -> seq<B>, x: A)
    ensures FlatMap(f, [x]) == f(x)
  {
    assert FlatMap(f, [x]) == f(x) + FlatMap(f, [x][1..]);
  }

  /** The order of the outer list does not change what is in the flat one. */
  lemma {:induction false} FlatMapPermutation<A, B>(f: A -> seq<B>, xs: seq<A>, ys: seq<A>)
    requires multiset(xs) == multiset(ys)
    ensures multiset(FlatMap(f, xs)) == multiset(FlatMap(f, ys))
    decreases |xs|
  {
    if |xs| == 0 {
      assert |multiset(ys)| == 0;
    } else {
      assert xs[0] in multiset(ys);
      var i :| 0 <= i < |ys| && ys[i] == xs[0];
      WithoutOne(xs, ys, i);
      FlatMapPermutation(f, xs[1..], ys[..i] + ys[i + 1..]);
      FlatMapAt(f, ys, i);
    }
  }

  lemma FlatMapAt<A, B>(f: A -> seq<B>, ys: seq<A>, i: nat)
    requires i < |ys|
    ensures multiset(FlatMap(f, ys)) == multiset(f(ys[i])) + multiset(FlatMap(f, ys[..i] + ys[i + 1..]))
  {
    hide FlatMap;
    var x, before, after := ys[i], ys[..i], ys[i + 1..];
    assert ys == before + ([x] + after);
    FlatMapAppend(f, before, [x] + after);
    FlatMapAppend(f, [x], after);
    FlatMapAppend(f, before, after);
    FlatMapOne(f, x);
  }

  /** A range of indices, in order. */
  function Span(b: nat, e: nat): (s: seq<nat>)
    ensures |s| == if b <= e then e - b else 0
    ensures forall i | 0 <= i < |s| :: s[i] == b + i
  {
    if b <= e then seq(e - b, i requires 0 <= i < e - b => b + i) else []
  }

  lemma SpanSnoc(b: nat, e: nat)
    requires b <= e
    ensures Span(b, e + 1) == Span(b, e) + [e]
  {
  }

  // ---- The dispatch ----

  /** The indices of one chunk. */
  function ChunkSpan(total: nat, n: nat): nat -> seq<nat> {
    (c: nat) => if c < n then Span(Chunks.ChunkBounds(c, total, n).0, Chunks.ChunkBounds(c, total, n).1) else []
  }

  /** An order of the chunks 0..n-1, each once. */
  ghost predicate Schedule(order: seq<nat>, n: nat) {
    multiset(order) == multiset(Span(0, n))
  }

  /** The chunks in their own order are the whole range. */
  lemma {:induction false} ChunksInOrder(total: nat, n: nat, k: nat)
    requires 0 < n && k <= n
    ensures FlatMap(ChunkSpan(total, n), Span(0, k)) == Span(0, Chunks.Bound(k, total, n))
    decreases k
  {
    hide Chunks.Bound;
    Chunks.FirstAndLast(total, n);
    if k > 0 {
      var c: nat := k - 1;
      ChunksInOrder(total, n, c);
      SpanSnoc(0, c);
      FlatMapAppend<nat, nat>(ChunkSpan(total, n), Span(0, c), [c]);
      FlatMapOne<nat, nat>(ChunkSpan(total, n), c);
      var (b, e) := Chunks.ChunkBounds(c, total, n);
      assert Span(0, b) + Span(b, e) == Span(0, e);
    } else {
      assert Span(0, 0) == [];
    }
  }

  /** The indices `parallel_for_rows` runs, in the order it happens to run them: serial
      for few rows, little work or one thread, by chunks otherwise. */
  ghost function Dispatched(rows: nat, work: nat, threshold: nat, threads: nat, order: seq<nat>): seq<nat> {
    if rows < 2 || work < threshold || threads <= 1 then Span(0, rows) else FlatMap(ChunkSpan(rows, threads), order)
  }

  /** The pool is used exactly when there are rows to split, work enough and threads: then,
      and only then, some order of the chunks is not the serial order. */
  lemma ForksExactly(rows: nat, work: nat, threshold: nat, threads: nat)
    requires threads > 0
    ensures (forall order: seq<nat> | Schedule(order, threads) ::
              Dispatched(rows, work, threshold, threads, order) == Span(0, rows))
       <==> rows < 2 || work < threshold || threads <= 1
  {
    hide FlatMap, ChunkSpan, Span;
    if rows >= 2 && work >= threshold && threads > 1 {
      var last: nat := threads - 1;
      var order: seq<nat> := [last] + Span(0, last);
      LastChunkFirst(rows, last, Span(0, last));
      LastFirstIsSchedule(last);
      assert Dispatched(rows, work, threshold, threads, order) == FlatMap(ChunkSpan(rows, threads), order);
      assert Schedule(order, threads) && Dispatched(rows, work, threshold, threads, order) != Span(0, rows);
    } else {
      assert forall order: seq<nat> :: Dispatched(rows, work, threshold, threads, order) == Span(0, rows);
    }
  }

  lemma LastFirstIsSchedule(last: nat)
    ensures Schedule([last] + Span(0, last), last + 1)
  {
    SpanSnoc(0, last);
    assert multiset([last] + Span(0, last)) == multiset(Span(0, last) + [last]);
  }

  lemma LastChunkFirst(rows: nat, last: nat, rest: seq<nat>)
    requires rows >= 2 && last >= 1
    ensures FlatMap(ChunkSpan(rows, last + 1), [last] + rest) != Span(0, rows)
  {
    var (b, e) := Chunks.ChunkBounds(last, rows, last + 1);
    Chunks.LastStartsLate(rows, last + 1);
    assert ([last] + rest)[1..] == rest;
    var flat := FlatMap(ChunkSpan(rows, last + 1), [last] + rest);
    assert flat == Span(b, e) + FlatMap(ChunkSpan(rows, last + 1), rest);
    assert flat[0] == b > 0 && Span(0, rows)[0] == 0;
  }

  /** The rows a schedule reaches are all the rows. */
  lemma RowsReached(rows: nat, threads: nat, order: seq<nat>)
    requires threads > 0 && Schedule(order, threads)
    ensures multiset(FlatMap(ChunkSpan(rows, threads), order)) == multiset(Span(0, rows))
  {
    FlatMapPermutation(ChunkSpan(rows, threads), order, Span(0, threads));
    ChunksInOrder(rows, threads, threads);
    Chunks.FirstAndLast(rows, threads);
  }

  /** Whatever the thread count, the work, the threshold and the order of the chunks,
      every row is dispatched exactly once. */
  lemma DispatchIsPermutation(rows: nat, work: nat, threshold: nat, threads: nat, order: seq<nat>)
    requires threads > 0 && Schedule(order, threads)
    ensures multiset(Dispatched(rows, work, threshold, threads, order)) == multiset(Span(0, rows))
  {
    RowsReached(rows, threads, order);
  }

  /** A kernel whose rows can change places gives the serial result under every
      schedule, even with the work of different rows interleaved in any way. */
  lemma ParallelIsSerial<T(!new), U(!new)>(put: (seq<T>, U) -> seq<T>, row: nat -> seq<U>, out: seq<T>,
      rows: nat, work: nat, threshold: nat, threads: nat, order: seq<nat>, interleaved: seq<U>)
    requires Commutes(put) && threads > 0 && Schedule(order, threads)
    requires multiset(interleaved) == multiset(FlatMap(row, Dispatched(rows, work, threshold, threads, order)))
    ensures Fold(put, out, interleaved) == Fold(put, out, FlatMap(row, Span(0, rows)))
  {
    DispatchIsPermutation(rows, work, threshold, threads, order);
    FlatMapPermutation(row, Dispatched(rows, work, threshold, threads, order), Span(0, rows));
    FoldPermutation(put, out, interleaved, FlatMap(row, Span(0, rows)));
  }

  // ---- Matmul ----

  /** The dot product as the kernel accumulates it, left to right. */
  function Dot<T>(ops: Ops<T>, a: seq<T>, w: seq<T>, n: nat): T
    requires n <= |a| && n <= |w|
  {
    if n == 0 then ops.zero else ops.add(Dot(ops, a, w, n - 1), ops.mul(a[n - 1], w[n - 1]))
  }

  /** Writing one element of an output with `width` columns. */
  function PutCell<T>(val: (nat, nat) -> T, width: nat): (seq<T>, (nat, nat)) -> seq<T> {
    (o: seq<T>, c: (nat, nat)) =>
      if c.1 < width && c.0 * width + c.1 < |o| then o[c.0 * width + c.1 := val(c.0, c.1)] else o
  }

  lemma PutCellIs<T>(val: (nat, nat) -> T, width: nat, o: seq<T>, c: (nat, nat))
    ensures PutCell(val, width)(o, c) ==
      if c.1 < width && c.0 * width + c.1 < |o| then o[c.0 * width + c.1 := val(c.0, c.1)] else o
    ensures |PutCell(val, width)(o, c)| == |o|
  {
  }

  lemma PutCellCommutes<T(!new)>(val: (nat, nat) -> T, width: nat)
    ensures Commutes(PutCell(val, width))
  {
    forall o: seq<T>, u: (nat, nat), v: (nat, nat)
      ensures PutCell(val, width)(PutCell(val, width)(o, u), v) == PutCell(val, width)(PutCell(val, width)(o, v), u)
    {
      CellsSwap(val, width, o, u, v);
    }
  }

  lemma CellsSwap<T>(val: (nat, nat) -> T, width: nat, o: seq<T>, u: (nat, nat), v: (nat, nat))
    ensures PutCell(val, width)(PutCell(val, width)(o, u), v) == PutCell(val, width)(PutCell(val, width)(o, v), u)
  {
    var i, j := u.0 * width + u.1, v.0 * width + v.1;
    PutCellIs(val, width, o, u);
    PutCellIs(val, width, o, v);
    PutCellIs(val, width, PutCell(val, width)(o, u), v);
    PutCellIs(val, width, PutCell(val, width)(o, v), u);
    hide PutCell;
    if u.1 < width && v.1 < width && i == j {
      Digits(u.0, u.1, v.0, v.1, width);
    } else if u.1 < width && v.1 < width && i < |o| && j < |o| {
      UpdatesSwap(o, i, val(u.0, u.1), j, val(v.0, v.1));
    }
  }

  lemma UpdatesSwap<T>(o: seq<T>, i: nat, x: T, j: nat, y: T)
    requires i < |o| && j < |o| && i != j
    ensures o[i := x][j := y] == o[j := y][i := x]
  {
  }

  /** One output channel: the inner loop over the activation rows. */
  function Column(m: nat): nat -> seq<(nat, nat)> {
    (n: nat) => seq(m, i requires 0 <= i < m => (i, n))
  }

  /** The output every order must produce: element (i, j) is the value of (i, j). */
  ghost predicate IsProduct<T>(val: (nat, nat) -> T, m: nat, n: nat, out: seq<T>) {
    |out| == m * n && forall i: nat, j: nat | i < m && j < n :: ElementIs(val, n, out, i, j)
  }

  ghost predicate ElementIs<T>(val: (nat, nat) -> T, n: nat, out: seq<T>, i: nat, j: nat) {
    i * n + j < |out| && out[i * n + j] == val(i, j)
  }

  /** There is only one such output. */
  lemma ProductIsUnique<T>(val: (nat, nat) -> T, m: nat, n: nat, out: seq<T>, out': seq<T>)
    requires IsProduct(val, m, n, out) && IsProduct(val, m, n, out')
    ensures out == out'
  {
    forall k | 0 <= k < |out| ensures out[k] == out'[k] {
      var i, j := CellOf(k, m, n);
      assert ElementIs(val, n, out, i, j) && ElementIs(val, n, out', i, j);
    }
  }

  lemma CellOf(k: nat, m: nat, n: nat) returns (i: nat, j: nat)
    requires k < m * n
    ensures i < m && j < n && k == i * n + j
  {
    assert n > 0;
    i, j := k / n, k % n;
    Chunks.DivMod(k, n);
    if i >= m {
      Chunks.Product(m, i, n);
    }
  }

  /** What a list of cell writes leaves in a cell. */
  lemma {:induction false} FoldCell<T>(val: (nat, nat) -> T, n: nat, out: seq<T>, us: seq<(nat, nat)>, i: nat,
      j: nat)
    requires j < n && i * n + j < |out|
    ensures |Fold(PutCell(val, n), out, us)| == |out|
    ensures Fold(PutCell(val, n), out, us)[i * n + j] == if (i, j) in us then val(i, j) else out[i * n + j]
    decreases |us|
  {
    if |us| > 0 {
      var o := PutCell(val, n)(out, us[0]);
      PutCellIs(val, n, out, us[0]);
      FoldCell(val, n, o, us[1..], i, j);
      assert (i, j) in us <==> us[0] == (i, j) || (i, j) in us[1..];
      if us[0].1 < n && us[0].0 * n + us[0].1 == i * n + j {
        Digits(us[0].0, us[0].1, i, j, n);
      }
    }
  }

  lemma {:induction false} ColumnsCover(m: nat, ns: seq<nat>, i: nat, j: nat)
    requires i < m && j in ns
    ensures (i, j) in FlatMap(Column(m), ns)
    decreases |ns|
  {
    if ns[0] == j {
      assert Column(m)(j)[i] == (i, j);
    } else {
      ColumnsCover(m, ns[1..], i, j);
    }
  }

  /** Channel by channel over all channels is the product. */
  lemma SerialIsProduct<T>(val: (nat, nat) -> T, m: nat, n: nat, out: seq<T>)
    requires |out| == m * n
    ensures IsProduct(val, m, n, Fold(PutCell(val, n), out, FlatMap(Column(m), Span(0, n))))
  {
    var us := FlatMap(Column(m), Span(0, n));
    FoldLength(val, n, out, us);
    forall i: nat, j: nat | i < m && j < n ensures ElementIs(val, n, Fold(PutCell(val, n), out, us), i, j) {
      DigitsBound(i, j, m, n);
      assert Span(0, n)[j] == j;
      ColumnsCover(m, Span(0, n), i, j);
      FoldCell(val, n, out, us, i, j);
    }
  }

  lemma {:induction false} FoldLength<T>(val: (nat, nat) -> T, n: nat, out: seq<T>, us: seq<(nat, nat)>)
    ensures |Fold(PutCell(val, n), out, us)| == |out|
    decreases |us|
  {
    if |us| > 0 {
      PutCellIs(val, n, out, us[0]);
      FoldLength(val, n, PutCell(val, n)(out, us[0]), us[1..]);
    }
  }

  /** Every channel once, in any order and interleaved in any way, is the product. */
  lemma OrderIsProduct<T(!new)>(val: (nat, nat) -> T, m: nat, n: nat, out: seq<T>, rows: seq<nat>,
      interleaved: seq<(nat, nat)>)
    requires |out| == m * n && multiset(rows) == multiset(Span(0, n))
    requires multiset(interleaved) == multiset(FlatMap(Column(m), rows))
    ensures IsProduct(val, m, n, Fold(PutCell(val, n), out, interleaved))
  {
    hide IsProduct, Fold, PutCell, FlatMap, Column;
    PutCellCommutes(val, n);
    FlatMapPermutation(Column(m), rows, Span(0, n));
    FoldPermutation(PutCell(val, n), out, interleaved, FlatMap(Column(m), Span(0, n)));
    SerialIsProduct(val, m, n, out);
  }

  /** The whole claim for the weight-stationary, row-parallel matmul. */
  lemma MatmulIsProduct<T(!new)>(val: (nat, nat) -> T, m: nat, n: nat, out: seq<T>, work: nat, threshold: nat,
      threads: nat, order: seq<nat>, interleaved: seq<(nat, nat)>)
    requires |out| == m * n && threads > 0 && Schedule(order, threads)
    requires multiset(interleaved) == multiset(FlatMap(Column(m), Dispatched(n, work, threshold, threads, order)))
    ensures IsProduct(val, m, n, Fold(PutCell(val, n), out, interleaved))
  {
    DispatchIsPermutation(n, work, threshold, threads, order);
    OrderIsProduct(val, m, n, out, Dispatched(n, work, threshold, threads, order), interleaved);
  }

  /** Element (m, n) of an fp32 product. */
  function ProductOf<T>(ops: Ops<T>, a: seq<T>, w: seq<T>, m: nat, n: nat, k: nat): (nat, nat) -> T
    requires m * k <= |a| && n * k <= |w|
  {
    (i: nat, j: nat) =>
      if i < m && j < n then
        RowFits(i, m, k);
        RowFits(j, n, k);
        Dot(ops, RowOf(a, i, k), RowOf(w, j, k), k)
      else ops.zero
  }

  /** The body handed to the pool: channels [b, e), weight row outer, activation row inner. */
  method MatmulChannels<T>(ops: Ops<T>, a: array<T>, w: array<T>, m: nat, n: nat, k: nat, out: array<T>,
      b: nat, e: nat)
    requires m * k <= a.Length && n * k <= w.Length && out.Length == m * n && b <= e <= n
    requires out != a && out != w
    modifies out
    ensures out[..] == Fold(PutCell(ProductOf(ops, a[..], w[..], m, n, k), n), old(out[..]),
      FlatMap(Column(m), Span(b, e)))
  {
    hide Fold, FlatMap, PutCell, ProductOf, Column;
    ghost var put := PutCell(ProductOf(ops, a[..], w[..], m, n, k), n);
    var j := b;
    NoChannels(put, out[..], m, b);
    while j < e
      invariant b <= j <= e
      invariant a[..] == old(a[..]) && w[..] == old(w[..])
      invariant out[..] == Fold(put, old(out[..]), FlatMap(Column(m), Span(b, j)))
    {
      MatmulChannel(ops, a, w, m, n, k, out, j);
      OneMoreChannel(put, old(out[..]), m, b, j);
      j := j + 1;
    }
  }

  lemma NoChannels<T>(put: (seq<T>, (nat, nat)) -> seq<T>, out: seq<T>, m: nat, b: nat)
    ensures out == Fold(put, out, FlatMap(Column(m), Span(b, b)))
  {
    assert Span(b, b) == [];
  }

  lemma OneMoreChannel<T>(put: (seq<T>, (nat, nat)) -> seq<T>, out: seq<T>, m: nat, b: nat, j: nat)
    requires b <= j
    ensures Fold(put, out, FlatMap(Column(m), Span(b, j + 1)))
      == Fold(put, Fold(put, out, FlatMap(Column(m), Span(b, j))), Column(m)(j))
  {
    hide Fold, FlatMap, Column;
    SpanSnoc(b, j);
    FlatMapAppend(Column(m), Span(b, j), [j]);
    FlatMapOne(Column(m), j);
    FoldAppend(put, out, FlatMap(Column(m), Span(b, j)), Column(m)(j));
  }

  /** One output channel for every activation row. */
  method MatmulChannel<T>(ops: Ops<T>, a: array<T>, w: array<T>, m: nat, n: nat, k: nat, out: array<T>,
      j: nat)
    requires m * k <= a.Length && n * k <= w.Length && out.Length == m * n && j < n
    requires out != a && out != w
    modifies out
    ensures out[..] == Fold(PutCell(ProductOf(ops, a[..], w[..], m, n, k), n), old(out[..]), Column(m)(j))
  {
    hide Fold, PutCell, ProductOf, Dot;
    ghost var val := ProductOf(ops, a[..], w[..], m, n, k);
    ghost var us := Column(m)(j);
    NoCells(PutCell(val, n), out[..]);
    assert us[..0] == [];
    RowFits(j, n, k);
    var i := 0;
    while i < m
      invariant 0 <= i <= m
      invariant a[..] == old(a[..]) && w[..] == old(w[..])
      invariant out[..] == Fold(PutCell(val, n), old(out[..]), us[..i])
    {
      RowFits(i, m, k);
      DigitsBound(i, j, m, n);
      var acc := DotLoop(ops, a, i * k, w, j * k, k);
      ElementOf(ops, a[..], w[..], m, n, k, i, j);
      OneMoreCell(val, n, old(out[..]), us, i, j);
      out[i * n + j] := acc;
      i := i + 1;
    }
    assert us[..m] == us;
  }

  lemma NoCells<T>(put: (seq<T>, (nat, nat)) -> seq<T>, out: seq<T>)
    ensures out == Fold(put, out, [])
  {
  }

  lemma OneMoreCell<T>(val: (nat, nat) -> T, n: nat, out: seq<T>, us: seq<(nat, nat)>, i: nat, j: nat)
    requires i < |us| && us[i] == (i, j) && j < n && i * n + j < |out|
    ensures |Fold(PutCell(val, n), out, us[..i])| == |out|
    ensures Fold(PutCell(val, n), out, us[..i + 1]) == Fold(PutCell(val, n), out, us[..i])[i * n + j := val(i, j)]
  {
    hide Fold, PutCell;
    FoldLength(val, n, out, us[..i]);
    assert us[..i + 1] == us[..i] + [(i, j)];
    FoldAppend(PutCell(val, n), out, us[..i], [(i, j)]);
    FoldOne(PutCell(val, n), Fold(PutCell(val, n), out, us[..i]), (i, j));
    PutCellIs(val, n, Fold(PutCell(val, n), out, us[..i]), (i, j));
  }

  lemma ElementOf<T>(ops: Ops<T>, a: seq<T>, w: seq<T>, m: nat, n: nat, k: nat, i: nat, j: nat)
    requires m * k <= |a| && n * k <= |w| && i < m && j < n
    ensures i * k + k <= m * k && j * k + k <= n * k
    ensures ProductOf(ops, a, w, m, n, k)(i, j) == Dot(ops, a[i * k..i * k + k], w[j * k..j * k + k], k)
  {
    hide Dot;
    RowFits(i, m, k);
    RowFits(j, n, k);
    assert RowOf(a, i, k) == a[i * k..i * k + k] && RowOf(w, j, k) == w[j * k..j * k + k];
  }

  lemma FoldOne<T, U>(put: (seq<T>, U) -> seq<T>, out: seq<T>, u: U)
    ensures Fold(put, out, [u]) == put(out, u)
  {
    assert Fold(put, out, [u]) == Fold(put, put(out, u), [u][1..]);
  }

  /** The accumulating loop of one output element. */
  method DotLoop<T>(ops: Ops<T>, a: array<T>, aOff: nat, w: array<T>, wOff: nat, k: nat) returns (acc: T)
    requires aOff + k <= a.Length && wOff + k <= w.Length
    ensures acc == Dot(ops, a[aOff..aOff + k], w[wOff..wOff + k], k)
  {
    acc := ops.zero;
    var i := 0;
    while i < k
      invariant 0 <= i <= k
      invariant acc == Dot(ops, a[aOff..aOff + k], w[wOff..wOff + k], i)
    {
      acc := ops.add(acc, ops.mul(a[aOff + i], w[wOff + i]));
      i := i + 1;
    }
  }

  /** `matmul_f32` on the pool: the chunks run in the order the threads happen to. */
  method Matmul<T(!new)>(ops: Ops<T>, a: array<T>, w: array<T>, m: nat, n: nat, k: nat, out: array<T>,
      threshold: nat, threads: nat, order: seq<nat>)
    requires m * k <= a.Length && n * k <= w.Length && out.Length == m * n && out != a && out != w
    requires threads > 0 && Schedule(order, threads)
    modifies out
    ensures IsProduct(ProductOf(ops, a[..], w[..], m, n, k), m, n, out[..])
  {
    hide Fold, FlatMap, PutCell, ProductOf, Column, ChunkSpan, IsProduct, Schedule;
    ghost var val := ProductOf(ops, a[..], w[..], m, n, k);
    ghost var put, start := PutCell(val, n), out[..];
    if n < 2 || n * k < threshold || threads <= 1 {
      MatmulChannels(ops, a, w, m, n, k, out, 0, n);
    } else {
      var c := 0;
      NoChunks(put, start, m, n, threads);
      assert order[..0] == [];
      while c < |order|
        invariant 0 <= c <= |order| && a[..] == old(a[..]) && w[..] == old(w[..])
        invariant out[..] == Fold(put, start, FlatMap(Column(m), FlatMap(ChunkSpan(n, threads), order[..c])))
      {
        ScheduleIn(order, threads, c);
        var (b, e) := Chunks.ChunkBounds(order[c], n, threads);
        MatmulChannels(ops, a, w, m, n, k, out, b, e);
        OneMoreChunk(put, start, m, n, threads, order, c);
        c := c + 1;
      }
      assert order[..c] == order;
    }
    MatmulIsProduct(val, m, n, start, n * k, threshold, threads, order,
      FlatMap(Column(m), Dispatched(n, n * k, threshold, threads, order)));
  }

  lemma NoChunks<T>(put: (seq<T>, (nat, nat)) -> seq<T>, out: seq<T>, m: nat, n: nat, threads: nat)
    ensures out == Fold(put, out, FlatMap(Column(m), FlatMap(ChunkSpan(n, threads), [])))
  {
  }

  lemma OneMoreChunk<T>(put: (seq<T>, (nat, nat)) -> seq<T>, out: seq<T>, m: nat, n: nat, threads: nat,
      order: seq<nat>, c: nat)
    requires c < |order| && order[c] < threads
    ensures var (b, e) := Chunks.ChunkBounds(order[c], n, threads);
      Fold(put, out, FlatMap(Column(m), FlatMap(ChunkSpan(n, threads), order[..c + 1])))
        == Fold(put, Fold(put, out, FlatMap(Column(m), FlatMap(ChunkSpan(n, threads), order[..c]))),
          FlatMap(Column(m), Span(b, e)))
  {
    hide Fold, FlatMap, Column, Chunks.Bound;
    var (b, e) := Chunks.ChunkBounds(order[c], n, threads);
    var before := FlatMap(ChunkSpan(n, threads), order[..c]);
    assert order[..c + 1] == order[..c] + [order[c]];
    FlatMapAppend(ChunkSpan(n, threads), order[..c], [order[c]]);
    FlatMapOne(ChunkSpan(n, threads), order[c]);
    FlatMapAppend(Column(m), before, Span(b, e));
    FoldAppend(put, out, FlatMap(Column(m), before), FlatMap(Column(m), Span(b, e)));
  }

  lemma ScheduleIn(order: seq<nat>, n: nat, c: nat)
    requires Schedule(order, n) && c < |order|
    ensures order[c] < n
  {
    assert order[c] in multiset(order) && order[c] in multiset(Span(0, n));
  }

  /** The plain loop: activation row outer, channel inner. */
  method MatmulSerial<T>(ops: Ops<T>, a: array<T>, w: array<T>, m: nat, n: nat, k: nat, out: array<T>)
    requires m * k <= a.Length && n * k <= w.Length && out.Length == m * n && out != a && out != w
    modifies out
    ensures IsProduct(ProductOf(ops, a[..], w[..], m, n, k), m, n, out[..])
  {
    hide ProductOf, Dot, ElementIs;
    ghost var val := ProductOf(ops, a[..], w[..], m, n, k);
    var i := 0;
    while i < m
      invariant 0 <= i <= m && a[..] == old(a[..]) && w[..] == old(w[..])
      invariant Filled(val, n, out[..], i, 0)
    {
      var j := 0;
      while j < n
        invariant 0 <= j <= n && a[..] == old(a[..]) && w[..] == old(w[..])
        invariant Filled(val, n, out[..], i, j)
      {
        RowFits(i, m, k);
        RowFits(j, n, k);
        DigitsBound(i, j, m, n);
        ghost var before := out[..];
        var acc := DotLoop(ops, a, i * k, w, j * k, k);
        ElementOf(ops, a[..], w[..], m, n, k, i, j);
        out[i * n + j] := acc;
        OneMoreFilled(val, n, before, i, j);
        j := j + 1;
      }
      i := i + 1;
    }
  }

  /** The elements of the first `i` rows and the first `j` of the next have been written. */
  ghost predicate Filled<T>(val: (nat, nat) -> T, n: nat, out: seq<T>, i: nat, j: nat) {
    forall p: nat, q: nat | q < n && (p < i || (p == i && q < j)) :: ElementIs(val, n, out, p, q)
  }

  lemma OneMoreFilled<T>(val: (nat, nat) -> T, n: nat, out: seq<T>, i: nat, j: nat)
    requires j < n && i * n + j < |out| && Filled(val, n, out, i, j)
    ensures Filled(val, n, out[i * n + j := val(i, j)], i, j + 1)
  {
    hide ElementIs;
    var after := out[i * n + j := val(i, j)];
    forall p: nat, q: nat | q < n && (p < i || (p == i && q < j + 1)) ensures ElementIs(val, n, after, p, q) {
      ElementKept(val, n, out, i, j, p, q);
    }
  }

  lemma ElementKept<T>(val: (nat, nat) -> T, n: nat, out: seq<T>, i: nat, j: nat, p: nat, q: nat)
    requires j < n && q < n && i * n + j < |out| && ((p, q) != (i, j) ==> ElementIs(val, n, out, p, q))
    ensures ElementIs(val, n, out[i * n + j := val(i, j)], p, q)
  {
    if (p, q) != (i, j) { OtherCell(i, j, p, q, n); }
  }

  lemma OtherCell(i: nat, j: nat, p: nat, q: nat, n: nat)
    requires j < n && q < n && (p, q) != (i, j)
    ensures p * n + q != i * n + j
  {
    if p * n + q == i * n + j { Digits(p, q, i, j, n); }
  }

  /** A product with `m` activation rows is, row by row, the product with one: what a
      batched projection relies on. */
  lemma RowOfProduct<T>(ops: Ops<T>, a: seq<T>, w: seq<T>, m: nat, n: nat, k: nat, i: nat, out: seq<T>,
      one: seq<T>)
    requires m * k <= |a| && n * k <= |w| && i < m && i * k + k <= |a|
    requires IsProduct(ProductOf(ops, a, w, m, n, k), m, n, out)
    requires IsProduct(ProductOf(ops, a[i * k..i * k + k], w, 1, n, k), 1, n, one)
    ensures RowIs(out, i, n, one)
  {
    hide ProductOf, Dot;
    RowFits(i, m, n);
    ghost var row := out[i * n..i * n + n];
    forall j: nat | j < n ensures row[j] == one[j] {
      assert ElementIs(ProductOf(ops, a, w, m, n, k), n, out, i, j);
      assert ElementIs(ProductOf(ops, a[i * k..i * k + k], w, 1, n, k), n, one, 0, j);
      SameElement(ops, a, w, m, n, k, i, j);
    }
  }

  lemma SameElement<T>(ops: Ops<T>, a: seq<T>, w: seq<T>, m: nat, n: nat, k: nat, i: nat, j: nat)
    requires m * k <= |a| && n * k <= |w| && i < m && j < n && i * k + k <= |a|
    ensures ProductOf(ops, a, w, m, n, k)(i, j) == ProductOf(ops, a[i * k..i * k + k], w, 1, n, k)(0, j)
  {
    var row := a[i * k..i * k + k];
    ElementOf(ops, a, w, m, n, k, i, j);
    ElementOf(ops, row, w, 1, n, k, 0, j);
    assert row[0 * k..0 * k + k] == row;
  }

  // ---- Attention heads ----

  /** Writing one head's slice of the output. */
  function PutHead<T>(head: nat -> seq<T>, dim: nat): (seq<T>, nat) -> seq<T> {
    (o: seq<T>, h: nat) =>
      if PutsHead(head, dim, o, h) then Splice(o, h * dim, head(h)) else o
  }

  /** Heads write disjoint slices. */
  lemma PutHeadCommutes<T(!new)>(head: nat -> seq<T>, dim: nat)
    ensures Commutes(PutHead(head, dim))
  {
    forall o: seq<T>, u: nat, v: nat
      ensures PutHead(head, dim)(PutHead(head, dim)(o, u), v) == PutHead(head, dim)(PutHead(head, dim)(o, v), u)
    {
      HeadsSwap(head, dim, o, u, v);
    }
  }

  lemma HeadsSwap<T>(head: nat -> seq<T>, dim: nat, o: seq<T>, u: nat, v: nat)
    ensures PutHead(head, dim)(PutHead(head, dim)(o, u), v) == PutHead(head, dim)(PutHead(head, dim)(o, v), u)
  {
    if u < v {
      RowFits(u, v, dim);
      if PutsHead(head, dim, o, u) && PutsHead(head, dim, o, v) { SpliceSwap(o, u * dim, head(u), v * dim, head(v)); }
    } else if v < u {
      RowFits(v, u, dim);
      if PutsHead(head, dim, o, u) && PutsHead(head, dim, o, v) { SpliceSwap(o, v * dim, head(v), u * dim, head(u)); }
    }
  }

  predicate PutsHead<T>(head: nat -> seq<T>, dim: nat, o: seq<T>, h: nat) {
    |head(h)| == dim && h * dim + dim <= |o|
  }

  lemma SpliceSwap<T>(o: seq<T>, x: nat, a: seq<T>, y: nat, b: seq<T>)
    requires x + |a| <= y && y + |b| <= |o|
    ensures Splice(Splice(o, x, a), y, b) == Splice(Splice(o, y, b), x, a)
  {
  }

  /** Splitting the heads over the pool gives the serial output, under every schedule
      and every interleaving of the heads. */
  lemma AttentionIsSerial<T(!new)>(head: nat -> seq<T>, dim: nat, heads: nat, seqLen: nat, out: seq<T>, threshold: nat,
      threads: nat, order: seq<nat>, interleaved: seq<nat>)
    requires threads > 0 && Schedule(order, threads)
    requires multiset(interleaved)
      == multiset(FlatMap(h => [h], Dispatched(heads, heads * seqLen * dim, threshold, threads, order)))
    ensures Fold(PutHead(head, dim), out, interleaved)
      == Fold(PutHead(head, dim), out, FlatMap(h => [h], Span(0, heads)))
  {
    PutHeadCommutes(head, dim);
    var one: nat -> seq<nat> := h => [h];
    ParallelIsSerial(PutHead(head, dim), one, out, heads, heads * seqLen * dim, threshold, threads, order, interleaved);
  }

  /** And that output is every head's row in its own slice. */
  lemma AttentionWritesHeads<T(!new)>(head: nat -> seq<T>, dim: nat, heads: nat, seqLen: nat, out: seq<T>,
      threshold: nat, threads: nat, order: seq<nat>, interleaved: seq<nat>)
    requires heads * dim <= |out| && forall h: nat | h < heads :: |head(h)| == dim
    requires threads > 0 && Schedule(order, threads)
    requires multiset(interleaved)
      == multiset(FlatMap(h => [h], Dispatched(heads, heads * seqLen * dim, threshold, threads, order)))
    ensures forall h: nat | h < heads :: RowIs(Fold(PutHead(head, dim), out, interleaved), h, dim, head(h))
  {
    hide Fold, PutHead, Dispatched, RowIs, Schedule;
    var rows := Dispatched(heads, heads * seqLen * dim, threshold, threads, order);
    DispatchIsPermutation(heads, heads * seqLen * dim, threshold, threads, order);
    Singletons(rows);
    HeadsInAnyOrder(head, dim, heads, out, interleaved);
  }

  /** Every head once, in any order. */
  lemma HeadsInAnyOrder<T(!new)>(head: nat -> seq<T>, dim: nat, heads: nat, out: seq<T>, order: seq<nat>)
    requires heads * dim <= |out| && forall h: nat | h < heads :: |head(h)| == dim
    requires multiset(order) == multiset(Span(0, heads))
    ensures forall h: nat | h < heads :: RowIs(Fold(PutHead(head, dim), out, order), h, dim, head(h))
  {
    hide Fold, PutHead, RowIs;
    PutHeadCommutes(head, dim);
    FoldPermutation(PutHead(head, dim), out, order, Span(0, heads));
    forall h: nat | h < heads ensures RowIs(Fold(PutHead(head, dim), out, order), h, dim, head(h)) {
      RowFits(h, heads, dim);
      assert Span(0, heads)[h] == h;
      FoldHead(head, dim, out, Span(0, heads), h);
    }
  }

  lemma {:induction false} Singletons(us: seq<nat>)
    ensures FlatMap(h => [h], us) == us
    decreases |us|
  {
    if |us| > 0 { Singletons(us[1..]); }
  }

  /** What a list of head writes leaves in a head's slice. */
  lemma {:induction false} FoldHead<T>(head: nat -> seq<T>, dim: nat, out: seq<T>, us: seq<nat>, h: nat)
    requires h * dim + dim <= |out| && |head(h)| == dim
    ensures RowIs(Fold(PutHead(head, dim), out, us), h, dim, if h in us then head(h) else out[h * dim..h * dim + dim])
    decreases |us|
  {
    hide PutHead;
    if |us| > 0 {
      PutHeadRow(head, dim, out, us[0], h);
      FoldHead(head, dim, PutHead(head, dim)(out, us[0]), us[1..], h);
      assert us == [us[0]] + us[1..];
    }
  }

  lemma PutHeadRow<T>(head: nat -> seq<T>, dim: nat, o: seq<T>, u: nat, h: nat)
    requires h * dim + dim <= |o| && |head(h)| == dim
    ensures RowIs(PutHead(head, dim)(o, u), h, dim, if u == h then head(h) else o[h * dim..h * dim + dim])
  {
    if u < h { RowFits(u, h, dim); }
    if h < u { RowFits(h, u, dim); }
    if PutsHead(head, dim, o, u) { SpliceSlice(o, u * dim, head(u), h * dim, dim); }
  }
}
