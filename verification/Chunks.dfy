/** How a range of rows is split over the threads of the pool. */
module Chunks {
  import Layout

  const MAX_INT: int := 0x7fff_ffff
  const MAX_INT64: int := 0x7fff_ffff_ffff_ffff
  const MAX_THREADS: int := 64

  function Bound(c: nat, total: nat, n: nat): (b: nat)
    requires n > 0 && c <= n
    ensures b <= total
  {
    BoundIn(c, total, n);
    c * total / n
  }

  lemma BoundIn(c: nat, total: nat, n: nat)
    requires n > 0 && c <= n
    ensures 0 <= c * total / n <= total
  {
    assert n * total == c * total + (n - c) * total;
    Between(c * total, n, total);
  }

  /** A quotient is at most `q` when the dividend is at most `q` divisors. */
  lemma Between(x: nat, n: nat, q: nat)
    requires n > 0 && x <= q * n
    ensures x / n <= q
  {
    assert x == x / n * n + x % n;
    if x / n > q {
      Layout.RowFits(q, x / n, n);
    }
  }

  /** Chunk `c` of `n`, as the code computes it. */
  function ChunkBounds(c: nat, total: nat, n: nat): (r: (nat, nat))
    requires c < n
    ensures r.0 <= r.1 <= total
  {
    BoundUp(c, total, n);
    (Bound(c, total, n), Bound(c + 1, total, n))
  }

  /** One step of the bound is the even share, rounded down or up. */
  lemma BoundStep(c: nat, total: nat, n: nat)
    requires c < n
    ensures total / n <= Bound(c + 1, total, n) - Bound(c, total, n) <= total / n + 1
    ensures total % n == 0 ==> Bound(c + 1, total, n) - Bound(c, total, n) == total / n
  {
    assert (c + 1) * total == c * total + total;
    ShareStep(c * total, total, n);
  }

  lemma DivMod(x: nat, n: nat)
    requires n > 0
    ensures x == x / n * n + x % n && 0 <= x % n < n && 0 <= x / n
  {
  }

  lemma ShareStep(x: nat, total: nat, n: nat)
    requires n > 0
    ensures total / n <= (x + total) / n - x / n <= total / n + 1
    ensures total % n == 0 ==> (x + total) / n - x / n == total / n
  {
    DivMod(x, n);
    DivMod(total, n);
    Quotients(x / n + total / n, x % n + total % n, n);
    Distribute(x / n, total / n, n);
  }

  lemma Distribute(a: nat, b: nat, n: nat)
    ensures (a + b) * n == a * n + b * n
  {
  }

  lemma Quotients(q: nat, rest: nat, n: nat)
    requires n > 0 && rest < 2 * n
    ensures (q * n + rest) / n == if rest < n then q else q + 1
  {
    var x := q * n + rest;
    assert x == x / n * n + x % n;
    if rest < n {
      Layout.Digits(x / n, x % n, q, rest, n);
    } else {
      assert x == (q + 1) * n + (rest - n);
      Layout.Digits(x / n, x % n, q + 1, rest - n, n);
    }
  }

  lemma Grows(x: nat, y: nat, n: nat)
    requires n > 0 && x <= y
    ensures x / n <= y / n
  {
    DivMod(x, n);
    DivMod(y, n);
    if x / n > y / n {
      Layout.RowFits(y / n, x / n, n);
    }
  }

  lemma FirstAndLast(total: nat, n: nat)
    requires n > 0
    ensures Bound(0, total, n) == 0 && Bound(n, total, n) == total
  {
    assert n * total == total * n + 0;
    Quotients(total, 0, n);
    Quotients(0, 0, n);
  }

  lemma BoundUp(c: nat, total: nat, n: nat)
    requires c < n
    ensures Bound(c, total, n) <= Bound(c + 1, total, n)
  {
    hide Bound;
    BoundStep(c, total, n);
  }

  lemma {:induction false} BoundsGrow(c: nat, d: nat, total: nat, n: nat)
    requires n > 0 && c <= d <= n
    ensures Bound(c, total, n) <= Bound(d, total, n)
    decreases d - c
  {
    hide Bound;
    if c < d {
      BoundUp(c, total, n);
      BoundsGrow(c + 1, d, total, n);
    }
  }

  ghost predicate InChunk(k: nat, c: nat, total: nat, n: nat)
    requires n > 0
  {
    c < n && ChunkBounds(c, total, n).0 <= k < ChunkBounds(c, total, n).1
  }

  /** The chunk of an index, found from the last bound down. */
  ghost function ChunkOf(k: nat, total: nat, n: nat, from: nat): (c: nat)
    requires n > 0 && from <= n && Bound(0, total, n) <= k < Bound(from, total, n)
    ensures c < from && InChunk(k, c, total, n)
    decreases from
  {
    if Bound(from - 1, total, n) <= k then from - 1 else ChunkOf(k, total, n, from - 1)
  }

  /** The chunk that has index `k`. */
  ghost function Home(k: nat, total: nat, n: nat): (c: nat)
    requires n > 0 && k < total
    ensures InChunk(k, c, total, n)
  {
    FirstAndLast(total, n);
    ChunkOf(k, total, n, n)
  }

  /** The chunks are contiguous, their sizes differ by at most one, and every index of
      the range is in exactly one of them. */
  lemma ChunksPartition(total: nat, n: nat)
    requires n > 0
    ensures ChunkBounds(0, total, n).0 == 0 && ChunkBounds(n - 1, total, n).1 == total
    ensures forall c: nat, d: nat | d == c + 1 < n :: ChunkBounds(c, total, n).1 == ChunkBounds(d, total, n).0
    ensures forall c: nat | c < n ::
      total / n <= ChunkBounds(c, total, n).1 - ChunkBounds(c, total, n).0 <= total / n + 1
    ensures forall k: nat, c: nat | k < total :: InChunk(k, c, total, n) <==> c == Home(k, total, n)
  {
    hide Bound, InChunk, Home;
    FirstAndLast(total, n);
    forall c: nat | c < n
      ensures total / n <= ChunkBounds(c, total, n).1 - ChunkBounds(c, total, n).0 <= total / n + 1 {
      BoundStep(c, total, n);
    }
    forall k: nat, c: nat | k < total ensures InChunk(k, c, total, n) <==> c == Home(k, total, n) {
      if InChunk(k, c, total, n) { OneChunk(k, c, Home(k, total, n), total, n); }
    }
  }

  lemma OneChunk(k: nat, c: nat, d: nat, total: nat, n: nat)
    requires n > 0 && InChunk(k, c, total, n) && InChunk(k, d, total, n)
    ensures c == d
  {
    hide Bound;
    if c < d {
      BoundsGrow(c + 1, d, total, n);
    } else if d < c {
      BoundsGrow(d + 1, c, total, n);
    }
  }

  /** The 64-bit products cannot overflow for any int range and the thread cap. */
  lemma NoOverflow(c: nat, total: nat, n: nat)
    requires c < n <= MAX_THREADS && total <= MAX_INT
    ensures (c + 1) * total <= MAX_INT64
    ensures ChunkBounds(c, total, n).1 <= MAX_INT
  {
    Product(c + 1, MAX_THREADS, total);
  }

  lemma Product(a: nat, b: nat, total: nat)
    requires a <= b
    ensures a * total <= b * total
  {
    assert b * total == a * total + (b - a) * total;
  }

  /** When there are fewer rows than threads it is not the last chunks that are empty:
      with one row and at least two threads the last chunk has it. */
  lemma EmptyChunksAreNotTrailing(n: nat)
    requires n >= 2
    ensures ChunkBounds(n - 1, 1, n) == (0, 1)
    ensures forall c: nat | c + 1 < n :: ChunkBounds(c, 1, n) == (0, 0)
  {
    FirstAndLast(1, n);
    forall c: nat | c < n ensures Bound(c, 1, n) == 0 {
      Quotients(0, c, n);
    }
  }

  /** No chunk is empty exactly when there are at least as many rows as threads. */
  lemma NoChunkEmpty(total: nat, n: nat)
    requires n > 0
    ensures (forall c: nat | c < n :: ChunkBounds(c, total, n).0 < ChunkBounds(c, total, n).1) <==> total >= n
  {
    if total >= n {
      Quotients(1, 0, n);
      Grows(n, total, n);
      forall c: nat | c < n ensures ChunkBounds(c, total, n).0 < ChunkBounds(c, total, n).1 {
        BoundStep(c, total, n);
      }
    } else {
      Quotients(0, total, n);
      Quotients(0, 0, n);
      assert ChunkBounds(0, total, n) == (0, 0);
    }
  }

  predicate Empty(c: nat, total: nat, n: nat)
    requires c < n
  {
    ChunkBounds(c, total, n).0 == ChunkBounds(c, total, n).1
  }

  /** Empty chunks come last exactly when there is no row at all, or at least one for
      every thread. */
  lemma EmptyChunksTrailExactly(total: nat, n: nat)
    requires n > 0
    ensures (forall c: nat, d: nat | c < d < n && Empty(c, total, n) :: Empty(d, total, n)) <==>
      total == 0 || total >= n
  {
    hide Bound;
    if total == 0 {
      forall c: nat | c < n ensures Empty(c, total, n) { BoundStep(c, total, n); }
    } else if total >= n {
      forall c: nat | c < n ensures !Empty(c, total, n) { NoChunkEmpty(total, n); }
    } else {
      FirstIsEmpty(total, n);
      LastHasOne(total, n);
      assert 0 < n - 1 && Empty(0, total, n) && !Empty(n - 1, total, n);
    }
  }

  lemma FirstIsEmpty(total: nat, n: nat)
    requires total < n
    ensures Empty(0, total, n)
  {
    Quotients(0, 0, n);
    Quotients(0, total, n);
  }

  /** With fewer rows than threads the last chunk is the last row. */
  lemma LastHasOne(total: nat, n: nat)
    requires 0 < total < n
    ensures ChunkBounds(n - 1, total, n) == (total - 1, total)
  {
    assert (n - 1) * total == (total - 1) * n + (n - total);
    Quotients(total - 1, n - total, n);
    FirstAndLast(total, n);
  }

  /** With two rows and two threads or more the last chunk is not empty and does not start
      at the first row. */
  lemma LastStartsLate(total: nat, n: nat)
    requires total >= 2 && n >= 2
    ensures 0 < ChunkBounds(n - 1, total, n).0 < ChunkBounds(n - 1, total, n).1
  {
    if total < n {
      LastHasOne(total, n);
    } else {
      BoundStep(n - 1, total, n);
      Grows(n, total, n);
      Quotients(1, 0, n);
      assert (n - 1) * total >= (n - 1) * 2 >= n by { Layout.RowFits(1, 2, n); Below(2, total, n - 1); }
      Grows(n, (n - 1) * total, n);
    }
  }

  lemma Below(a: nat, b: nat, k: nat)
    requires a <= b
    ensures k * a <= k * b
  {
  }
}
