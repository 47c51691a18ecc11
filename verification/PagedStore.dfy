/** The paged KV store on values: where a row lives in the flat pool, what a
    write does to free list, block table and rows, and why caches that share a
    pool cannot see each other. */
module PagedStore {
  import opened Numeric
  import opened Layout

  /** One stored row: key or value, of one layer, at one offset in one block. */
  datatype Slot = Slot(block: nat, value: bool, layer: nat, off: nat)

  type Rows = imap<Slot, Row>

  datatype Geometry = Geometry(numBlocks: nat, blockSize: nat, numLayers: nat, numKvHeads: nat, headDim: nat) {
    predicate Valid() {
      numBlocks > 0 && blockSize > 0 && numLayers > 0 && numKvHeads > 0 && headDim > 0
    }

    function PerToken(): nat { numKvHeads * headDim }

    function PerLayerPerBlock(): nat { blockSize * PerToken() }

    function PerBlock(): nat { 2 * numLayers * PerLayerPerBlock() }

    function PoolSize(): nat { numBlocks * PerBlock() }

    /** Element offset of layer `layer` of a block's keys, then of its values. */
    function KeyBase(block: nat, layer: nat): nat {
      block * PerBlock() + layer * PerLayerPerBlock()
    }

    function ValueBase(block: nat, layer: nat): nat {
      block * PerBlock() + (numLayers + layer) * PerLayerPerBlock()
    }

    function Offset(s: Slot): nat {
      (if s.value then ValueBase(s.block, s.layer) else KeyBase(s.block, s.layer)) + s.off * PerToken()
    }

    ghost predicate Has(s: Slot) {
      s.block < numBlocks && s.layer < numLayers && s.off < blockSize
    }

    /** The pool seen as rows of one token each. */
    ghost function RowCount(): nat { numBlocks * (2 * numLayers) * blockSize }

    ghost function Lane(s: Slot): nat { if s.value then numLayers + s.layer else s.layer }

    ghost function RowIndex(s: Slot): nat {
      (s.block * (2 * numLayers) + Lane(s)) * blockSize + s.off
    }
  }

  lemma Factor(b: nat, lane: nat, off: nat, lanes: nat, size: nat, d: nat)
    ensures b * (lanes * (size * d)) + lane * (size * d) + off * d == ((b * lanes + lane) * size + off) * d
  {
    calc {
      ((b * lanes + lane) * size + off) * d;
      (b * lanes + lane) * size * d + off * d;
      { assert (b * lanes + lane) * size * d == (b * lanes + lane) * (size * d); }
      (b * lanes + lane) * (size * d) + off * d;
      { assert (b * lanes + lane) * (size * d) == b * lanes * (size * d) + lane * (size * d); }
      b * lanes * (size * d) + lane * (size * d) + off * d;
      { assert b * lanes * (size * d) == b * (lanes * (size * d)); }
      b * (lanes * (size * d)) + lane * (size * d) + off * d;
    }
  }

  /** The offset the code computes is row-major in the row index, and in bounds. */
  lemma OffsetIsRowMajor(g: Geometry, s: Slot)
    requires g.Valid() && g.Has(s)
    ensures g.Offset(s) == g.RowIndex(s) * g.PerToken()
    ensures g.RowIndex(s) < g.RowCount()
    ensures g.PoolSize() == g.RowCount() * g.PerToken()
    ensures g.Offset(s) + g.PerToken() <= g.PoolSize()
  {
    var lanes, size, d := 2 * g.numLayers, g.blockSize, g.PerToken();
    Factor(s.block, g.Lane(s), s.off, lanes, size, d);
    Factor(g.numBlocks, 0, 0, lanes, size, d);
    DigitsBound(s.block, g.Lane(s), g.numBlocks, lanes);
    DigitsBound(s.block * lanes + g.Lane(s), s.off, g.numBlocks * lanes, size);
    RowFits(g.RowIndex(s), g.RowCount(), d);
  }

  /** Two different slots occupy disjoint stretches of the pool. */
  lemma SlotsDisjoint(g: Geometry, s: Slot, t: Slot)
    requires g.Valid() && g.Has(s) && g.Has(t) && s != t
    ensures g.RowIndex(s) != g.RowIndex(t)
    ensures g.Offset(s) + g.PerToken() <= g.Offset(t) || g.Offset(t) + g.PerToken() <= g.Offset(s)
  {
    if g.RowIndex(s) == g.RowIndex(t) {
      RowIndexInjective(g, s, t);
    }
    OffsetIsRowMajor(g, s);
    OffsetIsRowMajor(g, t);
    RowsApart(g.RowIndex(s), g.RowIndex(t), g.PerToken());
  }

  lemma RowsApart(r: nat, q: nat, d: nat)
    requires r != q
    ensures r * d + d <= q * d || q * d + d <= r * d
  {
    if r < q {
      RowFits(r, q, d);
    } else {
      RowFits(q, r, d);
    }
  }

  lemma RowIndexInjective(g: Geometry, s: Slot, t: Slot)
    requires g.Valid() && g.Has(s) && g.Has(t) && g.RowIndex(s) == g.RowIndex(t)
    ensures s == t
  {
    ThreeDigits(s.block, g.Lane(s), s.off, t.block, g.Lane(t), t.off, 2 * g.numLayers, g.blockSize);
  }

  /** The pool elements at a slot. */
  ghost function PoolRow(g: Geometry, pool: seq<Float32>, s: Slot): (r: Row)
    requires g.Valid() && g.Has(s) && |pool| == g.PoolSize()
    ensures |r| == g.PerToken()
  {
    OffsetIsRowMajor(g, s);
    pool[g.Offset(s)..g.Offset(s) + g.PerToken()]
  }

  /** `rows` is the flat pool read slot by slot. */
  ghost predicate Mirrors(g: Geometry, pool: seq<Float32>, rows: Rows) {
    && g.Valid()
    && |pool| == g.PoolSize()
    && (forall s: Slot {:trigger s in rows} :: g.Has(s) <==> s in rows)
    && (forall s: Slot {:trigger PoolRow(g, pool, s)} | g.Has(s) :: PoolRow(g, pool, s) == rows[s])
  }

  /** Copying a row over one slot changes that slot and no other. */
  lemma PutKeepsMirror(g: Geometry, pool: seq<Float32>, rows: Rows, s: Slot, row: Row)
    requires Mirrors(g, pool, rows) && g.Has(s) && |row| == g.PerToken()
    requires g.Offset(s) + |row| <= |pool|
    ensures Mirrors(g, Splice(pool, g.Offset(s), row), rows[s := row])
  {
    forall t: Slot | g.Has(t)
      ensures PoolRow(g, Splice(pool, g.Offset(s), row), t) == if t == s then row else rows[t]
    {
      PutAt(g, pool, s, row, t);
      assert PoolRow(g, pool, t) == rows[t];
    }
  }

  lemma PutAt(g: Geometry, pool: seq<Float32>, s: Slot, row: Row, t: Slot)
    requires g.Valid() && |pool| == g.PoolSize() && g.Has(s) && g.Has(t) && |row| == g.PerToken()
    requires g.Offset(s) + |row| <= |pool|
    ensures PoolRow(g, Splice(pool, g.Offset(s), row), t) == if t == s then row else PoolRow(g, pool, t)
  {
    OffsetIsRowMajor(g, t);
    if t != s {
      SlotsDisjoint(g, s, t);
    }
  }

  // ---- Block tables ----

  datatype Taken = Taken(ok: bool, free: seq<nat>, table: seq<nat>)

  /** What a write at `pos` does to the free list and the table: nothing while the
      table reaches that far, else the head of the free list joins the table, and
      an empty free list makes the write fail. */
  function TakeBlock(free: seq<nat>, table: seq<nat>, pos: nat, blockSize: nat): (t: Taken)
    requires blockSize > 0
    ensures t.ok ==> table <= t.table
    ensures !t.ok ==> t.free == free && t.table == table
    ensures t.ok && pos / blockSize <= |table| ==> pos / blockSize < |t.table|
  {
    if pos / blockSize < |table| then Taken(true, free, table)
    else if |free| == 0 then Taken(false, free, table)
    else Taken(true, free[1..], table + [free[0]])
  }

  function SlotOf(table: seq<nat>, blockSize: nat, layer: nat, pos: nat, value: bool): (s: Slot)
    requires blockSize > 0 && pos / blockSize < |table|
    ensures s.off < blockSize && s.block in table
  {
    Slot(table[pos / blockSize], value, layer, pos % blockSize)
  }

  ghost function StoreToken(rows: Rows, table: seq<nat>, blockSize: nat, layer: nat, pos: nat, k: Row, v: Row): Rows
    requires blockSize > 0 && pos / blockSize < |table|
  {
    rows[SlotOf(table, blockSize, layer, pos, false) := k][SlotOf(table, blockSize, layer, pos, true) := v]
  }

  ghost predicate NoDuplicates(s: seq<nat>) {
    forall i, j | 0 <= i < j < |s| :: s[i] != s[j]
  }

  /** A table of distinct blocks of the pool, none of them free. */
  ghost predicate Owns(g: Geometry, free: seq<nat>, table: seq<nat>) {
    && NoDuplicates(table)
    && NoDuplicates(free)
    && (forall b | b in table :: b < g.numBlocks && b !in free)
    && (forall b | b in free :: b < g.numBlocks)
  }

  /** Rows of every block outside `table` are the same. */
  ghost predicate SameOutside(before: Rows, after: Rows, table: seq<nat>) {
    forall s: Slot | s.block !in table :: (s in before <==> s in after) && (s in before ==> before[s] == after[s])
  }

  lemma SameReflexive(rows: Rows, table: seq<nat>)
    ensures SameOutside(rows, rows, table)
  {
  }

  lemma SameTransitive(a: Rows, b: Rows, c: Rows, t: seq<nat>, t': seq<nat>)
    requires SameOutside(a, b, t) && SameOutside(b, c, t') && t <= t'
    ensures SameOutside(a, c, t')
  {
  }

  lemma TakeKeepsOwned(g: Geometry, free: seq<nat>, table: seq<nat>, pos: nat)
    requires g.Valid() && Owns(g, free, table)
    ensures var t := TakeBlock(free, table, pos, g.blockSize); Owns(g, t.free, t.table)
  {
    var t := TakeBlock(free, table, pos, g.blockSize);
    if |t.table| != |table| {
      assert free == [free[0]] + t.free;
      assert forall b | b in t.free :: b in free;
      assert t.table == table + [free[0]] && free[0] in free;
    }
  }

  lemma ReleaseKeepsOwned(g: Geometry, free: seq<nat>, table: seq<nat>)
    requires Owns(g, free, table)
    ensures Owns(g, free + table, [])
  {
    var all := free + table;
    forall i, j | 0 <= i < j < |all| ensures all[i] != all[j] {
      if i < |free| <= j { assert table[j - |free|] in table; }
    }
  }

  /** The first `count` rows of `buf` are the stored rows of the layer. */
  ghost predicate GatheredFrom(rows: Rows, table: seq<nat>, size: nat, layer: nat, count: nat, buf: seq<Float32>,
      d: nat, value: bool)
    requires size > 0
  {
    forall p: nat | p < count ::
      && p / size < |table|
      && SlotOf(table, size, layer, p, value) in rows
      && RowIs(buf, p, d, rows[SlotOf(table, size, layer, p, value)])
  }

  lemma GatheredNone(rows: Rows, table: seq<nat>, size: nat, layer: nat, kBuf: seq<Float32>, vBuf: seq<Float32>, d: nat)
    requires size > 0
    ensures GatheredFrom(rows, table, size, layer, 0, kBuf, d, false)
    ensures GatheredFrom(rows, table, size, layer, 0, vBuf, d, true)
  {
  }

  lemma GatheredInside(rows: Rows, table: seq<nat>, size: nat, layer: nat, count: nat, buf: seq<Float32>, d: nat)
    requires size > 0 && GatheredFrom(rows, table, size, layer, count, buf, d, false)
    ensures forall p: nat | p < count :: p / size < |table|
  {
  }

  lemma ExtendGathered(rows: Rows, table: seq<nat>, size: nat, layer: nat, p: nat, count: nat, buf: seq<Float32>,
      d: nat, value: bool, row: Row)
    requires size > 0 && p < count && count * d <= |buf| && |row| == d
    requires p / size < |table|
    requires SlotOf(table, size, layer, p, value) in rows && rows[SlotOf(table, size, layer, p, value)] == row
    requires GatheredFrom(rows, table, size, layer, p, buf, d, value)
    ensures p * d + d <= |buf|
    ensures GatheredFrom(rows, table, size, layer, p + 1, Splice(buf, p * d, row), d, value)
  {
    RowFits(p, count, d);
    forall q: nat | q < p + 1
      ensures q / size < |table| && SlotOf(table, size, layer, q, value) in rows
      ensures RowIs(Splice(buf, p * d, row), q, d, rows[SlotOf(table, size, layer, q, value)])
    {
      SpliceIs(buf, count, d, p, row, q, rows[SlotOf(table, size, layer, q, value)]);
    }
  }

  /** One step of a gather: the row at the computed pool offset is the stored row. */
  lemma GatherOne(g: Geometry, pool: seq<Float32>, rows: Rows, table: seq<nat>, layer: nat, p: nat, value: bool)
    requires Mirrors(g, pool, rows) && layer < g.numLayers
    requires p / g.blockSize < |table| && forall b | b in table :: b < g.numBlocks
    ensures
      var s := SlotOf(table, g.blockSize, layer, p, value);
      && g.Offset(s) + g.PerToken() <= |pool|
      && s in rows && pool[g.Offset(s)..g.Offset(s) + g.PerToken()] == rows[s]
  {
    var s := SlotOf(table, g.blockSize, layer, p, value);
    OffsetIsRowMajor(g, s);
    assert PoolRow(g, pool, s) == rows[s];
  }

  lemma BlockInTable(p: nat, size: nat, blocks: nat)
    requires size > 0
    ensures p / size < blocks <==> p < blocks * size
  {
    assert p == p / size * size + p % size;
    if p / size < blocks {
      RowFits(p / size, blocks, size);
    } else {
      RowFits(blocks, p / size + 1, size);
    }
  }

  /** Distinct positions of one sequence never share a slot. */
  lemma SlotOfInjective(table: seq<nat>, blockSize: nat, l: nat, p: nat, v: bool, l': nat, p': nat, v': bool)
    requires blockSize > 0 && p / blockSize < |table| && p' / blockSize < |table| && NoDuplicates(table)
    requires SlotOf(table, blockSize, l, p, v) == SlotOf(table, blockSize, l', p', v')
    ensures l == l' && p == p' && v == v'
  {
    assert p / blockSize == p' / blockSize;
    assert p == p / blockSize * blockSize + p % blockSize;
    assert p' == p' / blockSize * blockSize + p' % blockSize;
  }
}
