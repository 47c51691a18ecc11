/** The engine's forward passes over its shared scratch. */
module EngineCore {
  import opened Numeric
  import opened Layout
  import opened Meaning
  import opened PagedStore
  import opened PagedKv
  import opened KvCache
  import opened Recall
  import opened BatchStore

  datatype Storage = StoreF32 | StoreF16 | StoreI8

  /** FP32 weights keep FP32 rows; the other modes narrow the contiguous cache. */
  function KvDtype(s: Storage): Dtype {
    if s == StoreF32 then F32 else F16
  }

  /** Greedy sampling: the scan that keeps the first champion. */
  method Argmax(m: Model, logits: Row) returns (best: nat)
    requires |logits| > 0
    ensures best < |logits| && best == Champion(m.gt, logits)
  {
    best := 0;
    var top := logits[0];
    var i := 1;
    while i < |logits|
      invariant 1 <= i <= |logits|
      invariant best == Champion(m.gt, logits[..i]) && top == logits[best]
    {
      assert logits[..i + 1][..i] == logits[..i];
      if m.gt(logits[i], top) { top, best := logits[i], i; }
      i := i + 1;
    }
    assert logits[..|logits|] == logits;
  }

  /** A contiguous cache built for this model. */
  ghost predicate Fits(m: Model, kv: ContiguousKVCache) {
    kv.numLayers == m.layers && kv.perToken == m.kvDim && kv.casts == m.casts
  }

  ghost predicate Recalls(m: Model, kv: ContiguousKVCache, ts: seq<int>, l: nat)
    reads kv
  {
    Holds(m, kv.dtype, kv.kRows, kv.vRows, ts, l)
  }

  /** A pool built for this model. */
  ghost predicate PoolFits(m: Model, g: Geometry) {
    g.Valid() && g.numLayers == m.layers && g.PerToken() == m.kvDim
  }

  /** A paged cache that holds `ts` and owns exactly the blocks that takes. */
  ghost predicate Paged(m: Model, kv: PagedKVCache, ts: seq<int>)
    reads kv, kv.Footprint()
  {
    && kv.mgr != null && kv.Valid() && PoolFits(m, kv.mgr.geo)
    && |kv.table| == CeilDiv(|ts|, kv.mgr.geo.blockSize)
    && PagedHolds(m, kv.mgr.rows, kv.table, kv.mgr.geo.blockSize, ts, m.layers)
  }

  /** The batch buffers, one row per sequence: hidden, query, key, value, attention
      output, projected output and feed-forward rows. */
  datatype Scratch = Scratch(h: seq<Row>, q: seq<Row>, k: seq<Row>, v: seq<Row>, attn: seq<Row>, o: seq<Row>,
      f: seq<Row>) {
    ghost predicate Room(count: nat) {
      |h| >= count && |q| >= count && |k| >= count && |v| >= count && |attn| >= count && |o| >= count && |f| >= count
    }

    /** Row `j` is projected from its hidden row. */
    ghost predicate Projected(m: Model, j: nat, l: nat) {
      && j < |h| && j < |q| && j < |k| && j < |v|
      && q[j] == m.qProj(l, h[j]) && k[j] == m.kProj(l, h[j]) && v[j] == m.vProj(l, h[j])
    }

    ghost predicate Attended(m: Model, j: nat, l: nat, ts: seq<int>)
      requires |ts| > 0
    {
      && j < |attn|
      && attn[j] == m.attend(m.rope(|ts| - 1, m.qProj(l, Hidden(m, F32, ts, l))), Keys(m, F32, ts, l),
        Values(m, F32, ts, l))
    }

    /** The hidden rows of the live sequences on entry to layer `l`. */
    ghost predicate HiddenAt(m: Model, ts: seq<seq<int>>, alive: seq<bool>, l: nat)
      requires |ts| == |alive| && forall j | 0 <= j < |ts| :: |ts[j]| > 0
    {
      |h| >= |ts| && forall j | 0 <= j < |ts| && alive[j] :: h[j] == Hidden(m, F32, ts[j], l)
    }

    /** Inside layer `l`, attention done for the first `n` rows. */
    ghost predicate At(m: Model, ts: seq<seq<int>>, alive: seq<bool>, l: nat, n: nat)
      requires |ts| == |alive| && forall j | 0 <= j < |ts| :: |ts[j]| > 0
    {
      && Room(|ts|) && HiddenAt(m, ts, alive, l)
      && (forall j | n <= j < |ts| && alive[j] :: Projected(m, j, l))
      && (forall j | 0 <= j < n && j < |ts| && alive[j] :: Attended(m, j, l, ts[j]))
    }

    /** Every batch row but `i` is as it was. */
    ghost predicate OthersSame(before: Scratch, i: nat) {
      && |h| == |before.h| && |q| == |before.q| && |k| == |before.k| && v == before.v && |attn| == |before.attn|
      && o == before.o && f == before.f
      && (forall j | 0 <= j < |h| && j != i :: h[j] == before.h[j])
      && (forall j | 0 <= j < |q| && j != i :: q[j] == before.q[j])
      && (forall j | 0 <= j < |k| && j != i :: k[j] == before.k[j])
      && (forall j | 0 <= j < |attn| && j != i :: attn[j] == before.attn[j])
    }
  }

  lemma EmbeddedRows(m: Model, s: Scratch, ts: seq<seq<int>>, tokens: seq<int>, alive: seq<bool>)
    requires |ts| == |alive| == |tokens| <= |s.h|
    requires forall j | 0 <= j < |ts| :: |ts[j]| > 0 && ts[j][|ts[j]| - 1] == tokens[j] && s.h[j] == m.embed(tokens[j])
    ensures s.HiddenAt(m, ts, alive, 0)
  {
  }

  lemma ScratchTurn(m: Model, before: Scratch, s: Scratch, ts: seq<seq<int>>, alive: seq<bool>, l: nat, i: nat,
      ok: bool)
    requires |ts| == |alive| && i < |ts| && forall j | 0 <= j < |ts| :: |ts[j]| > 0
    requires before.At(m, ts, alive, l, i) && alive[i]
    requires s.OthersSame(before, i)
    requires ok ==> s.h[i] == before.h[i] && s.Attended(m, i, l, ts[i])
    ensures s.At(m, ts, alive[i := ok], l, i + 1)
  {
    hide Hidden, Keys, Values;
  }

  lemma ScratchSkip(m: Model, s: Scratch, ts: seq<seq<int>>, alive: seq<bool>, l: nat, i: nat)
    requires |ts| == |alive| && i < |ts| && forall j | 0 <= j < |ts| :: |ts[j]| > 0
    requires s.At(m, ts, alive, l, i) && !alive[i]
    ensures s.At(m, ts, alive, l, i + 1)
  {
    hide Hidden, Keys, Values;
  }

  /** The two gather buffers.  They grow together, so one size speaks for both. */
  datatype Buffers = Buffers(k: seq<Float32>, v: seq<Float32>)
  type GatherScratch = g: Buffers | |g.k| == |g.v| witness Buffers([], [])

  class Engine {
    const m: Model
    const storage: Storage

    // Single-row scratch, overwritten layer by layer.
    var h: Row
    var qBuf: Row
    var kBuf: Row
    var vBuf: Row
    var attnOut: Row

    // Gather scratch: flat, grown on demand, never shrunk.
    var gather: GatherScratch

    // Batch scratch: one row per sequence, grown on demand; rows past the batch and
    // rows of dead sequences hold leftovers.
    var b: Scratch

    constructor (m: Model, storage: Storage)
      ensures this.m == m && this.storage == storage
    {
      this.m, this.storage := m, storage;
      b := Scratch([], [], [], [], [], [], []);
      h, qBuf, kBuf, vBuf, attnOut := [], [], [], [], [];
      gather := Buffers([], []);
    }

    /** What a layer computes from the right hidden row, the right keys and the right
        values is what the meaning says. */
    lemma LayerMeans(dt: Dtype, ts: seq<int>, l: nat, h: Row)
      requires |ts| > 0 && h == Hidden(m, dt, ts, l)
      ensures m.rope(|ts| - 1, m.kProj(l, h)) == KeyRow(m, dt, ts, l) && m.vProj(l, h) == ValueRow(m, dt, ts, l)
      ensures Hidden(m, dt, ts, l + 1)
           == EndLayer(m, l, h, m.attend(m.rope(|ts| - 1, m.qProj(l, h)), Keys(m, dt, ts, l), Values(m, dt, ts, l)))
    {
      hide Keys, Values, EndLayer;
    }

    /** One token through every layer, over a contiguous cache that holds `ts`. */
    method ForwardStep(token: int, pos: nat, kv: ContiguousKVCache, wantLogits: bool, ghost ts: seq<int>)
      returns (logits: Row)
      requires m.Valid() && kv.Valid() && Fits(m, kv) && pos < kv.maxSeqLen
      requires |ts| == pos && Recalls(m, kv, ts, m.layers)
      modifies this, kv, kv.kCells, kv.vCells
      ensures kv.Valid() && Recalls(m, kv, ts + [token], m.layers)
      ensures wantLogits ==> logits == Logits(m, kv.dtype, ts + [token])
    {
      ghost var ts' := ts + [token];
      HoldsNext(m, kv.dtype, kv.kRows, kv.vRows, ts, token);
      h := m.embed(token);
      var l := 0;
      while l < m.layers
        invariant 0 <= l <= m.layers
        invariant kv.Valid() && Recalls(m, kv, ts', l)
        invariant h == Hidden(m, kv.dtype, ts', l)
      {
        ForwardLayer(l, pos, kv, ts');
        l := l + 1;
      }
      logits := if wantLogits then m.head(h) else [];
    }

    method ForwardLayer(l: nat, pos: nat, kv: ContiguousKVCache, ghost ts: seq<int>)
      requires m.Valid() && kv.Valid() && Fits(m, kv) && pos < kv.maxSeqLen && l < m.layers
      requires |ts| == pos + 1 && Recalls(m, kv, ts, l)
      requires h == Hidden(m, kv.dtype, ts, l)
      modifies this, kv, kv.kCells, kv.vCells
      ensures kv.Valid() && Recalls(m, kv, ts, l + 1)
      ensures h == Hidden(m, kv.dtype, ts, l + 1)
    {
      hide KvCache.Mirrors, Holds, Hidden, Keys, Values, KeyRow, ValueRow, EndLayer;
      LayerMeans(kv.dtype, ts, l, h);
      qBuf := m.rope(pos, m.qProj(l, h));
      kBuf := m.rope(pos, m.kProj(l, h));
      vBuf := m.vProj(l, h);
      var w := kv.Write(l, pos, kBuf, vBuf);
      HoldsLayer(m, kv.dtype, old(kv.kRows), old(kv.vRows), kv.kRows, kv.vRows, ts, l);
      var ks, vs := ReadLayer(l, pos, kv);
      HoldsFeeds(m, kv.dtype, kv.kRows, kv.vRows, ts, l, ks, vs);
      attnOut := m.attend(qBuf, ks, vs);
      h := EndLayer(m, l, h, attnOut);
    }

    /** A layer's history for attention: in place from a single-precision cache, widened
        into the gather scratch from a half-precision one. */
    method ReadLayer(l: nat, pos: nat, kv: ContiguousKVCache) returns (ks: seq<Row>, vs: seq<Row>)
      requires kv.Valid() && Fits(m, kv) && pos < kv.maxSeqLen && l < m.layers
      modifies this`gather
      ensures kv.IsLayer(l, pos + 1, ks, vs)
    {
      if kv.dtype == F32 {
        var read := kv.LayerF32(l, pos + 1);
        ks, vs := read.value.0, read.value.1;
      } else {
        EnsurePagedScratch(pos + 1);
        var read, kFlat, vFlat := kv.GatherLayer(l, pos + 1, gather.k, gather.v);
        gather := Buffers(kFlat, vFlat);
        ks, vs := RowsOf(kFlat, pos + 1, m.kvDim), RowsOf(vFlat, pos + 1, m.kvDim);
      }
    }

    /** Grows the gather buffers to `count` rows; what was in them is forgotten. */
    method EnsurePagedScratch(count: nat)
      modifies this`gather
      ensures count * m.kvDim <= |gather.k|
    {
      if |gather.k| < count * m.kvDim {
        gather := Buffers(seq(count * m.kvDim, _ => 0), seq(count * m.kvDim, _ => 0));
      }
    }

    /** The public entry checks the token before it touches anything. */
    method ForwardStepPaged(token: int, pos: nat, kv: PagedKVCache, wantLogits: bool, ghost ts: seq<int>)
      returns (r: Result<bool>, logits: Row)
      requires m.Valid() && |ts| == pos && Paged(m, kv, ts)
      modifies this, kv.Footprint()
      ensures kv.mgr == old(kv.mgr)
      ensures r == Failure(InvalidArgument) <==> !(0 <= token < m.vocab)
      ensures r.Failure? ==>
        && r.error == InvalidArgument && kv.mgr.Valid()
        && kv.table == old(kv.table) && kv.mgr.freeList == old(kv.mgr.freeList) && kv.mgr.rows == old(kv.mgr.rows)
      ensures r.Success? ==> Stepped(m, kv, ts, token, r.value, old(kv.mgr.freeList), old(kv.table), old(kv.mgr.rows))
      ensures r == Success(true) && wantLogits ==> logits == Logits(m, F32, ts + [token])
    {
      if token < 0 || token >= m.vocab { return Failure(InvalidArgument), []; }
      var ok;
      ok, logits := ForwardStepPagedLocked(token, pos, kv, wantLogits, ts);
      r := Success(ok);
    }

    /** One token through every layer, over a paged cache that holds `ts`.  The only
        way to fail is at layer 0, with every table, free list and row as before. */
    method ForwardStepPagedLocked(token: int, pos: nat, kv: PagedKVCache, wantLogits: bool, ghost ts: seq<int>)
      returns (ok: bool, logits: Row)
      requires m.Valid() && |ts| == pos && Paged(m, kv, ts)
      modifies this, kv.Footprint()
      ensures kv.mgr == old(kv.mgr)
      ensures Stepped(m, kv, ts, token, ok, old(kv.mgr.freeList), old(kv.table), old(kv.mgr.rows))
      ensures ok && wantLogits ==> logits == Logits(m, F32, ts + [token])
    {
      hide PagedStore.Mirrors, Holds, View, NoDuplicates, Owns, CeilDiv, SameOutside, Geometry.PerToken, KeyRow,
        ValueRow, Keys, Values;
      ghost var ts' := ts + [token];
      ghost var size := kv.mgr.geo.blockSize;
      TableGrows(|ts|, size, kv.mgr.freeList, kv.table);
      EnsurePagedScratch(pos + 1);
      h := m.embed(token);
      HoldsNext(m, F32, View(kv.mgr.rows, kv.table, size, false), View(kv.mgr.rows, kv.table, size, true), ts, token);
      SameReflexive(kv.mgr.rows, kv.table);
      var l := 0;
      while l < m.layers
        invariant 0 <= l <= m.layers
        invariant kv.mgr == old(kv.mgr) && kv.mgr != null && kv.Valid()
        invariant l == 0 ==>
          kv.table == old(kv.table) && kv.mgr.freeList == old(kv.mgr.freeList) && kv.mgr.rows == old(kv.mgr.rows)
        invariant l > 0 ==>
          Taken(true, kv.mgr.freeList, kv.table) == TakeBlock(old(kv.mgr.freeList), old(kv.table), pos, size)
        invariant SameOutside(old(kv.mgr.rows), kv.mgr.rows, kv.table)
        invariant PagedHolds(m, kv.mgr.rows, kv.table, size, ts', l)
        invariant h == Hidden(m, F32, ts', l)
        invariant (pos + 1) * m.kvDim <= |gather.k|
      {
        ghost var before, held := kv.mgr.rows, kv.table;
        var wrote := PagedLayer(l, pos, kv, ts');
        SameTransitive(old(kv.mgr.rows), before, kv.mgr.rows, held, kv.table);
        if !wrote { return false, []; }
        l := l + 1;
      }
      ok := true;
      logits := if wantLogits then m.head(h) else [];
    }

    method PagedLayer(l: nat, pos: nat, kv: PagedKVCache, ghost ts: seq<int>) returns (ok: bool)
      requires m.Valid() && |ts| == pos + 1 && l < m.layers
      requires kv.mgr != null && kv.Valid() && PoolFits(m, kv.mgr.geo)
      requires pos / kv.mgr.geo.blockSize <= |kv.table|
      requires PagedHolds(m, kv.mgr.rows, kv.table, kv.mgr.geo.blockSize, ts, l)
      requires h == Hidden(m, F32, ts, l)
      requires (pos + 1) * m.kvDim <= |gather.k|
      modifies this, kv.Footprint()
      ensures kv.mgr == old(kv.mgr) && kv.Valid()
      ensures Taken(ok, kv.mgr.freeList, kv.table)
        == TakeBlock(old(kv.mgr.freeList), old(kv.table), pos, kv.mgr.geo.blockSize)
      ensures SameOutside(old(kv.mgr.rows), kv.mgr.rows, kv.table)
      ensures !ok ==> kv.mgr.rows == old(kv.mgr.rows)
      ensures ok ==> PagedHolds(m, kv.mgr.rows, kv.table, kv.mgr.geo.blockSize, ts, l + 1)
      ensures ok ==> h == Hidden(m, F32, ts, l + 1)
      ensures |gather.k| == old(|gather.k|)
    {
      hide PagedStore.Mirrors, Holds, View, Keys, Values, TakeBlock, NoDuplicates, Owns, CeilDiv, Geometry.PerToken,
        Hidden, KeyRow, ValueRow, EndLayer;
      LayerMeans(F32, ts, l, h);
      qBuf := m.rope(pos, m.qProj(l, h));
      kBuf := m.rope(pos, m.kProj(l, h));
      vBuf := m.vProj(l, h);
      ok := WriteToken(m, l, pos, kv, kBuf, vBuf, ts);
      if !ok { return; }
      var kFlat, vFlat;
      kFlat, vFlat, attnOut := GatherAttend(m, l, pos, kv, qBuf, gather.k, gather.v, ts);
      gather := Buffers(kFlat, vFlat);
      h := EndLayer(m, l, h, attnOut);
    }

    method EnsureBatchScratch(count: nat)
      modifies this`b
      ensures b.Room(count)
    {
      b := Scratch(Grow(b.h, count), Grow(b.q, count), Grow(b.k, count), Grow(b.v, count),
                   Grow(b.attn, count), Grow(b.o, count), Grow(b.f, count));
    }

    /** One decode step for a batch of sequences.  A bad token is refused before
        anything changes. */
    method ForwardDecodeBatch(mgr: BlockManager, tokens: seq<int>, positions: seq<nat>, kvs: seq<PagedKVCache>,
        ghost hist: seq<seq<int>>, ghost tables: seq<seq<nat>>)
      returns (r: Result<seq<bool>>, logits: seq<Row>)
      requires m.Valid() && |tokens| == |positions| == |kvs| == |hist|
      requires BatchReady(m, mgr, kvs, tables, hist, positions)
      modifies this, mgr, mgr.pool, kvs
      ensures r == Failure(InvalidArgument) <==> exists t | t in tokens :: !(0 <= t < m.vocab)
      ensures r.Failure? ==>
        r.error == InvalidArgument && Linked(mgr, kvs, tables) && mgr.Valid()
        && mgr.freeList == old(mgr.freeList) && mgr.rows == old(mgr.rows)
      ensures r.Success? ==>
        BatchStepped(m, mgr, kvs, old(mgr.freeList), tables, old(mgr.rows), hist, tokens, positions, r.value, logits)
    {
      var count := |tokens|;
      if count == 0 { return Success([]), []; }
      var i := 0;
      while i < count
        invariant 0 <= i <= count
        invariant forall j | 0 <= j < i :: 0 <= tokens[j] < m.vocab
      {
        if tokens[i] < 0 || tokens[i] >= m.vocab {
          assert tokens[i] in tokens;
          return Failure(InvalidArgument), [];
        }
        i := i + 1;
      }
      var alive;
      alive, logits := DecodeLayers(mgr, tokens, positions, kvs, hist, tables);
      r := Success(alive);
    }

    method DecodeLayers(mgr: BlockManager, tokens: seq<int>, positions: seq<nat>, kvs: seq<PagedKVCache>,
        ghost hist: seq<seq<int>>, ghost tables: seq<seq<nat>>)
      returns (alive: seq<bool>, logits: seq<Row>)
      requires m.Valid() && |tokens| == |positions| == |kvs| == |hist|
      requires BatchReady(m, mgr, kvs, tables, hist, positions)
      modifies this, mgr, mgr.pool, kvs
      ensures BatchStepped(m, mgr, kvs, old(mgr.freeList), tables, old(mgr.rows), hist, tokens, positions, alive,
        logits)
    {
      hide BatchTake, SameOutsideAll, Written, Hidden, PagedHolds, Disjoint, PagedStore.Mirrors, CeilDiv,
        Geometry.PerToken, BatchReady, LayerReady, BatchStepped, Linked;
      var count := |tokens|;
      ghost var size := mgr.geo.blockSize;
      ghost var ts := Extended(hist, tokens);
      alive := AllAlive(count);
      BatchBegins(m, mgr, kvs, tables, hist, positions, tokens);
      WrittenNone(mgr.rows, tables, alive);
      var longest := Longest(positions);
      EnsurePagedScratch(longest);
      EmbedAll(tokens);
      EmbeddedRows(m, b, ts, tokens, alive);
      ghost var tbl := tables;
      ghost var start := Batch(mgr.freeList, tables, alive);
      ghost var taken := BatchTake(start, positions, size, count);
      var l := 0;
      while l < m.layers
        invariant 0 <= l <= m.layers && b.Room(count) && GatherRoom(longest)
        invariant LayerReady(m, mgr, kvs, tbl, positions, ts, alive, l)
        invariant Batch(mgr.freeList, tbl, alive) == if l == 0 then start else taken
        invariant |alive| == count && b.HiddenAt(m, ts, alive, l)
        invariant SameOutsideAll(old(mgr.rows), mgr.rows, Written(tbl, alive, if l == 0 then 0 else count))
      {
        if l > 0 { LayerTakesNothing(m, mgr, kvs, tbl, positions, ts, alive, l); }
        alive, tbl := DecodeLayer(mgr, l, positions, longest, kvs, alive, tbl, ts, old(mgr.rows));
        l := l + 1;
      }
      logits := ProjectRows(m.head, b.h, seq(count, _ => []), count);
      BatchEnds(m, mgr, kvs, old(mgr.freeList), tables, tbl, old(mgr.rows), hist, tokens, positions, alive, logits);
    }

    method EmbedAll(tokens: seq<int>)
      modifies this`b
      ensures b.Room(|tokens|)
      ensures forall j | 0 <= j < |tokens| :: b.h[j] == m.embed(tokens[j])
    {
      EnsureBatchScratch(|tokens|);
      var i := 0;
      while i < |tokens|
        invariant 0 <= i <= |tokens| && b.Room(|tokens|)
        invariant forall j | 0 <= j < i :: b.h[j] == m.embed(tokens[j])
      {
        b := b.(h := b.h[i := m.embed(tokens[i])]);
        i := i + 1;
      }
    }

    ghost predicate GatherRoom(longest: nat)
      reads this
    {
      longest * m.kvDim <= |gather.k|
    }

    /** One layer of the batch: the projections run over all rows at once, dead ones
        and their leftovers included; attention runs row by row over the live ones. */
    method DecodeLayer(mgr: BlockManager, l: nat, positions: seq<nat>, longest: nat, kvs: seq<PagedKVCache>,
        aliveIn: seq<bool>, ghost tables: seq<seq<nat>>, ghost ts: seq<seq<int>>, ghost rows: Rows)
      returns (alive: seq<bool>, ghost tbl: seq<seq<nat>>)
      requires m.Valid() && l < m.layers && |positions| == |kvs| == |ts| == |aliveIn|
      requires LayerReady(m, mgr, kvs, tables, positions, ts, aliveIn, l)
      requires b.Room(|kvs|) && GatherRoom(longest) && forall j | 0 <= j < |positions| :: positions[j] < longest
      requires b.HiddenAt(m, ts, aliveIn, l)
      requires SameOutsideAll(rows, mgr.rows, Written(tables, aliveIn, if l == 0 then 0 else |kvs|))
      modifies this, mgr, mgr.pool, kvs
      ensures LayerReady(m, mgr, kvs, tbl, positions, ts, alive, l + 1)
      ensures Batch(mgr.freeList, tbl, alive)
        == BatchTake(Batch(old(mgr.freeList), tables, aliveIn), positions, mgr.geo.blockSize, |kvs|)
      ensures b.Room(|kvs|) && GatherRoom(longest)
      ensures |alive| == |kvs| && b.HiddenAt(m, ts, alive, l + 1)
      ensures SameOutsideAll(rows, mgr.rows, Written(tbl, alive, |kvs|))
    {
      hide LayerReady, BatchTake, Keys, Values, SameOutsideAll, Written, KeyRow, ValueRow, PoolFits;
      var count := |kvs|;
      ProjectAll(l, count);
      alive, tbl := AttendRows(mgr, l, positions, longest, kvs, aliveIn, tables, ts, rows);
      FinishRows(l, count);
    }

    method ProjectAll(l: nat, count: nat)
      requires b.Room(count)
      modifies this`b
      ensures b.Room(count) && b.h == old(b.h)
      ensures forall j | 0 <= j < count :: b.Projected(m, j, l)
    {
      var q := ProjectRows(h => m.qProj(l, h), b.h, b.q, count);
      var k := ProjectRows(h => m.kProj(l, h), b.h, b.k, count);
      var v := ProjectRows(h => m.vProj(l, h), b.h, b.v, count);
      b := b.(q := q, k := k, v := v);
    }

    /** Output projection, residual, feed-forward and residual of every row. */
    method FinishRows(l: nat, count: nat)
      requires b.Room(count)
      modifies this`b
      ensures b.Room(count)
      ensures forall j | 0 <= j < count :: b.h[j] == EndLayer(m, l, old(b.h)[j], old(b.attn)[j])
    {
      var o := ProjectRows(a => m.oProj(l, a), b.attn, b.o, count);
      var mid := AddRows(m, b.h, o, count);
      var f := ProjectRows(h => m.ffn(l, h), mid, b.f, count);
      var h := AddRows(m, mid, f, count);
      b := b.(o := o, f := f, h := h);
    }

    method AttendRows(mgr: BlockManager, l: nat, positions: seq<nat>, longest: nat, kvs: seq<PagedKVCache>,
        aliveIn: seq<bool>, ghost tables: seq<seq<nat>>, ghost ts: seq<seq<int>>, ghost rows: Rows)
      returns (alive: seq<bool>, ghost tbl: seq<seq<nat>>)
      requires m.Valid() && l < m.layers && |positions| == |kvs| == |ts| == |aliveIn|
      requires LayerReady(m, mgr, kvs, tables, positions, ts, aliveIn, l)
      requires GatherRoom(longest) && forall j | 0 <= j < |positions| :: positions[j] < longest
      requires b.At(m, ts, aliveIn, l, 0)
      requires SameOutsideAll(rows, mgr.rows, Written(tables, aliveIn, if l == 0 then 0 else |kvs|))
      modifies this, mgr, mgr.pool, kvs
      ensures LayerReady(m, mgr, kvs, tbl, positions, ts, alive, l + 1)
      ensures Batch(mgr.freeList, tbl, alive)
        == BatchTake(Batch(old(mgr.freeList), tables, aliveIn), positions, mgr.geo.blockSize, |kvs|)
      ensures GatherRoom(longest) && |alive| == |kvs| && b.At(m, ts, alive, l, |kvs|)
      ensures SameOutsideAll(rows, mgr.rows, Written(tbl, alive, |kvs|))
    {
      hide SameOutsideAll, Written, Hidden, SameOutside, Model.Valid, Scratch.At, RowsReady;
      var count := |kvs|;
      ghost var size := mgr.geo.blockSize;
      ghost var start := Batch(mgr.freeList, tables, aliveIn);
      ReadyFacts(m, mgr, kvs, tables, positions, ts, aliveIn, l, 0);
      alive, tbl := aliveIn, tables;
      var i := 0;
      while i < count
        invariant 0 <= i <= count == |alive| == |tbl| && GatherRoom(longest)
        invariant RowsReady(m, mgr, kvs, tbl, positions, ts, alive, l, i)
        invariant Batch(mgr.freeList, tbl, alive) == BatchTake(start, positions, size, i)
        invariant b.At(m, ts, alive, l, i)
        invariant SameOutsideAll(rows, mgr.rows, Written(tbl, alive, if l == 0 then i else count))
      {
        if alive[i] {
          ghost var before := mgr.rows;
          ghost var t := TakeBlock(mgr.freeList, tbl[i], positions[i], size);
          var ok := AttendOneOf(mgr, l, i, positions, longest, kvs, tbl, ts, alive);
          WrittenStep(rows, before, mgr.rows, tbl, alive, i, if l == 0 then i else count, t.table, ok);
          alive := alive[i := ok];
          tbl := tbl[i := t.table];
        } else {
          ScratchSkip(m, b, ts, alive, l, i);
          SkipDead(m, mgr, kvs, tbl, positions, ts, alive, l, i);
          WrittenDead(tbl, alive, i, if l == 0 then i else count);
        }
        i := i + 1;
      }
      LayerDone(m, mgr, kvs, start, tables, tbl, positions, ts, aliveIn, alive, l);
    }

    /** A live row's turn, as the whole batch sees it. */
    method AttendOneOf(mgr: BlockManager, l: nat, i: nat, positions: seq<nat>, longest: nat, kvs: seq<PagedKVCache>,
        ghost tables: seq<seq<nat>>, ghost ts: seq<seq<int>>, ghost alive: seq<bool>) returns (ok: bool)
      requires m.Valid() && l < m.layers && i < |kvs| == |positions|
      requires RowsReady(m, mgr, kvs, tables, positions, ts, alive, l, i) && alive[i]
      requires GatherRoom(longest) && positions[i] < longest && b.At(m, ts, alive, l, i)
      modifies this, mgr, mgr.pool, kvs[i]
      ensures var t := TakeBlock(old(mgr.freeList), tables[i], positions[i], mgr.geo.blockSize);
        && ok == t.ok && mgr.freeList == t.free
        && RowsReady(m, mgr, kvs, tables[i := t.table], positions, ts, alive[i := ok], l, i + 1)
        && SameOutside(old(mgr.rows), mgr.rows, t.table)
      ensures !ok ==> l == 0 && mgr.rows == old(mgr.rows)
      ensures GatherRoom(longest) && b.At(m, ts, alive[i := ok], l, i + 1)
    {
      hide SameOutside, KeyRow, ValueRow, Keys, Values, Hidden, PagedStore.Mirrors, PagedHolds, Geometry.PerToken,
        Model.Valid, Covered, Near, BatchState;
      TurnKeepsCover(tables, positions, mgr.geo.blockSize, alive, i, mgr.freeList, l);
      ghost var free, before, size, scratch := mgr.freeList, mgr.rows, mgr.geo.blockSize, b;
      ghost var t := TakeBlock(free, tables[i], positions[i], size);
      RowTakes(mgr.geo, free, tables, i, positions[i]);
      BatchRowState(m, mgr.rows, tables, size, ts, alive, l, i, i);
      ok := AttendRow(mgr, l, i, positions[i], longest, kvs[i], ts[i]);
      BatchRow(m, before, mgr.rows, tables, t.table, size, ts, alive, ok, l, i);
      ScratchTurn(m, scratch, b, ts, alive, l, i, ok);
    }

    /** Rotation, KV write, gather and attention of one live row; if the pool is
        exhausted the row's hidden state is zeroed instead. */
    method AttendRow(mgr: BlockManager, l: nat, i: nat, pos: nat, longest: nat, kv: PagedKVCache, ghost ts: seq<int>)
      returns (ok: bool)
      requires m.Valid() && l < m.layers && |ts| == pos + 1 && pos < longest && GatherRoom(longest)
      requires kv.mgr == mgr && kv.Valid() && PoolFits(m, mgr.geo)
      requires pos / mgr.geo.blockSize <= |kv.table|
      requires PagedHolds(m, mgr.rows, kv.table, mgr.geo.blockSize, ts, l)
      requires i < |b.attn| && b.Projected(m, i, l) && b.h[i] == Hidden(m, F32, ts, l)
      modifies this, kv, mgr, mgr.pool
      ensures kv.mgr == mgr && kv.Valid() && mgr.Valid()
      ensures Taken(ok, mgr.freeList, kv.table) == TakeBlock(old(mgr.freeList), old(kv.table), pos, mgr.geo.blockSize)
      ensures SameOutside(old(mgr.rows), mgr.rows, kv.table)
      ensures !ok ==> mgr.rows == old(mgr.rows)
      ensures RowState(m, mgr.rows, kv.table, mgr.geo.blockSize, ts, ok, l + 1)
      ensures b.OthersSame(old(b), i) && GatherRoom(longest)
      ensures ok ==> b.h[i] == old(b.h)[i] && b.Attended(m, i, l, ts)
    {
      hide PagedStore.Mirrors, Holds, View, Keys, Values, TakeBlock, NoDuplicates, Owns, CeilDiv, Geometry.PerToken,
        SameOutside, Hidden, Model.Valid;
      b := b.(q := b.q[i := m.rope(pos, b.q[i])], k := b.k[i := m.rope(pos, b.k[i])]);
      ok := WriteToken(m, l, pos, kv, b.k[i], b.v[i], ts);
      if !ok {
        HoldsPrevious(m, F32, View(mgr.rows, kv.table, mgr.geo.blockSize, false),
          View(mgr.rows, kv.table, mgr.geo.blockSize, true), ts, l);
        b := b.(h := b.h[i := m.zero]);
        return;
      }
      RowFits(pos, longest, m.kvDim);
      var kFlat, vFlat, attended := GatherAttend(m, l, pos, kv, b.q[i], gather.k, gather.v, ts);
      gather := Buffers(kFlat, vFlat);
      b := b.(attn := b.attn[i := attended]);
    }
  }

  /** Writes one token's rows of one layer. */
  method WriteToken(m: Model, l: nat, pos: nat, kv: PagedKVCache, k: Row, v: Row, ghost ts: seq<int>) returns (ok: bool)
    requires m.Valid() && |ts| == pos + 1 && l < m.layers
    requires kv.mgr != null && kv.Valid() && PoolFits(m, kv.mgr.geo)
    requires pos / kv.mgr.geo.blockSize <= |kv.table|
    requires PagedHolds(m, kv.mgr.rows, kv.table, kv.mgr.geo.blockSize, ts, l)
    requires k == KeyRow(m, F32, ts, l) && v == ValueRow(m, F32, ts, l)
    modifies kv.Footprint()
    ensures kv.mgr == old(kv.mgr) && kv.Valid()
    ensures Taken(ok, kv.mgr.freeList, kv.table)
      == TakeBlock(old(kv.mgr.freeList), old(kv.table), pos, kv.mgr.geo.blockSize)
    ensures SameOutside(old(kv.mgr.rows), kv.mgr.rows, kv.table)
    ensures !ok ==> kv.mgr.rows == old(kv.mgr.rows)
    ensures ok ==> pos / kv.mgr.geo.blockSize < |kv.table|
    ensures ok ==> PagedHolds(m, kv.mgr.rows, kv.table, kv.mgr.geo.blockSize, ts, l + 1)
  {
    hide PagedStore.Mirrors, StoreToken, Holds, View, Geometry.PerToken;
    ok := kv.Write(l, pos, k, v);
    if ok {
      StoredHolds(m, old(kv.mgr.rows), old(kv.table), kv.table, kv.mgr.geo.blockSize, ts, pos, l, k, v);
    }
  }

  /** Gathers a layer's history into scratch and attends over it. */
  method GatherAttend(m: Model, l: nat, pos: nat, kv: PagedKVCache, q: Row, kIn: seq<Float32>, vIn: seq<Float32>,
      ghost ts: seq<int>)
    returns (kOut: seq<Float32>, vOut: seq<Float32>, attended: Row)
    requires |ts| == pos + 1 && l < m.layers
    requires kv.mgr != null && kv.Valid() && PoolFits(m, kv.mgr.geo)
    requires pos / kv.mgr.geo.blockSize < |kv.table|
    requires PagedHolds(m, kv.mgr.rows, kv.table, kv.mgr.geo.blockSize, ts, l + 1)
    requires (pos + 1) * m.kvDim <= |kIn| && (pos + 1) * m.kvDim <= |vIn|
    ensures |kOut| == |kIn| && |vOut| == |vIn|
    ensures attended == m.attend(q, Keys(m, F32, ts, l), Values(m, F32, ts, l))
  {
    hide PagedStore.Mirrors, Holds, View, GatheredFrom, NoDuplicates, Geometry.PerToken, Keys, Values;
    var status;
    status, kOut, vOut := kv.Gather(l, pos + 1, kIn, vIn);
    assert status == Gathered by {
      CoversBelow(pos, kv.mgr.geo.blockSize, |kv.table|);
    }
    GatheredFeeds(m, kv.mgr.rows, kv.table, kv.mgr.geo.blockSize, ts, l, kOut, vOut);
    attended := m.attend(q, RowsOf(kOut, pos + 1, m.kvDim), RowsOf(vOut, pos + 1, m.kvDim));
  }

  lemma CoversBelow(pos: nat, size: nat, blocks: nat)
    requires size > 0 && pos / size < blocks
    ensures forall p: nat | p < pos + 1 :: p / size < blocks
  {
    BlockInTable(pos, size, blocks);
    forall p: nat | p < pos + 1 ensures p / size < blocks {
      BlockInTable(p, size, blocks);
    }
  }

  /** A cache that owns no block holds the empty history. */
  lemma EmptyIsPaged(m: Model, kv: PagedKVCache)
    requires kv.mgr != null && kv.mgr.Valid() && kv.table == [] && PoolFits(m, kv.mgr.geo)
    requires Owns(kv.mgr.geo, kv.mgr.freeList, [])
    ensures Paged(m, kv, [])
  {
    Divides(kv.mgr.geo.blockSize - 1, 0, kv.mgr.geo.blockSize - 1, kv.mgr.geo.blockSize);
  }

  /** The outcome of one paged step on free list, table, rows and history. */
  ghost predicate Stepped(m: Model, kv: PagedKVCache, ts: seq<int>, token: int, ok: bool, free: seq<nat>,
      table: seq<nat>, rows: Rows)
    requires kv.mgr != null
    reads kv, kv.Footprint()
  {
    && Paged(m, kv, if ok then ts + [token] else ts)
    && Taken(ok, kv.mgr.freeList, kv.table) == TakeBlock(free, table, |ts|, kv.mgr.geo.blockSize)
    && SameOutside(rows, kv.mgr.rows, kv.table)
    && (!ok ==> kv.mgr.rows == rows)
  }

  /** Writing position `n` keeps the table at one block per `size` positions. */
  lemma TableGrows(n: nat, size: nat, free: seq<nat>, table: seq<nat>)
    requires size > 0 && |table| == CeilDiv(n, size)
    ensures n / size <= |table|
    ensures TakeBlock(free, table, n, size).ok ==> |TakeBlock(free, table, n, size).table| == CeilDiv(n + 1, size)
    ensures TakeBlock(free, table, n, size).ok ==> n / size < |TakeBlock(free, table, n, size).table|
    ensures n / size >= |table| <==> n % size == 0
  {
    var q, r := n / size, n % size;
    assert n == q * size + r;
    Quotient(q, r, size);
  }

  lemma Quotient(q: nat, r: nat, size: nat)
    requires r < size
    ensures CeilDiv(q * size + r, size) == q + if r > 0 then 1 else 0
    ensures CeilDiv(q * size + r + 1, size) == q + 1
  {
    Divides(q * size + r + size - 1, if r > 0 then q + 1 else q, if r > 0 then r - 1 else size - 1, size);
    Divides(q * size + r + size, q + 1, r, size);
  }

  lemma Divides(x: nat, q: nat, r: nat, size: nat)
    requires r < size && x == q * size + r
    ensures x / size == q
  {
    assert x == x / size * size + x % size;
    Digits(x / size, x % size, q, r, size);
  }

  /** A successful write of layer `l` completes that layer of the history. */
  lemma StoredHolds(m: Model, rows: Rows, held: seq<nat>, table: seq<nat>, size: nat, ts: seq<int>, pos: nat, l: nat,
      k: Row, v: Row)
    requires size > 0 && |ts| == pos + 1 && l < m.layers && pos / size < |table|
    requires held <= table && NoDuplicates(table)
    requires PagedHolds(m, rows, held, size, ts, l)
    requires k == KeyRow(m, F32, ts, l) && v == ValueRow(m, F32, ts, l)
    ensures PagedHolds(m, StoreToken(rows, table, size, l, pos, k, v), table, size, ts, l + 1)
    ensures SameOutside(rows, StoreToken(rows, table, size, l, pos, k, v), table)
  {
    hide StoreToken, Holds, View, NoDuplicates, SlotOf;
    var after := StoreToken(rows, table, size, l, pos, k, v);
    StoreIsPrivateWrite(rows, held, table, size, l, pos, k, v);
    StoreTouchesOnly(rows, table, size, l, pos, k, v);
    HoldsLayer(m, F32, View(rows, held, size, false), View(rows, held, size, true),
      View(after, table, size, false), View(after, table, size, true), ts, l);
  }

  /** Gathered buffers, cut into rows, are the meaning's keys and values. */
  lemma GatheredFeeds(m: Model, rows: Rows, table: seq<nat>, size: nat, ts: seq<int>, l: nat, kBuf: seq<Float32>,
      vBuf: seq<Float32>)
    requires size > 0 && |ts| > 0 && l < m.layers
    requires PagedHolds(m, rows, table, size, ts, l + 1)
    requires |ts| * m.kvDim <= |kBuf| && |ts| * m.kvDim <= |vBuf|
    requires GatheredFrom(rows, table, size, l, |ts|, kBuf, m.kvDim, false)
    requires GatheredFrom(rows, table, size, l, |ts|, vBuf, m.kvDim, true)
    ensures RowsOf(kBuf, |ts|, m.kvDim) == Keys(m, F32, ts, l)
    ensures RowsOf(vBuf, |ts|, m.kvDim) == Values(m, F32, ts, l)
  {
    var ks, vs := View(rows, table, size, false), View(rows, table, size, true);
    var ksRead, vsRead := RowsOf(kBuf, |ts|, m.kvDim), RowsOf(vBuf, |ts|, m.kvDim);
    forall p: nat | p < |ts|
      ensures Loc(l, p) in ks && ksRead[p] == ks[Loc(l, p)] && Loc(l, p) in vs && vsRead[p] == vs[Loc(l, p)]
    {
      RowsOfAt(kBuf, |ts|, m.kvDim, p);
      RowsOfAt(vBuf, |ts|, m.kvDim, p);
      assert SlotOf(table, size, l, p, false) in rows && SlotOf(table, size, l, p, true) in rows;
    }
    HoldsFeeds(m, F32, ks, vs, ts, l, ksRead, vsRead);
  }

  // ---- Batched decoding ----

  function Grow(rows: seq<Row>, count: nat): (r: seq<Row>)
    ensures |r| >= count
  {
    if |rows| < count then seq(count, _ => []) else rows
  }

  /** Distinct caches of one pool with the given tables. */
  ghost predicate Linked(mgr: BlockManager, kvs: seq<PagedKVCache>, tables: seq<seq<nat>>)
    reads kvs
  {
    && |kvs| == |tables|
    && (forall i, j | 0 <= i < j < |kvs| :: kvs[i] != kvs[j])
    && (forall i | 0 <= i < |kvs| :: kvs[i].mgr == mgr && kvs[i].table == tables[i])
  }

  /** Every row holds its history and is about to take the next position. */
  ghost predicate BatchReady(m: Model, mgr: BlockManager, kvs: seq<PagedKVCache>, tables: seq<seq<nat>>,
      hist: seq<seq<int>>, positions: seq<nat>)
    reads mgr, mgr.pool, kvs
  {
    && mgr.Valid() && PoolFits(m, mgr.geo)
    && Linked(mgr, kvs, tables) && Disjoint(mgr.geo, mgr.freeList, tables)
    && |hist| == |positions| == |tables|
    && forall i | 0 <= i < |hist| ::
        && |hist[i]| == positions[i] && |tables[i]| == CeilDiv(|hist[i]|, mgr.geo.blockSize)
        && PagedHolds(m, mgr.rows, tables[i], mgr.geo.blockSize, hist[i], m.layers)
  }

  /** `out[i] == f(src[i])` for the batch, the rest of the buffer untouched: a matmul
      with one activation row per sequence. */
  method ProjectRows(f: Row -> Row, src: seq<Row>, dst: seq<Row>, count: nat) returns (out: seq<Row>)
    requires count <= |src| && count <= |dst|
    ensures |out| == |dst|
    ensures forall j | 0 <= j < |dst| :: out[j] == if j < count then f(src[j]) else dst[j]
  {
    out := dst;
    var i := 0;
    while i < count
      invariant 0 <= i <= count && |out| == |dst|
      invariant forall j | 0 <= j < |dst| :: out[j] == if j < i then f(src[j]) else dst[j]
    {
      out := out[i := f(src[i])];
      i := i + 1;
    }
  }

  method AddRows(m: Model, h: seq<Row>, o: seq<Row>, count: nat) returns (out: seq<Row>)
    requires count <= |h| && count <= |o|
    ensures |out| == |h|
    ensures forall j | 0 <= j < |h| :: out[j] == if j < count then m.add(h[j], o[j]) else h[j]
  {
    out := h;
    var i := 0;
    while i < count
      invariant 0 <= i <= count && |out| == |h|
      invariant forall j | 0 <= j < |h| :: out[j] == if j < i then m.add(h[j], o[j]) else h[j]
    {
      out := out[i := m.add(h[i], o[i])];
      i := i + 1;
    }
  }

  method Longest(positions: seq<nat>) returns (longest: nat)
    ensures forall j | 0 <= j < |positions| :: positions[j] < longest
  {
    longest := 0;
    var i := 0;
    while i < |positions|
      invariant 0 <= i <= |positions|
      invariant forall j | 0 <= j < i :: positions[j] < longest
    {
      if positions[i] + 1 > longest { longest := positions[i] + 1; }
      i := i + 1;
    }
  }

  /** The state of a batch between layers. */
  ghost predicate LayerReady(m: Model, mgr: BlockManager, kvs: seq<PagedKVCache>, tables: seq<seq<nat>>,
      positions: seq<nat>, ts: seq<seq<int>>, alive: seq<bool>, l: nat)
    reads mgr, mgr.pool, kvs
  {
    RowsReady(m, mgr, kvs, tables, positions, ts, alive, l, 0)
  }

  /** The state of a batch inside layer `l`, the first `n` rows done. */
  ghost predicate RowsReady(m: Model, mgr: BlockManager, kvs: seq<PagedKVCache>, tables: seq<seq<nat>>,
      positions: seq<nat>, ts: seq<seq<int>>, alive: seq<bool>, l: nat, n: nat)
    reads mgr, mgr.pool, kvs
  {
    && mgr.Valid() && PoolFits(m, mgr.geo)
    && Linked(mgr, kvs, tables) && Disjoint(mgr.geo, mgr.freeList, tables)
    && |tables| == |positions| == |ts| == |alive|
    && (forall j | 0 <= j < |ts| :: |ts[j]| == positions[j] + 1)
    && Near(tables, positions, mgr.geo.blockSize)
    && (l > 0 ==> Covered(tables, positions, mgr.geo.blockSize, alive))
    && BatchState(m, mgr.rows, tables, mgr.geo.blockSize, ts, alive, l, n)
  }

  lemma ReadyFacts(m: Model, mgr: BlockManager, kvs: seq<PagedKVCache>, tables: seq<seq<nat>>, positions: seq<nat>,
      ts: seq<seq<int>>, alive: seq<bool>, l: nat, n: nat)
    requires RowsReady(m, mgr, kvs, tables, positions, ts, alive, l, n)
    ensures |tables| == |positions| == |ts| == |alive| == |kvs| && mgr.geo.blockSize > 0
    ensures Near(tables, positions, mgr.geo.blockSize)
    ensures forall j | 0 <= j < |ts| :: |ts[j]| > 0
  {
    hide BatchState, Disjoint, PagedStore.Mirrors;
  }

  lemma SkipDead(m: Model, mgr: BlockManager, kvs: seq<PagedKVCache>, tables: seq<seq<nat>>, positions: seq<nat>,
      ts: seq<seq<int>>, alive: seq<bool>, l: nat, i: nat)
    requires RowsReady(m, mgr, kvs, tables, positions, ts, alive, l, i) && i < |tables| && !alive[i]
    ensures RowsReady(m, mgr, kvs, tables, positions, ts, alive, l, i + 1)
  {
    BatchDeadRow(m, mgr.rows, tables, mgr.geo.blockSize, ts, alive, l, i);
  }

  lemma LayerDone(m: Model, mgr: BlockManager, kvs: seq<PagedKVCache>, start: Batch, tables: seq<seq<nat>>,
      tbl: seq<seq<nat>>, positions: seq<nat>, ts: seq<seq<int>>, aliveIn: seq<bool>, alive: seq<bool>, l: nat)
    requires RowsReady(m, mgr, kvs, tbl, positions, ts, alive, l, |tbl|)
    requires start.tables == tables && start.alive == aliveIn && |tables| == |aliveIn| == |positions|
    requires Near(tables, positions, mgr.geo.blockSize)
    requires Batch(mgr.freeList, tbl, alive) == BatchTake(start, positions, mgr.geo.blockSize, |positions|)
    ensures LayerReady(m, mgr, kvs, tbl, positions, ts, alive, l + 1)
  {
    hide BatchTake, BatchState, Disjoint, PagedStore.Mirrors, Linked;
    BatchLayerDone(m, mgr.rows, tbl, mgr.geo.blockSize, ts, alive, l);
    BatchTakeShape(start, positions, mgr.geo.blockSize, |positions|);
    var taken := BatchTake(start, positions, mgr.geo.blockSize, |positions|);
    assert taken.tables == tbl && taken.alive == alive;
  }

  /** The outcome of one batched step: every live row ends as a step of its own would
      leave it, every dead row as it began. */
  ghost predicate BatchStepped(m: Model, mgr: BlockManager, kvs: seq<PagedKVCache>, free: seq<nat>,
      tables: seq<seq<nat>>, rows: Rows,
      hist: seq<seq<int>>, tokens: seq<int>, positions: seq<nat>, alive: seq<bool>, logits: seq<Row>)
    requires |tables| == |hist| == |tokens| == |positions|
    reads mgr, mgr.pool, kvs
  {
    && mgr.Valid() && PoolFits(m, mgr.geo)
    && var b := BatchTake(Batch(free, tables, AllAlive(|tables|)), positions, mgr.geo.blockSize, |tables|);
    && mgr.freeList == b.free && Linked(mgr, kvs, b.tables) && alive == b.alive
    && Disjoint(mgr.geo, b.free, b.tables)
    && SameOutsideAll(rows, mgr.rows, Written(b.tables, alive, |tables|))
    && RowsStepped(m, mgr.rows, b.tables, mgr.geo.blockSize, hist, tokens, alive, logits)
  }

  ghost predicate RowsStepped(m: Model, rows: Rows, tables: seq<seq<nat>>, size: nat, hist: seq<seq<int>>,
      tokens: seq<int>, alive: seq<bool>, logits: seq<Row>)
    requires size > 0 && |tables| == |hist| == |tokens| == |alive|
  {
    && |logits| == |tables|
    && forall i | 0 <= i < |tables| ::
        && var after := if alive[i] then hist[i] + [tokens[i]] else hist[i];
        && PagedHolds(m, rows, tables[i], size, after, m.layers)
        && |tables[i]| == CeilDiv(|after|, size)
        && (alive[i] ==> logits[i] == Logits(m, F32, after))
  }

  /** A batch that is ready to step is ready for its first layer. */
  lemma BatchBegins(m: Model, mgr: BlockManager, kvs: seq<PagedKVCache>, tables: seq<seq<nat>>, hist: seq<seq<int>>,
      positions: seq<nat>, tokens: seq<int>)
    requires BatchReady(m, mgr, kvs, tables, hist, positions) && |tokens| == |hist|
    ensures LayerReady(m, mgr, kvs, tables, positions, Extended(hist, tokens), AllAlive(|tables|), 0)
    ensures mgr.geo.blockSize > 0 && |tables| == |hist|
    ensures forall i | 0 <= i < |hist| ::
      |hist[i]| == positions[i] && |tables[i]| == CeilDiv(|hist[i]|, mgr.geo.blockSize)
  {
    hide PagedHolds, CeilDiv, BatchState;
    BatchNear(hist, tables, positions, mgr.geo.blockSize);
    BatchStart(m, mgr.rows, tables, mgr.geo.blockSize, hist, tokens);
  }

  lemma BatchNear(hist: seq<seq<int>>, tables: seq<seq<nat>>, positions: seq<nat>, size: nat)
    requires size > 0 && |hist| == |tables| == |positions|
    requires forall i | 0 <= i < |hist| :: |hist[i]| == positions[i] && |tables[i]| == CeilDiv(|hist[i]|, size)
    ensures Near(tables, positions, size)
  {
    forall i | 0 <= i < |hist| ensures positions[i] / size <= |tables[i]| {
      TableGrows(|hist[i]|, size, [], tables[i]);
    }
  }

  /** Past layer 0 every live row is inside its table. */
  lemma LayerTakesNothing(m: Model, mgr: BlockManager, kvs: seq<PagedKVCache>, tables: seq<seq<nat>>,
      positions: seq<nat>, ts: seq<seq<int>>, alive: seq<bool>, l: nat)
    requires LayerReady(m, mgr, kvs, tables, positions, ts, alive, l) && l > 0
    ensures BatchTake(Batch(mgr.freeList, tables, alive), positions, mgr.geo.blockSize, |positions|)
      == Batch(mgr.freeList, tables, alive)
  {
    hide BatchTake, BatchState, Disjoint, PagedStore.Mirrors, Linked;
    BatchTakeIdle(Batch(mgr.freeList, tables, alive), positions, mgr.geo.blockSize, |positions|);
  }

  lemma BatchEnds(m: Model, mgr: BlockManager, kvs: seq<PagedKVCache>, free: seq<nat>, tables: seq<seq<nat>>,
      tbl: seq<seq<nat>>, rows: Rows,
      hist: seq<seq<int>>, tokens: seq<int>, positions: seq<nat>, alive: seq<bool>, logits: seq<Row>)
    requires |tables| == |tbl| == |hist| == |tokens| == |positions| == |alive| == |logits|
    requires LayerReady(m, mgr, kvs, tbl, positions, Extended(hist, tokens), alive, m.layers)
    requires Batch(mgr.freeList, tbl, alive)
      == BatchTake(Batch(free, tables, AllAlive(|tables|)), positions, mgr.geo.blockSize, |tables|)
    requires SameOutsideAll(rows, mgr.rows, Written(tbl, alive, |tables|))
    requires forall i | 0 <= i < |hist| ::
      |hist[i]| == positions[i] && |tables[i]| == CeilDiv(|hist[i]|, mgr.geo.blockSize)
    requires forall i | 0 <= i < |tables| && alive[i] :: logits[i] == Logits(m, F32, Extended(hist, tokens)[i])
    ensures BatchStepped(m, mgr, kvs, free, tables, rows, hist, tokens, positions, alive, logits)
  {
    hide PagedHolds, BatchTake, CeilDiv, PagedStore.Mirrors, Disjoint, SameOutsideAll, BatchState, RowsStepped, Linked,
      Near, Covered;
    TakenLengths(free, tables, positions, mgr.geo.blockSize);
    RowsEnd(m, mgr.rows, tables, tbl, mgr.geo.blockSize, hist, tokens, alive, logits);
  }

  lemma TakenLengths(free: seq<nat>, tables: seq<seq<nat>>, positions: seq<nat>, size: nat)
    requires size > 0 && |positions| == |tables|
    ensures var b := BatchTake(Batch(free, tables, AllAlive(|tables|)), positions, size, |tables|);
      forall i | 0 <= i < |tables| ::
        |b.tables[i]| == |tables[i]| + if b.alive[i] && positions[i] / size >= |tables[i]| then 1 else 0
  {
    hide BatchTake;
    BatchTakeShape(Batch(free, tables, AllAlive(|tables|)), positions, size, |tables|);
  }

  lemma RowsEnd(m: Model, rows: Rows, tables: seq<seq<nat>>, tbl: seq<seq<nat>>, size: nat, hist: seq<seq<int>>,
      tokens: seq<int>, alive: seq<bool>, logits: seq<Row>)
    requires size > 0 && |tables| == |tbl| == |hist| == |tokens| == |alive| == |logits|
    requires forall i | 0 <= i < |tables| :: |tables[i]| == CeilDiv(|hist[i]|, size)
    requires forall i | 0 <= i < |tables| ::
      |tbl[i]| == |tables[i]| + if alive[i] && |hist[i]| / size >= |tables[i]| then 1 else 0
    requires BatchState(m, rows, tbl, size, Extended(hist, tokens), alive, m.layers, 0)
    requires forall i | 0 <= i < |tables| && alive[i] :: logits[i] == Logits(m, F32, Extended(hist, tokens)[i])
    ensures RowsStepped(m, rows, tbl, size, hist, tokens, alive, logits)
  {
    hide PagedHolds, CeilDiv, BatchState;
    forall i | 0 <= i < |tables|
      ensures
        && var after := if alive[i] then hist[i] + [tokens[i]] else hist[i];
        && PagedHolds(m, rows, tbl[i], size, after, m.layers)
        && |tbl[i]| == CeilDiv(|after|, size)
    {
      var ts := Extended(hist, tokens);
      assert forall j | 0 <= j < |ts| :: ts[j] == hist[j] + [tokens[j]];
      BatchRowState(m, rows, tbl, size, ts, alive, m.layers, 0, i);
      RowEnds(m, rows, tables[i], tbl[i], size, hist[i], tokens[i], alive[i]);
    }
  }

  lemma RowEnds(m: Model, rows: Rows, before: seq<nat>, table: seq<nat>, size: nat, hist: seq<int>, token: int,
      alive: bool)
    requires size > 0 && |before| == CeilDiv(|hist|, size)
    requires |table| == |before| + if alive && |hist| / size >= |before| then 1 else 0
    requires RowState(m, rows, table, size, hist + [token], alive, m.layers)
    ensures
      var after := if alive then hist + [token] else hist;
      PagedHolds(m, rows, table, size, after, m.layers) && |table| == CeilDiv(|after|, size)
  {
    hide PagedHolds;
    TableGrows(|hist|, size, [0], before);
    assert (hist + [token])[..|hist|] == hist;
  }
}
