/** Paged caches on one pool beside real contiguous caches given the same calls. */
module CacheTwins {
  import opened Numeric
  import opened Layout
  import opened PagedStore
  import opened PagedKv
  import opened Recall
  import opened PagedRuns
  import KvCache

  /** The pool and the paged caches are in the state of a run. */
  ghost predicate PoolIs(mgr: BlockManager, s: Shared, paged: seq<PagedKVCache>)
    reads mgr, mgr.pool, paged
  {
    && mgr.Valid() && mgr.freeList == s.free && mgr.rows == s.rows && |paged| == |s.tables|
    && (forall i | 0 <= i < |paged| :: paged[i].mgr == mgr && paged[i].table == s.tables[i])
    && (forall i, j | 0 <= i < j < |paged| :: paged[i] != paged[j])
  }

  /** A single-precision contiguous cache that holds everything a private history knows. */
  ghost predicate TwinOf(g: Geometry, maxSeq: nat, kv: KvCache.ContiguousKVCache, p: Private)
    reads kv, kv.kCells, kv.vCells
  {
    && kv.Valid() && kv.dtype == F32
    && kv.numLayers == g.numLayers && kv.perToken == g.PerToken() && kv.maxSeqLen == maxSeq
    && Knows(kv.kRows, p.ks) && Knows(kv.vRows, p.vs)
  }

  /** No buffer is shared. */
  ghost predicate SeparateTwins(kvs: seq<KvCache.ContiguousKVCache>) {
    forall i, j | 0 <= i < |kvs| && 0 <= j < |kvs| && i != j ::
      && kvs[i] != kvs[j] && kvs[i].kCells != kvs[j].kCells && kvs[i].vCells != kvs[j].vCells
      && kvs[i].kCells != kvs[j].vCells
  }

  method NewTwin(g: Geometry, casts: Casts, maxSeq: nat) returns (kv: KvCache.ContiguousKVCache)
    requires g.Valid() && maxSeq > 0
    ensures fresh(kv) && fresh(kv.kCells) && fresh(kv.vCells)
    ensures TwinOf(g, maxSeq, kv, Private(imap[], imap[]))
  {
    kv := new KvCache.ContiguousKVCache(casts, g.numLayers, maxSeq, g.numKvHeads, g.headDim, F32);
  }

  lemma KnowsNext(all: History, own: History, at: Loc, row: Row)
    requires Knows(all, own)
    ensures Knows(all[at := row], own[at := row])
  {
  }

  /** One write to both: the contiguous cache takes what the pool took. */
  method WriteBoth(kv: PagedKVCache, twin: KvCache.ContiguousKVCache, ghost g: Geometry, ghost p: Private, layer: nat,
      pos: nat, k: Row, v: Row)
    returns (ok: bool)
    requires kv.mgr != null && kv.Valid() && kv.mgr.geo == g && TwinOf(g, twin.maxSeqLen, twin, p)
    requires layer < g.numLayers && pos / g.blockSize <= |kv.table| && |k| == |v| == g.PerToken()
    requires pos < twin.maxSeqLen
    modifies kv.Footprint(), twin, twin.kCells, twin.vCells
    ensures kv.mgr == old(kv.mgr) && kv.mgr.Valid()
    ensures var t := TakeBlock(old(kv.mgr.freeList), old(kv.table), pos, g.blockSize);
      && ok == t.ok && kv.mgr.freeList == t.free && kv.table == t.table
      && kv.mgr.rows
        == if ok then StoreToken(old(kv.mgr.rows), kv.table, g.blockSize, layer, pos, k, v) else old(kv.mgr.rows)
    ensures TwinOf(g, twin.maxSeqLen, twin,
      if ok then Private(p.ks[Loc(layer, pos) := k], p.vs[Loc(layer, pos) := v]) else p)
  {
    hide PagedStore.Mirrors, KvCache.Mirrors, Knows;
    ok := kv.Write(layer, pos, k, v);
    if ok {
      KnowsNext(twin.kRows, p.ks, Loc(layer, pos), k);
      KnowsNext(twin.vRows, p.vs, Loc(layer, pos), v);
      var r := twin.Write(layer, pos, k, v);
    }
  }

  ghost predicate TwinsAre(g: Geometry, maxSeq: nat, kvs: seq<KvCache.ContiguousKVCache>, ps: seq<Private>)
    reads kvs, set kv | kv in kvs :: kv.kCells, set kv | kv in kvs :: kv.vCells
  {
    |kvs| == |ps| && forall i | 0 <= i < |kvs| :: TwinOf(g, maxSeq, kvs[i], ps[i])
  }

  lemma OwnedAt(g: Geometry, s: Shared, ps: seq<Private>, i: nat)
    requires g.Valid() && Agree(g, s, ps) && i < |s.tables|
    ensures |ps| == |s.tables| && Owns(g, s.free, s.tables[i])
  {
  }

  method PlayWrite(mgr: BlockManager, paged: seq<PagedKVCache>, twins: seq<KvCache.ContiguousKVCache>, maxSeq: nat,
      op: Op, ghost s: Shared, ghost ps: seq<Private>)
    requires PoolIs(mgr, s, paged) && mgr.geo.Valid() && Agree(mgr.geo, s, ps) && Legal(mgr.geo, s, op)
    requires TwinsAre(mgr.geo, maxSeq, twins, ps) && SeparateTwins(twins) && op.Write? && op.pos < maxSeq
    modifies mgr, mgr.pool, paged[op.who], twins[op.who], twins[op.who].kCells, twins[op.who].vCells
    ensures PoolIs(mgr, Apply(mgr.geo, s, op), paged)
    ensures TwinsAre(mgr.geo, maxSeq, twins, ApplyPrivate(ps, op, Stores(mgr.geo, s, op)))
  {
    hide PagedStore.Mirrors, KvCache.Mirrors, Knows, Owns, View, TakeBlock, StoreToken, Agree, Geometry.PerToken;
    ghost var g := mgr.geo;
    OwnedAt(g, s, ps, op.who);
    var kv, twin := paged[op.who], twins[op.who];
    var ok := WriteBoth(kv, twin, g, ps[op.who], op.layer, op.pos, op.k, op.v);
    ghost var ps' := ApplyPrivate(ps, op, ok);
    assert ok == Stores(g, s, op);
    forall i | 0 <= i < |twins| && i != op.who ensures TwinOf(g, maxSeq, twins[i], ps'[i]) {
      assert ps'[i] == ps[i];
    }
  }

  method PlayRelease(mgr: BlockManager, paged: seq<PagedKVCache>, twins: seq<KvCache.ContiguousKVCache>, casts: Casts,
      maxSeq: nat, op: Op, ghost s: Shared, ghost ps: seq<Private>)
    returns (twins': seq<KvCache.ContiguousKVCache>)
    requires PoolIs(mgr, s, paged) && mgr.geo.Valid() && Agree(mgr.geo, s, ps) && Legal(mgr.geo, s, op)
    requires TwinsAre(mgr.geo, maxSeq, twins, ps) && SeparateTwins(twins) && op.Release? && maxSeq > 0
    modifies mgr, paged[op.who]
    ensures PoolIs(mgr, Apply(mgr.geo, s, op), paged)
    ensures TwinsAre(mgr.geo, maxSeq, twins', ApplyPrivate(ps, op, false)) && SeparateTwins(twins')
    ensures forall i | 0 <= i < |twins| && i != op.who :: twins'[i] == twins[i]
    ensures fresh(twins'[op.who]) && fresh(twins'[op.who].kCells) && fresh(twins'[op.who].vCells)
  {
    hide PagedStore.Mirrors, KvCache.Mirrors, Knows, Owns, View, TakeBlock, StoreToken, Agree, Geometry.PerToken;
    OwnedAt(mgr.geo, s, ps, op.who);
    paged[op.who].ReleaseAll();
    var kv := NewTwin(mgr.geo, casts, maxSeq);
    twins' := twins[op.who := kv];
  }

  /** A pool as it is, and `n` empty caches. */
  ghost function Beginning(free: seq<nat>, rows: Rows, n: nat): (s: Shared)
    ensures |s.tables| == n
  {
    Shared(free, seq(n, _ => []), rows)
  }

  ghost function NoRows(n: nat): (ps: seq<Private>)
    ensures |ps| == n && forall i | 0 <= i < n :: ps[i] == Private(imap[], imap[])
  {
    seq(n, _ => Private(imap[], imap[]))
  }

  lemma BeginningAgrees(g: Geometry, free: seq<nat>, rows: Rows, n: nat)
    requires g.Valid() && Owns(g, free, [])
    ensures Agree(g, Beginning(free, rows, n), NoRows(n))
  {
  }

  method NewPaged(mgr: BlockManager, n: nat) returns (paged: seq<PagedKVCache>)
    requires mgr.Valid()
    ensures PoolIs(mgr, Beginning(mgr.freeList, mgr.rows, n), paged)
    ensures forall i | 0 <= i < |paged| :: fresh(paged[i])
  {
    hide PagedStore.Mirrors;
    paged := [];
    while |paged| < n
      invariant |paged| <= n
      invariant forall i | 0 <= i < |paged| :: fresh(paged[i]) && paged[i].mgr == mgr && paged[i].table == []
      invariant forall i, j | 0 <= i < j < |paged| :: paged[i] != paged[j]
    {
      var kv := new PagedKVCache(mgr);
      paged := paged + [kv];
    }
  }

  method NewTwins(g: Geometry, n: nat, casts: Casts, maxSeq: nat) returns (twins: seq<KvCache.ContiguousKVCache>)
    requires g.Valid() && maxSeq > 0
    ensures TwinsAre(g, maxSeq, twins, NoRows(n)) && SeparateTwins(twins)
    ensures forall i | 0 <= i < |twins| :: fresh(twins[i]) && fresh(twins[i].kCells) && fresh(twins[i].vCells)
  {
    hide KvCache.Mirrors, Knows, Geometry.PerToken;
    twins := [];
    while |twins| < n
      invariant |twins| <= n && TwinsAre(g, maxSeq, twins, NoRows(|twins|)) && SeparateTwins(twins)
      invariant forall i | 0 <= i < |twins| :: fresh(twins[i]) && fresh(twins[i].kCells) && fresh(twins[i].vCells)
    {
      var kv := NewTwin(g, casts, maxSeq);
      twins := twins + [kv];
    }
  }

  /** The caller's writes stay inside the contiguous caches. */
  predicate Inside(maxSeq: nat, ops: seq<Op>) {
    forall i | 0 <= i < |ops| && ops[i].Write? :: ops[i].pos < maxSeq
  }

  /** What is still to come of a run. */
  ghost predicate Ahead(g: Geometry, s: Shared, ps: seq<Private>, ops: seq<Op>, end: Shared, own: seq<Private>)
    requires g.Valid()
  {
    && |ps| == |s.tables| && AllLegal(g, s, ops) && Agree(g, s, ps)
    && Run(g, s, ops) == end && RunPrivate(g, s, ps, ops) == own
  }

  lemma AheadNext(g: Geometry, s: Shared, ps: seq<Private>, ops: seq<Op>, end: Shared, own: seq<Private>)
    requires g.Valid() && Ahead(g, s, ps, ops, end, own) && |ops| > 0
    ensures Legal(g, s, ops[0]) && ops[0].who < |s.tables| == |ps|
    ensures var stored := ops[0].Write? && Stores(g, s, ops[0]);
      Ahead(g, Apply(g, s, ops[0]), ApplyPrivate(ps, ops[0], stored), ops[1..], end, own)
  {
    hide Agree, Apply, ApplyPrivate, Stores;
    if ops[0].Write? { WriteAgrees(g, s, ps, ops[0]); } else { ReleaseAgrees(g, s, ps, ops[0]); }
    AgreeLength(g, Apply(g, s, ops[0]), ApplyPrivate(ps, ops[0], ops[0].Write? && Stores(g, s, ops[0])));
  }

  lemma AheadNothing(g: Geometry, s: Shared, ps: seq<Private>, end: Shared, own: seq<Private>)
    requires g.Valid() && Ahead(g, s, ps, [], end, own)
    ensures s == end && ps == own
  {
  }

  lemma AheadOk(g: Geometry, s: Shared, ps: seq<Private>, ops: seq<Op>, end: Shared, own: seq<Private>)
    requires g.Valid() && Ahead(g, s, ps, ops, end, own)
    ensures |ps| == |s.tables| && Agree(g, s, ps)
  {
  }

  /** A whole run, call by call, on paged caches that share the pool and on contiguous
      caches that share nothing. */
  method Play(mgr: BlockManager, n: nat, casts: Casts, maxSeq: nat, ops: seq<Op>)
    returns (paged: seq<PagedKVCache>, twins: seq<KvCache.ContiguousKVCache>)
    requires mgr.Valid() && mgr.geo.Valid() && Owns(mgr.geo, mgr.freeList, []) && maxSeq > 0
    requires AllLegal(mgr.geo, Beginning(mgr.freeList, mgr.rows, n), ops) && Inside(maxSeq, ops)
    modifies mgr, mgr.pool
    ensures var s := Beginning(old(mgr.freeList), old(mgr.rows), n);
      && PoolIs(mgr, Run(mgr.geo, s, ops), paged)
      && TwinsAre(mgr.geo, maxSeq, twins, RunPrivate(mgr.geo, s, NoRows(n), ops))
  {
    hide PagedStore.Mirrors, KvCache.Mirrors, Owns, Agree, AllLegal, Ahead, Apply, ApplyPrivate, Stores, TwinOf, Legal,
      Geometry.PerToken;
    ghost var g, s, ps := mgr.geo, Beginning(mgr.freeList, mgr.rows, n), NoRows(n);
    BeginningAgrees(g, mgr.freeList, mgr.rows, n);
    ghost var end, own := Run(g, s, ops), RunPrivate(g, s, ps, ops);
    AheadStart(g, s, ps, ops);
    paged := NewPaged(mgr, n);
    twins := NewTwins(mgr.geo, n, casts, maxSeq);
    var j := 0;
    assert ops[0..] == ops;
    while j < |ops|
      invariant 0 <= j <= |ops| && Ahead(g, s, ps, ops[j..], end, own)
      invariant PoolIs(mgr, s, paged) && TwinsAre(g, maxSeq, twins, ps) && SeparateTwins(twins)
      invariant forall i | 0 <= i < |paged| :: fresh(paged[i])
      invariant forall i | 0 <= i < |twins| :: fresh(twins[i]) && fresh(twins[i].kCells) && fresh(twins[i].vCells)
    {
      var op := ops[j];
      assert ops[j..][0] == op && ops[j..][1..] == ops[j + 1..];
      AheadOk(g, s, ps, ops[j..], end, own);
      AheadNext(g, s, ps, ops[j..], end, own);
      if op.Write? {
        PlayWrite(mgr, paged, twins, maxSeq, op, s, ps);
      } else {
        twins := PlayRelease(mgr, paged, twins, casts, maxSeq, op, s, ps);
      }
      s, ps := Apply(g, s, op), ApplyPrivate(ps, op, op.Write? && Stores(g, s, op));
      j := j + 1;
    }
    assert ops[j..] == [];
    AheadNothing(g, s, ps, end, own);
  }

  lemma AheadStart(g: Geometry, s: Shared, ps: seq<Private>, ops: seq<Op>)
    requires g.Valid() && AllLegal(g, s, ops) && |ps| == |s.tables| && Agree(g, s, ps)
    ensures Ahead(g, s, ps, ops, Run(g, s, ops), RunPrivate(g, s, ps, ops))
  {
  }

  // ---- Reading both ----

  /** The private history has been given the first `count` positions of the layer. */
  ghost predicate Written(p: Private, layer: nat, count: nat) {
    forall t: nat | t < count :: Loc(layer, t) in p.ks && Loc(layer, t) in p.vs
  }

  /** Two buffers that begin with the same `count` rows. */
  ghost predicate SameRows(a: seq<Float32>, b: seq<Float32>, count: nat, d: nat) {
    count * d <= |a| && count * d <= |b| && RowsOf(a, count, d) == RowsOf(b, count, d)
  }

  /** A paged cache read back: the rows its private history was given. */
  method ReadPaged(kv: PagedKVCache, ghost s: Shared, ghost i: nat, ghost own: Private, layer: nat, count: nat,
      buf: seq<Float32>)
    returns (ks: seq<Float32>, vs: seq<Float32>)
    requires kv.mgr != null && kv.Valid() && i < |s.tables| && layer < kv.mgr.geo.numLayers && kv.mgr.geo.Valid()
    requires kv.mgr.rows == s.rows && kv.table == s.tables[i] && AgreeAt(kv.mgr.geo, s, i, own)
    requires Written(own, layer, count) && count * kv.mgr.geo.PerToken() <= |buf|
    ensures |ks| == |vs| == |buf|
    ensures forall t: nat | t < count :: RowsOf(ks, count, kv.mgr.geo.PerToken())[t] == own.ks[Loc(layer, t)]
    ensures forall t: nat | t < count :: RowsOf(vs, count, kv.mgr.geo.PerToken())[t] == own.vs[Loc(layer, t)]
  {
    hide PagedStore.Mirrors, Owns, AgreeAt, GatheredFrom, Geometry.PerToken;
    ghost var g := kv.mgr.geo;
    var status;
    status, ks, vs := kv.Gather(layer, count, buf, buf);
    GatherKnows(g, s, i, own, layer, count, false, ks);
    GatherKnows(g, s, i, own, layer, count, true, vs);
  }

  /** And its twin. */
  method ReadTwin(twin: KvCache.ContiguousKVCache, ghost g: Geometry, ghost own: Private, layer: nat, count: nat,
      buf: seq<Float32>)
    returns (ks: seq<Float32>, vs: seq<Float32>)
    requires TwinOf(g, twin.maxSeqLen, twin, own) && layer < g.numLayers && count <= twin.maxSeqLen
    requires Written(own, layer, count) && count * g.PerToken() <= |buf|
    ensures |ks| == |vs| == |buf|
    ensures forall t: nat | t < count :: RowsOf(ks, count, g.PerToken())[t] == own.ks[Loc(layer, t)]
    ensures forall t: nat | t < count :: RowsOf(vs, count, g.PerToken())[t] == own.vs[Loc(layer, t)]
  {
    hide KvCache.Mirrors, Geometry.PerToken;
    var r;
    r, ks, vs := twin.GatherLayer(layer, count, buf, buf);
  }

  method ReadBoth(kv: PagedKVCache, twin: KvCache.ContiguousKVCache, ghost s: Shared, ghost i: nat, ghost own: Private,
      layer: nat, count: nat)
    returns (ks: seq<Float32>, vs: seq<Float32>, ksOwn: seq<Float32>, vsOwn: seq<Float32>)
    requires kv.mgr != null && kv.Valid() && i < |s.tables| && layer < kv.mgr.geo.numLayers && kv.mgr.geo.Valid()
    requires kv.mgr.rows == s.rows && kv.table == s.tables[i] && AgreeAt(kv.mgr.geo, s, i, own)
    requires TwinOf(kv.mgr.geo, twin.maxSeqLen, twin, own) && count <= twin.maxSeqLen && Written(own, layer, count)
    ensures SameRows(ks, ksOwn, count, kv.mgr.geo.PerToken()) && SameRows(vs, vsOwn, count, kv.mgr.geo.PerToken())
  {
    hide PagedStore.Mirrors, Owns, TwinOf, AgreeAt, Written, Geometry.PerToken;
    var size := count * kv.mgr.geo.PerToken();
    var buf: seq<Float32> := seq(size, _ => 0);
    ks, vs := ReadPaged(kv, s, i, own, layer, count, buf);
    ksOwn, vsOwn := ReadTwin(twin, kv.mgr.geo, own, layer, count, buf);
  }

  /** Whatever calls the caches of one pool get in whatever order, a paged cache read over
      positions it has been given returns, row for row, what a contiguous cache of its own
      given the same calls returns. */
  method PagedIsContiguous(mgr: BlockManager, n: nat, casts: Casts, maxSeq: nat, ops: seq<Op>, i: nat, layer: nat,
      count: nat)
    returns (ks: seq<Float32>, vs: seq<Float32>, ksOwn: seq<Float32>, vsOwn: seq<Float32>)
    requires mgr.Valid() && mgr.geo.Valid() && Owns(mgr.geo, mgr.freeList, []) && maxSeq > 0
    requires AllLegal(mgr.geo, Beginning(mgr.freeList, mgr.rows, n), ops) && Inside(maxSeq, ops)
    requires i < n && layer < mgr.geo.numLayers && count <= maxSeq
    requires Written(RunPrivate(mgr.geo, Beginning(mgr.freeList, mgr.rows, n), NoRows(n), ops)[i], layer, count)
    modifies mgr, mgr.pool
    ensures SameRows(ks, ksOwn, count, mgr.geo.PerToken()) && SameRows(vs, vsOwn, count, mgr.geo.PerToken())
  {
    hide PagedStore.Mirrors, Owns, Agree, AllLegal, Run, RunPrivate, TwinOf, Inside, Written, Geometry.PerToken,
      SameRows, AgreeAt;
    ghost var g, s, ps := mgr.geo, Beginning(mgr.freeList, mgr.rows, n), NoRows(n);
    BeginningAgrees(g, mgr.freeList, mgr.rows, n);
    RunAgrees(g, s, ps, ops);
    ghost var end, own := Run(g, s, ops), RunPrivate(g, s, ps, ops);
    var paged, twins := Play(mgr, n, casts, maxSeq, ops);
    OwnedAt(g, end, own, i);
    AgreeAtOne(g, end, own, i);
    TwinSize(g, maxSeq, twins[i], own[i]);
    ks, vs, ksOwn, vsOwn := ReadBoth(paged[i], twins[i], end, i, own[i], layer, count);
  }

  lemma AgreeAtOne(g: Geometry, s: Shared, ps: seq<Private>, i: nat)
    requires g.Valid() && Agree(g, s, ps) && i < |ps|
    ensures |ps| == |s.tables| && AgreeAt(g, s, i, ps[i])
  {
  }

  lemma TwinSize(g: Geometry, maxSeq: nat, kv: KvCache.ContiguousKVCache, p: Private)
    requires TwinOf(g, maxSeq, kv, p)
    ensures kv.maxSeqLen == maxSeq
  {
  }
}
