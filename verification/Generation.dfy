/** Whole-sequence forward passes and greedy generation on one engine. */
module Generation {
  import opened Numeric
  import Layout
  import opened Meaning
  import opened KvCache
  import opened PagedStore
  import opened PagedKv
  import opened Recall
  import opened EngineCore

  predicate TokensOk(m: Model, ids: seq<int>) {
    forall i | 0 <= i < |ids| :: 0 <= ids[i] < m.vocab
  }

  /** The requests generation and both schedulers accept. */
  predicate RequestOk(m: Model, prompt: seq<int>, maxNew: int) {
    |prompt| > 0 && maxNew >= 0 && TokensOk(m, prompt) && |prompt| + maxNew <= m.maxPos
  }

  method NewCache(e: Engine, count: nat) returns (kv: ContiguousKVCache)
    requires e.m.Valid() && count > 0
    ensures fresh(kv) && fresh(kv.kCells) && fresh(kv.vCells) && kv.Valid() && Fits(e.m, kv)
    ensures kv.maxSeqLen == count && kv.dtype == KvDtype(e.storage)
    ensures Recalls(e.m, kv, [], e.m.layers)
  {
    kv := new ContiguousKVCache(e.m.casts, e.m.layers, count, e.m.kvHeads, e.m.headDim, KvDtype(e.storage));
  }

  /** Logits of every position, from one pass over a cache of exactly that length. */
  method ForwardLogits(e: Engine, ids: seq<int>) returns (r: Result<seq<Row>>)
    requires e.m.Valid()
    modifies e
    ensures r == Failure(InvalidArgument) <==> !TokensOk(e.m, ids)
    ensures r == Failure(RuntimeError) <==> TokensOk(e.m, ids) && |ids| > e.m.maxPos
    ensures r.Failure? ==> r.error == InvalidArgument || r.error == RuntimeError
    ensures r.Success? ==> |r.value| == |ids|
    ensures r.Success? ==> forall t | 0 <= t < |ids| :: r.value[t] == Logits(e.m, KvDtype(e.storage), ids[..t + 1])
  {
    if !TokensOk(e.m, ids) { return Failure(InvalidArgument); }
    if |ids| == 0 { return Success([]); }
    if |ids| > e.m.maxPos { return Failure(RuntimeError); }
    var kv := NewCache(e, |ids|);
    var rows := [];
    var t := 0;
    while t < |ids|
      invariant 0 <= t <= |ids| == kv.maxSeqLen && |rows| == t
      invariant fresh(kv) && fresh(kv.kCells) && fresh(kv.vCells) && kv.Valid() && Fits(e.m, kv)
      invariant Recalls(e.m, kv, ids[..t], e.m.layers)
      invariant forall j | 0 <= j < t :: rows[j] == Logits(e.m, KvDtype(e.storage), ids[..j + 1])
    {
      assert ids[..t] + [ids[t]] == ids[..t + 1];
      var row := e.ForwardStep(ids[t], t, kv, true, ids[..t]);
      rows := rows + [row];
      t := t + 1;
    }
    r := Success(rows);
  }

  /** Prefill then greedy decoding over one cache sized for the whole run. */
  method Generate(e: Engine, prompt: seq<int>, maxNew: int) returns (r: Result<Outcome>)
    requires e.m.Valid()
    modifies e
    ensures r.Success? <==> RequestOk(e.m, prompt, maxNew)
    ensures r.Success? <==>
      && |prompt| > 0 && maxNew >= 0 && |prompt| + maxNew <= e.m.maxPos
      && forall i | 0 <= i < |prompt| :: 0 <= prompt[i] < e.m.vocab
    ensures r.Failure? ==>
      r.error == if |prompt| > 0 && maxNew >= 0 && TokensOk(e.m, prompt) then RuntimeError else InvalidArgument
    ensures r.Success? ==> r.value == Greedy(e.m, KvDtype(e.storage), prompt, maxNew)
  {
    if |prompt| == 0 { return Failure(InvalidArgument); }
    if maxNew < 0 { return Failure(InvalidArgument); }
    if !TokensOk(e.m, prompt) { return Failure(InvalidArgument); }
    if |prompt| + maxNew > e.m.maxPos { return Failure(RuntimeError); }
    var kv := NewCache(e, |prompt| + maxNew);
    var logits := Prefill(e, kv, prompt);
    var o := Decode(e, kv, prompt, maxNew, logits);
    r := Success(o);
  }

  /** Feeds the prompt; only the last position's logits are computed. */
  method Prefill(e: Engine, kv: ContiguousKVCache, prompt: seq<int>) returns (logits: Row)
    requires e.m.Valid() && |prompt| > 0 && |prompt| <= kv.maxSeqLen
    requires kv.Valid() && Fits(e.m, kv) && Recalls(e.m, kv, [], e.m.layers)
    modifies e, kv, kv.kCells, kv.vCells
    ensures kv.Valid() && Recalls(e.m, kv, prompt, e.m.layers)
    ensures logits == Logits(e.m, kv.dtype, prompt)
  {
    hide KvCache.Mirrors, Model.Valid, Holds, Hidden;
    logits := [];
    var i := 0;
    while i < |prompt|
      invariant 0 <= i <= |prompt|
      invariant kv.Valid() && Recalls(e.m, kv, prompt[..i], e.m.layers)
      invariant i == |prompt| ==> logits == Logits(e.m, kv.dtype, prompt)
    {
      assert prompt[..i] + [prompt[i]] == prompt[..i + 1];
      var row := e.ForwardStep(prompt[i], i, kv, i + 1 == |prompt|, prompt[..i]);
      if i + 1 == |prompt| {
        assert prompt[..i + 1] == prompt;
        logits := row;
      }
      i := i + 1;
    }
    assert prompt[..|prompt|] == prompt;
  }

  /** The greedy loop; the pass after the last token is skipped. */
  method Decode(e: Engine, kv: ContiguousKVCache, prompt: seq<int>, maxNew: nat, first: Row) returns (o: Outcome)
    requires e.m.Valid() && |prompt| > 0 && |prompt| + maxNew <= kv.maxSeqLen
    requires kv.Valid() && Fits(e.m, kv) && Recalls(e.m, kv, prompt, e.m.layers)
    requires first == Logits(e.m, kv.dtype, prompt)
    modifies e, kv, kv.kCells, kv.vCells
    ensures o == Greedy(e.m, kv.dtype, prompt, maxNew)
  {
    hide KvCache.Mirrors, Holds, Hidden;
    var logits := first;
    var out := prompt;
    var finish := Length;
    while |out| - |prompt| < maxNew
      invariant 0 <= |out| - |prompt| <= maxNew && |out| > 0
      invariant kv.Valid()
      invariant |out| - |prompt| < maxNew ==> Recalls(e.m, kv, out, e.m.layers) && logits == Logits(e.m, kv.dtype, out)
      invariant finish == Length
      invariant Greedy(e.m, kv.dtype, prompt, maxNew) == Greedy(e.m, kv.dtype, out, maxNew - (|out| - |prompt|))
      decreases |prompt| + maxNew - |out|
    {
      var next := Argmax(e.m, logits);
      if next in e.m.eos { finish := Stop; break; }
      ghost var before := out;
      out := out + [next];
      if |out| - |prompt| < maxNew {
        logits := e.ForwardStep(next, |out| - 1, kv, true, before);
      }
    }
    o := Outcome(out, finish);
  }

  /** The reference loop for the KV cache: recompute the logits of the whole
      growing sequence for every new token.  Its caches are one position longer each
      time round, so every row sits at another offset than in `Generate`'s cache. */
  method ReferenceGenerate(e: Engine, prompt: seq<int>, maxNew: int) returns (o: Outcome)
    requires e.m.Valid() && RequestOk(e.m, prompt, maxNew)
    modifies e
    ensures o == Greedy(e.m, KvDtype(e.storage), prompt, maxNew)
  {
    hide Hidden;
    ghost var dt := KvDtype(e.storage);
    var out := prompt;
    while |out| - |prompt| < maxNew
      invariant 0 <= |out| - |prompt| <= maxNew && |out| > 0 && TokensOk(e.m, out)
      invariant Greedy(e.m, dt, prompt, maxNew) == Greedy(e.m, dt, out, maxNew - (|out| - |prompt|))
      decreases |prompt| + maxNew - |out|
    {
      var logits := ForwardLogits(e, out);
      var last := logits.value[|out| - 1];
      assert out[..|out|] == out;
      var next := Argmax(e.m, last);
      if next in e.m.eos { return Outcome(out, Stop); }
      out := out + [next];
    }
    o := Outcome(out, Length);
  }

  /** The paged counterpart of `ForwardLogits`.  It succeeds exactly when the pool has
      the blocks, and gives every block back whether it succeeds or not. */
  method ForwardLogitsPaged(e: Engine, ids: seq<int>, mgr: BlockManager) returns (r: Result<seq<Row>>)
    requires e.m.Valid() && mgr.Valid() && PoolFits(e.m, mgr.geo) && Owns(mgr.geo, mgr.freeList, [])
    modifies e, mgr, mgr.pool
    ensures mgr.Valid() && multiset(mgr.freeList) == multiset(old(mgr.freeList))
    ensures r == Failure(InvalidArgument) <==> !TokensOk(e.m, ids)
    ensures r.Success? <==>
      TokensOk(e.m, ids) && |ids| <= e.m.maxPos && CeilDiv(|ids|, mgr.geo.blockSize) <= old(|mgr.freeList|)
    ensures r.Success? ==> |r.value| == |ids|
    ensures r.Success? ==> forall t | 0 <= t < |ids| :: r.value[t] == Logits(e.m, F32, ids[..t + 1])
  {
    hide PagedStore.Mirrors, Model.Valid, Holds, View, Hidden, Geometry.PerToken, NoDuplicates;
    if !TokensOk(e.m, ids) { return Failure(InvalidArgument); }
    var kv := new PagedKVCache(mgr);
    EmptyIsPaged(e.m, kv);
    if |ids| == 0 {
      assert |kv.table| == CeilDiv(0, mgr.geo.blockSize);
      return Success([]);
    }
    if |ids| > e.m.maxPos { return Failure(RuntimeError); }
    var ok, rows := PagedPass(e, ids, mgr, kv);
    kv.ReleaseAll();
    r := if ok then Success(rows) else Failure(RuntimeError);
  }

  method PagedPass(e: Engine, ids: seq<int>, mgr: BlockManager, kv: PagedKVCache) returns (ok: bool, rows: seq<Row>)
    requires e.m.Valid() && kv.mgr == mgr && Paged(e.m, kv, []) && kv.table == []
    modifies e, kv, mgr, mgr.pool
    ensures kv.mgr == mgr && kv.Valid() && kv.table + mgr.freeList == old(mgr.freeList)
    ensures ok <==> CeilDiv(|ids|, mgr.geo.blockSize) <= old(|mgr.freeList|)
    ensures ok ==> |rows| == |ids| && forall t | 0 <= t < |ids| :: rows[t] == Logits(e.m, F32, ids[..t + 1])
  {
    hide PagedStore.Mirrors, Model.Valid, Holds, View, Hidden, Geometry.PerToken, NoDuplicates, TakeBlock, CeilDiv;
    ghost var size := mgr.geo.blockSize;
    rows := [];
    var t := 0;
    while t < |ids|
      invariant 0 <= t <= |ids| && |rows| == t
      invariant kv.mgr == mgr && Paged(e.m, kv, ids[..t])
      invariant kv.table + mgr.freeList == old(mgr.freeList)
      invariant forall j | 0 <= j < t :: rows[j] == Logits(e.m, F32, ids[..j + 1])
    {
      assert ids[..t] + [ids[t]] == ids[..t + 1];
      ghost var free, table := mgr.freeList, kv.table;
      BlocksGrow(t + 1, |ids|, size);
      var row;
      ok, row := e.ForwardStepPagedLocked(ids[t], t, kv, true, ids[..t]);
      TakeFromFront(free, table, t, size);
      if !ok { return; }
      rows := rows + [row];
      t := t + 1;
    }
    ok := true;
  }

  lemma TakeFromFront(free: seq<nat>, table: seq<nat>, pos: nat, size: nat)
    requires size > 0
    ensures var t := TakeBlock(free, table, pos, size); t.table + t.free == table + free
    ensures !TakeBlock(free, table, pos, size).ok && |table| == CeilDiv(pos, size) ==>
      |free| == 0 && CeilDiv(pos + 1, size) == |table| + 1
  {
    var t := TakeBlock(free, table, pos, size);
    if |table| == CeilDiv(pos, size) { TableGrows(pos, size, [0], table); }
    if |t.table| != |table| { assert free == [free[0]] + free[1..]; }
  }

  lemma BlocksGrow(a: nat, b: nat, size: nat)
    requires size > 0 && a <= b
    ensures CeilDiv(a, size) <= CeilDiv(b, size)
  {
    var x, y := a + size - 1, b + size - 1;
    assert x == x / size * size + x % size && y == y / size * size + y % size;
    if x / size > y / size {
      Layout.RowFits(y / size, x / size, size);
    }
  }
}
