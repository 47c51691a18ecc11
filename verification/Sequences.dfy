/** Requests in flight as objects, and one request's turns on the engine. */
module Sequences {
  import opened Numeric
  import opened Meaning
  import opened PagedStore
  import opened PagedKv
  import opened Recall
  import opened EngineCore
  import opened Generation
  import opened SchedSpec
  import opened SeqProofs
  import opened LiveRows

  /** One request, owned by the scheduler that made it. */
  class Sequence {
    const id: nat
    const promptLen: nat
    const maxNew: nat
    const kv: PagedKVCache
    var tokens: seq<int>
    var cursor: nat
    var state: SeqState
    var reason: Reason

    constructor (id: nat, prompt: seq<int>, maxNew: nat, mgr: BlockManager)
      ensures fresh(kv) && kv.mgr == mgr
      ensures View() == NewSeq(id, Request(prompt, maxNew))
    {
      this.id, this.promptLen, this.maxNew := id, |prompt|, maxNew;
      tokens, cursor, state, reason := prompt, 0, Waiting, Length;
      kv := new PagedKVCache(mgr);
    }

    ghost function View(): SeqV
      reads this, kv
    {
      SeqV(id, tokens, promptLen, cursor, maxNew, state, reason, kv.table)
    }

    /** The snapshot a finished sequence leaves behind. */
    function Result(): ResultV
      reads this
    {
      ResultV(id, promptLen, tokens, reason)
    }

    method Finish(r: Reason)
      modifies this`state, this`reason
      ensures View() == old(View()).Finish(r)
    {
      state, reason := Finished, r;
    }
  }

  /** The cache of a live sequence is in step with its tokens. */
  ghost predicate InStep(m: Model, s: Sequence, mgr: BlockManager, fed: seq<int>)
    reads s, s.kv, mgr, mgr.pool
  {
    s.kv.mgr == mgr && Paged(m, s.kv, fed)
  }

  /** Samples from the logits of all tokens so far. */
  method Sample(e: Engine, s: Sequence, logits: Row)
    requires e.m.Valid() && |s.tokens| > 0 && logits == Logits(e.m, F32, s.tokens)
    modifies s
    ensures s.View() == Sampled(e.m, old(s.View()))
  {
    var next := Argmax(e.m, logits);
    if next in e.m.eos {
      s.Finish(Stop);
      return;
    }
    s.tokens := s.tokens + [next];
    if |s.tokens| - s.promptLen >= s.maxNew {
      s.Finish(Length);
    } else {
      s.state := Running;
    }
  }

  /** One prompt position through the engine. */
  method FeedOne(e: Engine, s: Sequence, mgr: BlockManager) returns (ok: bool, logits: Row, ghost fed: seq<Feed>)
    requires e.m.Valid() && TokensOk(e.m, s.tokens) && s.state == Prefilling
    requires s.cursor < s.promptLen == |s.tokens| && InStep(e.m, s, mgr, s.tokens[..s.cursor])
    modifies e, s, s.kv, mgr, mgr.pool
    ensures s.tokens == old(s.tokens) && mgr.Valid() && s.kv.mgr == mgr
    ensures var t := TakeBlock(old(mgr.freeList), old(s.kv.table), old(s.cursor), mgr.geo.blockSize);
      && ok == t.ok && mgr.freeList == t.free
      && s.View() == if ok then old(s.View()).(cursor := old(s.cursor) + 1, table := t.table)
        else old(s.View()).Finish(Capacity)
    ensures fed == if ok then [Feed(s.id, old(s.cursor))] else []
    ensures ok ==> InStep(e.m, s, mgr, s.tokens[..s.cursor])
    ensures ok && s.cursor == s.promptLen ==> logits == Logits(e.m, F32, s.tokens)
    ensures PagedStore.SameOutside(old(mgr.rows), mgr.rows, s.kv.table)
  {
    hide PagedStore.Mirrors, Model.Valid, Holds, View, Hidden, Geometry.PerToken, PagedStore.NoDuplicates, CeilDiv,
      SameOutside, TakeBlock, PagedHolds;
    ghost var before := s.tokens[..s.cursor];
    assert before + [s.tokens[s.cursor]] == s.tokens[..s.cursor + 1];
    var last := s.cursor + 1 == s.promptLen;
    assert last ==> s.tokens[..s.cursor + 1] == s.tokens;
    var r;
    r, logits := e.ForwardStepPaged(s.tokens[s.cursor], s.cursor, s.kv, last, before);
    ok := r.value;
    fed := if ok then [Feed(s.id, s.cursor)] else [];
    if !ok {
      s.Finish(Capacity);
    } else {
      s.cursor := s.cursor + 1;
    }
  }

  /** Feeds prompt positions in order until the prompt, the budget or the pool runs out. */
  method FeedPrompt(e: Engine, s: Sequence, mgr: BlockManager, budget: nat)
    returns (left: nat, logits: Row, ghost fed: seq<Feed>)
    requires e.m.Valid() && TokensOk(e.m, s.tokens) && s.state == Prefilling
    requires s.cursor < s.promptLen == |s.tokens| && InStep(e.m, s, mgr, s.tokens[..s.cursor])
    modifies e, s, s.kv, mgr, mgr.pool
    ensures mgr.Valid() && s.kv.mgr == mgr
    ensures (s.View(), mgr.freeList, left) == PrefillRun(mgr.geo.blockSize, old(s.View()), old(mgr.freeList), budget)
    ensures fed == PrefillTrace(mgr.geo.blockSize, old(s.View()), old(mgr.freeList), budget)
    ensures s.tokens == old(s.tokens) && s.cursor <= s.promptLen
    ensures s.state != Finished ==> InStep(e.m, s, mgr, s.tokens[..s.cursor])
    ensures s.state != Finished && s.cursor == s.promptLen ==> logits == Logits(e.m, F32, s.tokens)
    ensures PagedStore.SameOutside(old(mgr.rows), mgr.rows, s.kv.table)
  {
    hide PagedStore.Mirrors, Model.Valid, Hidden, TakeBlock, SameOutside, InStep, TokensOk, PrefillRun, PrefillTrace;
    ghost var size := mgr.geo.blockSize;
    left, logits, fed := budget, [], [];
    SameReflexive(mgr.rows, s.kv.table);
    InStepMeans(e.m, s, mgr, s.tokens[..s.cursor]);
    while left > 0 && s.cursor < s.promptLen
      invariant s.tokens == old(s.tokens) && s.cursor <= s.promptLen == |s.tokens| && s.state == Prefilling
      invariant mgr.Valid() && s.kv.mgr == mgr && InStep(e.m, s, mgr, s.tokens[..s.cursor])
      invariant PrefillRun(size, s.View(), mgr.freeList, left)
        == PrefillRun(size, old(s.View()), old(mgr.freeList), budget)
      invariant fed + PrefillTrace(size, s.View(), mgr.freeList, left)
             == PrefillTrace(size, old(s.View()), old(mgr.freeList), budget)
      invariant s.cursor == s.promptLen ==> logits == Logits(e.m, F32, s.tokens)
      invariant SameOutside(old(mgr.rows), mgr.rows, s.kv.table)
      decreases left
    {
      ghost var before, held := mgr.rows, s.kv.table;
      RunStep(size, s.View(), mgr.freeList, left);
      var ok, row;
      ghost var went;
      ok, row, went := FeedOne(e, s, mgr);
      ghost var rest := if ok then PrefillTrace(size, s.View(), mgr.freeList, left - 1) else [];
      assert (fed + went) + rest == fed + (went + rest);
      fed := fed + went;
      SameTransitive(old(mgr.rows), before, mgr.rows, held, s.kv.table);
      if !ok { return; }
      logits := row;
      left := left - 1;
    }
    RunEnd(size, s.View(), mgr.freeList, left);
  }

  /** One position of a run: the pool refuses, or the rest is the run from there. */
  lemma RunStep(size: nat, q: SeqV, free: seq<nat>, budget: nat)
    requires size > 0 && budget > 0 && q.cursor < q.promptLen
    ensures var t := TakeBlock(free, q.table, q.cursor, size);
      var next := q.(cursor := q.cursor + 1, table := t.table);
      && PrefillRun(size, q, free, budget)
           == (if t.ok then PrefillRun(size, next, t.free, budget - 1) else (q.Finish(Capacity), free, budget))
      && PrefillTrace(size, q, free, budget)
           == if t.ok then [Feed(q.id, q.cursor)] + PrefillTrace(size, next, t.free, budget - 1) else []
  {
  }

  lemma RunEnd(size: nat, q: SeqV, free: seq<nat>, budget: nat)
    requires size > 0 && (budget == 0 || q.cursor >= q.promptLen)
    ensures PrefillRun(size, q, free, budget) == (q, free, budget) && PrefillTrace(size, q, free, budget) == []
  {
  }

  lemma InStepMeans(m: Model, s: Sequence, mgr: BlockManager, fed: seq<int>)
    requires InStep(m, s, mgr, fed)
    ensures mgr.Valid() && s.kv.mgr == mgr && mgr.geo.blockSize > 0
  {
  }

  /** A live sequence is right about its request and in step with its cache. */
  ghost predicate Ready(m: Model, s: Sequence, mgr: BlockManager, r: Request)
    reads s, s.kv, mgr, mgr.pool
  {
    m.Valid() && mgr.geo.blockSize > 0 && SeqOk(m, mgr.geo.blockSize, r, s.View()) && InStep(m, s, mgr, Fed(s.View()))
  }

  /** One sequence's turn in the prefill pass. */
  method PrefillOne(e: Engine, s: Sequence, mgr: BlockManager, budget: nat, ghost r: Request)
    returns (left: nat, ghost fed: seq<Feed>)
    requires Ready(e.m, s, mgr, r) && s.state == Prefilling
    modifies e, s, s.kv, mgr, mgr.pool
    ensures mgr.Valid() && s.kv.mgr == mgr
    ensures (s.View(), mgr.freeList, left)
      == PrefillTurn(e.m, mgr.geo.blockSize, old(s.View()), old(mgr.freeList), budget)
    ensures fed == PrefillTrace(mgr.geo.blockSize, old(s.View()), old(mgr.freeList), budget)
    ensures Held(e.m, mgr.rows, mgr.geo.blockSize, s.View())
    ensures PagedStore.SameOutside(old(mgr.rows), mgr.rows, s.kv.table)
  {
    hide PagedStore.Mirrors, Model.Valid, Hidden, SameOutside, PrefillRun, PrefillTrace, Sampled;
    ghost var q := s.View();
    PrefillTokens(mgr.geo.blockSize, q, mgr.freeList, budget);
    FedPrefilling(e.m, mgr.geo.blockSize, r, q);
    var logits;
    left, logits, fed := FeedPrompt(e, s, mgr, budget);
    ghost var ran := s.View();
    if s.state != Finished && s.cursor == s.promptLen {
      assert s.tokens[..s.cursor] == s.tokens;
      if s.maxNew == 0 {
        s.Finish(Length);
      } else {
        Sample(e, s, logits);
      }
    }
    HeldAfter(e.m, mgr.rows, mgr.geo.blockSize, ran, s.View());
  }

  lemma FedPrefilling(m: Model, size: nat, r: Request, q: SeqV)
    requires m.Valid() && size > 0 && SeqOk(m, size, r, q) && q.state == Prefilling
    ensures q.cursor < q.promptLen == |q.tokens| && Fed(q) == q.tokens[..q.cursor] && TokensOk(m, q.tokens)
  {
    hide OnTrack, GreedyOf;
  }

  lemma FedAfterPrompt(m: Model, q: SeqV)
    requires m.Valid() && |q.tokens| > 0
    ensures var q' := AfterPrompt(m, q);
      q'.table == q.table && (q'.state == Finished || (q'.state == Running && Fed(q') == q.tokens))
  {
    var q' := AfterPrompt(m, q);
    if q'.state == Running {
      assert q'.tokens[..|q.tokens|] == q.tokens;
    }
  }

  /** What a turn leaves stored is what the sequence still counts on. */
  lemma HeldAfter(m: Model, rows: Rows, size: nat, q: SeqV, q': SeqV)
    requires m.Valid() && size > 0 && |q.tokens| == q.promptLen > 0 && q.cursor <= q.promptLen
    requires q.state == Prefilling || q.state == Finished
    requires q.state != Finished ==> PagedHolds(m, rows, q.table, size, q.tokens[..q.cursor], m.layers)
    requires q' == if q.state == Finished || q.cursor != q.promptLen then q else AfterPrompt(m, q)
    ensures Held(m, rows, size, q')
  {
    hide PagedHolds, AfterPrompt;
    if q'.state == Finished {
      NothingFed(m, rows, size, q');
    } else if q.cursor == q.promptLen {
      FedAfterPrompt(m, q);
      assert q.tokens[..q.cursor] == q.tokens;
      if q'.state == Finished { NothingFed(m, rows, size, q'); }
    }
  }
}
