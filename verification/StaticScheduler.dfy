/** The static batch scheduler: one sweep over everything that was enqueued. */
module StaticScheduler {
  import opened Numeric
  import opened Meaning
  import opened PagedStore
  import opened PagedKv
  import opened Recall
  import opened EngineCore
  import opened Generation
  import opened Sequences
  import opened SequenceLists
  import opened SchedSpec
  import opened SeqProofs
  import opened Sums
  import opened LiveRows
  import opened SchedProofs
  import opened StaticSpec
  import DecodeRows
  import Scheduler
  import SchedProgress
  import SchedTheorems
  import opened SchedMemory

  // ---- One sequence ----

  /** One prompt position; the static scheduler counts positions itself. */
  method FeedAt(e: Engine, s: Sequence, mgr: BlockManager, i: nat) returns (ok: bool, logits: Row)
    requires e.m.Valid() && TokensOk(e.m, s.tokens) && s.state == Prefilling
    requires i < s.promptLen == |s.tokens| && InStep(e.m, s, mgr, s.tokens[..i])
    modifies e, s, s.kv, mgr, mgr.pool
    ensures s.tokens == old(s.tokens) && mgr.Valid() && s.kv.mgr == mgr
    ensures var t := TakeBlock(old(mgr.freeList), old(s.kv.table), i, mgr.geo.blockSize);
      && ok == t.ok && mgr.freeList == t.free
      && s.View() == if ok then old(s.View()).(table := t.table) else old(s.View()).Finish(Capacity)
    ensures ok ==> InStep(e.m, s, mgr, s.tokens[..i + 1])
    ensures ok && i + 1 == s.promptLen ==> logits == Logits(e.m, F32, s.tokens)
    ensures PagedStore.SameOutside(old(mgr.rows), mgr.rows, s.kv.table)
  {
    hide PagedStore.Mirrors, Model.Valid, Holds, View, Hidden, Geometry.PerToken, PagedStore.NoDuplicates, CeilDiv,
      SameOutside, TakeBlock, PagedHolds;
    assert s.tokens[..i] + [s.tokens[i]] == s.tokens[..i + 1];
    var last := i + 1 == s.promptLen;
    assert last ==> s.tokens[..i + 1] == s.tokens;
    var r;
    r, logits := e.ForwardStepPaged(s.tokens[i], i, s.kv, last, s.tokens[..i]);
    ok := r.value;
    if !ok { s.Finish(Capacity); }
  }

  /** A whole prompt, position by position. */
  method FeedWhole(e: Engine, s: Sequence, mgr: BlockManager) returns (logits: Row)
    requires e.m.Valid() && TokensOk(e.m, s.tokens) && s.state == Prefilling
    requires s.cursor == 0 < s.promptLen == |s.tokens| && InStep(e.m, s, mgr, [])
    modifies e, s, s.kv, mgr, mgr.pool
    ensures mgr.Valid() && s.kv.mgr == mgr && s.tokens == old(s.tokens)
    ensures var (q, free, left) := PrefillRun(mgr.geo.blockSize, old(s.View()), old(mgr.freeList), s.promptLen);
      && s.View() == q.(cursor := 0) && mgr.freeList == free && (s.state != Finished ==> q.cursor == q.promptLen)
    ensures s.state != Finished ==> InStep(e.m, s, mgr, s.tokens) && logits == Logits(e.m, F32, s.tokens)
    ensures PagedStore.SameOutside(old(mgr.rows), mgr.rows, s.kv.table)
  {
    hide PagedStore.Mirrors, Model.Valid, Hidden, TakeBlock, SameOutside, InStep, TokensOk;
    ghost var size := mgr.geo.blockSize;
    logits := [];
    SameReflexive(mgr.rows, s.kv.table);
    InStepMeans(e.m, s, mgr, []);
    assert s.tokens[..0] == [];
    var i := 0;
    while i < s.promptLen
      invariant 0 <= i <= s.promptLen == |s.tokens| && s.tokens == old(s.tokens) && s.state == Prefilling
      invariant s.cursor == 0
      invariant mgr.Valid() && s.kv.mgr == mgr && InStep(e.m, s, mgr, s.tokens[..i])
      invariant PrefillRun(size, s.View().(cursor := i), mgr.freeList, s.promptLen - i)
             == PrefillRun(size, old(s.View()), old(mgr.freeList), s.promptLen)
      invariant i == s.promptLen ==> logits == Logits(e.m, F32, s.tokens)
      invariant SameOutside(old(mgr.rows), mgr.rows, s.kv.table)
    {
      ghost var before, held := mgr.rows, s.kv.table;
      var ok, row := FeedAt(e, s, mgr, i);
      SameTransitive(old(mgr.rows), before, mgr.rows, held, s.kv.table);
      if !ok { return; }
      logits := row;
      i := i + 1;
    }
    assert s.tokens[..i] == s.tokens;
  }

  /** A sequence's turn in the sequential prefill. */
  method PrefillAlone(e: Engine, s: Sequence, mgr: BlockManager, ghost r: Request)
    requires Ready(e.m, s, mgr, r) && s.state == Waiting
    modifies e, s, s.kv, mgr, mgr.pool
    ensures mgr.Valid() && s.kv.mgr == mgr
    ensures (s.View(), mgr.freeList) == PrefillWhole(e.m, mgr.geo.blockSize, old(s.View()), old(mgr.freeList))
    ensures Held(e.m, mgr.rows, mgr.geo.blockSize, s.View())
    ensures PagedStore.SameOutside(old(mgr.rows), mgr.rows, s.kv.table)
  {
    hide PagedStore.Mirrors, Model.Valid, Hidden, SameOutside, PrefillRun, Sampled;
    ghost var q, free := s.View(), mgr.freeList;
    WaitingShape(e.m, mgr.geo.blockSize, r, q);
    s.state := Prefilling;
    PrefillTokens(mgr.geo.blockSize, s.View(), mgr.freeList, s.promptLen);
    var logits := FeedWhole(e, s, mgr);
    FinishWhole(e.m, mgr.geo.blockSize, mgr.rows, q, free);
    if s.state != Finished {
      if s.maxNew == 0 {
        s.Finish(Length);
      } else {
        Sample(e, s, logits);
      }
    }
  }

  /** What a whole prompt leaves: the turn of the specification, rows in place. */
  lemma FinishWhole(m: Model, size: nat, rows: Rows, q: SeqV, free: seq<nat>)
    requires m.Valid() && size > 0 && q.cursor == 0 < q.promptLen == |q.tokens|
    requires var (run, _, _) := PrefillRun(size, q.(state := Prefilling), free, q.promptLen);
      && run.tokens == q.tokens && run.promptLen == q.promptLen
      && (run.state != Finished ==>
            run.state == Prefilling && run.cursor == q.promptLen
              && PagedHolds(m, rows, run.table, size, q.tokens, m.layers))
    ensures var (run, free', _) := PrefillRun(size, q.(state := Prefilling), free, q.promptLen);
      var q' := if run.state == Finished then run.(cursor := 0) else AfterPrompt(m, run.(cursor := 0));
      PrefillWhole(m, size, q, free) == (q', free') && Held(m, rows, size, q')
  {
    hide PrefillRun, PagedHolds, AfterPrompt;
    var run := PrefillRun(size, q.(state := Prefilling), free, q.promptLen).0;
    if run.state == Finished {
      NothingFed(m, rows, size, run.(cursor := 0));
    } else {
      assert run.tokens[..run.cursor] == q.tokens;
      HeldAfter(m, rows, size, run, AfterPrompt(m, run));
      AfterCursor(m, run, 0);
      SampledState(m, run);
      HeldCursor(m, rows, size, AfterPrompt(m, run), 0);
    }
  }

  lemma SampledState(m: Model, q: SeqV)
    requires m.Valid() && |q.tokens| > 0
    ensures AfterPrompt(m, q).state == Running || AfterPrompt(m, q).state == Finished
  {
  }

  lemma WaitingShape(m: Model, size: nat, r: Request, q: SeqV)
    requires m.Valid() && size > 0 && SeqOk(m, size, r, q) && q.state == Waiting
    ensures q.cursor == 0 < q.promptLen == |q.tokens| && q.table == [] && Fed(q) == [] && TokensOk(m, q.tokens)
  {
    hide OnTrack, GreedyOf;
  }

  /** Sampling neither reads nor moves the cursor. */
  lemma AfterCursor(m: Model, q: SeqV, cursor: nat)
    requires m.Valid() && |q.tokens| > 0
    ensures AfterPrompt(m, q.(cursor := cursor)) == AfterPrompt(m, q).(cursor := cursor)
  {
  }

  lemma HeldCursor(m: Model, rows: Rows, size: nat, q: SeqV, cursor: nat)
    requires size > 0 && Held(m, rows, size, q) && q.state != Prefilling
    ensures Held(m, rows, size, q.(cursor := cursor))
  {
  }

  /** A sequence's turn in a lockstep round. */
  method DecodeAlone(e: Engine, s: Sequence, mgr: BlockManager, ghost r: Request)
    requires Ready(e.m, s, mgr, r) && s.state == Running
    modifies e, s, s.kv, mgr, mgr.pool
    ensures mgr.Valid() && s.kv.mgr == mgr
    ensures (s.View(), mgr.freeList) == DecodeTurn(e.m, mgr.geo.blockSize, old(s.View()), old(mgr.freeList))
    ensures Held(e.m, mgr.rows, mgr.geo.blockSize, s.View())
    ensures PagedStore.SameOutside(old(mgr.rows), mgr.rows, s.kv.table)
  {
    hide PagedStore.Mirrors, Model.Valid, Hidden, SameOutside, Sampled, TakeBlock, PagedHolds, Holds, View, CeilDiv;
    ghost var q := s.View();
    RunningFed(e.m, mgr.geo.blockSize, r, q);
    var pos := |s.tokens| - 1;
    ghost var table := TakeBlock(mgr.freeList, s.kv.table, pos, mgr.geo.blockSize).table;
    var ok, logits := e.ForwardStepPaged(s.tokens[pos], pos, s.kv, true, s.tokens[..pos]);
    if !ok.value {
      s.Finish(Capacity);
      NothingFed(e.m, mgr.rows, mgr.geo.blockSize, s.View());
      return;
    }
    assert s.tokens[..pos] + [s.tokens[pos]] == s.tokens;
    Sample(e, s, logits);
    DecodeRows.DecodedHeld(e.m, mgr.rows, mgr.geo.blockSize, q, true, table);
  }

  lemma RunningFed(m: Model, size: nat, r: Request, q: SeqV)
    requires m.Valid() && size > 0 && SeqOk(m, size, r, q) && q.state == Running
    ensures |q.tokens| > 0 && TokensOk(m, q.tokens) && Fed(q) == q.tokens[..|q.tokens| - 1]
  {
    hide OnTrack, GreedyOf;
  }

  // ---- The scheduler ----

  class StaticBatchScheduler {
    const engine: Engine
    const mgr: BlockManager
    var nextId: nat
    var seqs: seq<Sequence>
    var results: seq<ResultV>

    // What `seqs` shows, every request ever accepted, every sequence ever made.
    ghost var qs: seq<SeqV>
    ghost var requests: seq<Request>
    ghost var made: seq<Sequence>

    ghost function Conf(): Config {
      Config(engine.m, mgr.geo.blockSize, mgr.geo.numBlocks, {}, 1)
    }

    /** Nothing pending has started, and ids are in order of arrival. */
    ghost predicate Pending()
      reads this
    {
      && Conf().Valid() && nextId == |made| == |requests|
      && AllOk(Conf(), requests, qs) && AllIn(qs, {Waiting}) && |qs| <= |requests|
      && forall i | 0 <= i < |qs| :: qs[i].id == |requests| - |qs| + i
    }

    ghost predicate Valid()
      reads this, mgr, mgr.pool, seqs, Caches(seqs)
    {
      && PoolFits(engine.m, mgr.geo) && mgr.Valid() && Owns(mgr.geo, mgr.freeList, [])
      && Pending() && Separate(made) && Shows(seqs, qs, made, mgr)
    }

    constructor (engine: Engine, mgr: BlockManager)
      requires engine.m.Valid() && mgr.Valid() && PoolFits(engine.m, mgr.geo) && Owns(mgr.geo, mgr.freeList, [])
      ensures this.engine == engine && this.mgr == mgr
      ensures Valid() && qs == [] && results == [] && requests == [] && made == []
    {
      this.engine, this.mgr, nextId, seqs, results := engine, mgr, 0, [], [];
      qs, requests, made := [], [], [];
    }

    lemma ValidMeans()
      requires Valid()
      ensures mgr.Valid() && Conf().Valid()
    {
      hide PagedStore.Mirrors, PoolFits, Owns, Separate, Shows;
    }

    method Enqueue(prompt: seq<int>, maxNew: int) returns (r: Result<()>)
      requires Valid()
      modifies this
      ensures Valid() && results == old(results)
      ensures old(made) <= made && forall i | |old(made)| <= i < |made| :: fresh(made[i]) && fresh(made[i].kv)
      ensures r.Success? <==> RequestOk(engine.m, prompt, maxNew)
      ensures r.Failure? ==> r.error == InvalidArgument && qs == old(qs) && requests == old(requests)
      ensures r.Success? ==>
        requests == old(requests) + [Request(prompt, maxNew)]
          && qs == old(qs) + [NewSeq(|old(requests)|, Request(prompt, maxNew))]
    {
      if |prompt| == 0 { return Failure(InvalidArgument); }
      if maxNew < 0 { return Failure(InvalidArgument); }
      if !TokensOk(engine.m, prompt) { return Failure(InvalidArgument); }
      if |prompt| + maxNew > engine.m.maxPos { return Failure(InvalidArgument); }
      hide Owns, PagedStore.Mirrors, PoolFits, Model.Valid, RequestOk, AllOk, AllIn, SeqOk, Config.Valid;
      Accept(prompt, maxNew);
      r := Success(());
    }

    method Accept(prompt: seq<int>, maxNew: nat)
      requires Valid() && RequestOk(engine.m, prompt, maxNew)
      modifies this`nextId, this`seqs, this`qs, this`requests, this`made
      ensures Valid()
      ensures old(made) <= made && forall i | |old(made)| <= i < |made| :: fresh(made[i]) && fresh(made[i].kv)
      ensures requests == old(requests) + [Request(prompt, maxNew)]
      ensures qs == old(qs) + [NewSeq(|old(requests)|, Request(prompt, maxNew))]
    {
      hide Owns, PagedStore.Mirrors, PoolFits, Model.Valid, SeqOk, RequestOk, AllOk, AllIn, Config.Valid;
      QueueGrows(Conf(), requests, Request(prompt, maxNew), qs);
      var s := new Sequence(nextId, prompt, maxNew, mgr);
      seqs := seqs + [s];
      nextId := nextId + 1;
      requests, qs, made := requests + [Request(prompt, maxNew)], qs + [NewSeq(|requests|, Request(prompt, maxNew))],
        made + [s];
    }

    /** What a turn at place `j` of the list starts from. */
    ghost predicate Underway(cur: seq<SeqV>)
      reads this, mgr, mgr.pool, seqs, Caches(seqs)
    {
      && Conf().Valid() && PoolFits(engine.m, mgr.geo) && mgr.Valid() && Separate(made) && Separate(seqs)
      && Shows(seqs, cur, made, mgr) && Coexist(engine.m, mgr.geo, mgr.rows, mgr.freeList, cur)
    }

    method PrefillAt(s: Sequence, ghost j: nat, ghost cur: seq<SeqV>)
      requires Underway(cur) && AllOk(Conf(), requests, cur) && j < |seqs| && s == seqs[j] && |cur| == |seqs|
      requires cur[j].state == Waiting
      modifies engine, mgr, mgr.pool, s, s.kv
      ensures |cur[j].tokens| > 0
      ensures var (q, free) := PrefillWhole(engine.m, mgr.geo.blockSize, cur[j], old(mgr.freeList));
        mgr.freeList == free && Underway(cur[j := q]) && AllOk(Conf(), requests, cur[j := q])
    {
      hide PagedStore.Mirrors, SameBlocks, Held, Coexist, PrefillWhole, Model.Valid, SeqOk, PoolFits, SameOutside;
      ghost var q, rows, free := cur[j], mgr.rows, mgr.freeList;
      assert q in cur && s.View() == q;
      Elsewhere(seqs, [], j);
      FrontReady(s, j, cur);
      WaitingShape(engine.m, mgr.geo.blockSize, requests[q.id], q);
      PrefillWholeOk(engine.m, mgr.geo.blockSize, requests[q.id], q, free);
      PrefillAlone(engine, s, mgr, requests[q.id]);
      CoexistAt(engine.m, mgr.geo, rows, mgr.rows, free, mgr.freeList, cur, j, s.View());
    }

    method DecodeAt(s: Sequence, ghost j: nat, ghost cur: seq<SeqV>)
      requires Underway(cur) && AllOk(Conf(), requests, cur) && j < |seqs| && s == seqs[j] && |cur| == |seqs|
      requires cur[j].state == Running
      modifies engine, mgr, mgr.pool, s, s.kv
      ensures |cur[j].tokens| > 0
      ensures var (q, free) := DecodeTurn(engine.m, mgr.geo.blockSize, cur[j], old(mgr.freeList));
        mgr.freeList == free && Underway(cur[j := q]) && AllOk(Conf(), requests, cur[j := q])
    {
      hide PagedStore.Mirrors, SameBlocks, Held, Coexist, DecodeTurn, Model.Valid, SeqOk, PoolFits, SameOutside;
      ghost var q, rows, free := cur[j], mgr.rows, mgr.freeList;
      assert q in cur && s.View() == q;
      Elsewhere(seqs, [], j);
      FrontReady(s, j, cur);
      RunningFed(engine.m, mgr.geo.blockSize, requests[q.id], q);
      DecodeTurnOk(engine.m, mgr.geo.blockSize, requests[q.id], q, free);
      DecodeAlone(engine, s, mgr, requests[q.id]);
      CoexistAt(engine.m, mgr.geo, rows, mgr.rows, free, mgr.freeList, cur, j, s.View());
    }

    lemma FrontReady(s: Sequence, j: nat, cur: seq<SeqV>)
      requires Underway(cur) && AllOk(Conf(), requests, cur) && j < |seqs| && s == seqs[j] && |cur| == |seqs|
      requires cur[j].state != Finished
      ensures cur[j].id < |requests| && Ready(engine.m, s, mgr, requests[cur[j].id])
    {
      hide PagedStore.Mirrors, Coexist, Model.Valid, SeqOk;
      assert cur[j] in cur;
      InFront(cur, j);
      CoexistPermutation(engine.m, mgr.geo, mgr.rows, mgr.freeList, cur, [cur[j]] + (cur[..j] + cur[j + 1..]));
      TurnReady(engine.m, s, mgr, cur[j], cur[..j] + cur[j + 1..], requests[cur[j].id]);
    }

    /** Prefill every sequence, one after the other. */
    method PrefillAll() returns (ghost cur: seq<SeqV>)
      requires Underway(qs) && Pending()
      modifies engine, mgr, mgr.pool, made, Caches(made)
      ensures HaveTokens(qs) && (cur, mgr.freeList) == PrefillPass(engine.m, mgr.geo.blockSize, qs, old(mgr.freeList))
      ensures Underway(cur)
    {
      hide Joined, Underway, PrefillPass, PrefillWhole, AllOk, AllIn, HaveTokens, Model.Valid, PoolFits,
        PagedStore.Mirrors;
      ghost var c, free := Conf(), mgr.freeList;
      AllHaveTokens(c, requests, qs);
      UnderwayMade(qs);
      cur := qs;
      var j := 0;
      assert qs[..0] == [] && qs[0..] == qs;
      JoinedStart(PrefillPass(c.m, c.size, qs, free));
      while j < |seqs|
        invariant 0 <= j <= |seqs| == |cur| == |qs| && cur[j..] == qs[j..]
        invariant Underway(cur) && AllOk(c, requests, cur) && HaveTokens(qs[j..])
        invariant Joined(PrefillPass(c.m, c.size, qs, free), cur[..j], PrefillPass(c.m, c.size, qs[j..], mgr.freeList))
      {
        ghost var before := mgr.freeList;
        assert cur[j] == qs[j..][0] && qs[j] in qs && qs[j..][1..] == qs[j + 1..];
        InQueue(qs, j);
        HaveTokensTail(qs[j..]);
        UnderwayMade(cur);
        PrefillPassStep(c.m, c.size, qs[j..], before);
        assert seqs[j] in seqs;
        PrefillAt(seqs[j], j, cur);
        ghost var q := PrefillWhole(c.m, c.size, cur[j], before).0;
        JoinedStep(PrefillPass(c.m, c.size, qs, free), cur[..j], q,
          PrefillPass(c.m, c.size, qs[j + 1..], mgr.freeList));
        assert cur[j := q][..j + 1] == cur[..j] + [q] && cur[j := q][j + 1..] == cur[j + 1..];
        cur := cur[j := q];
        j := j + 1;
      }
      PrefillPassNone(c.m, c.size, mgr.freeList);
      assert qs[j..] == [] && cur[..j] == cur;
      JoinedEnd(PrefillPass(c.m, c.size, qs, free), cur, mgr.freeList);
    }

    lemma UnderwayMade(cur: seq<SeqV>)
      requires Underway(cur)
      ensures |cur| == |seqs| && forall s | s in seqs :: s in made && s.kv in Caches(made)
    {
      hide Coexist, PagedStore.Mirrors, Model.Valid;
      ShowsMade(seqs, cur, made, mgr);
      CachesOf(made);
    }

    lemma InQueue(qs: seq<SeqV>, j: nat)
      requires AllIn(qs, {Waiting}) && j < |qs|
      ensures qs[j].state == Waiting
    {
      assert qs[j] in qs;
    }

    /** One decode step for every running sequence, each on its own. */
    method DecodeRound(ghost start: seq<SeqV>) returns (any: bool, ghost cur: seq<SeqV>)
      requires Underway(start) && AllOk(Conf(), requests, start) && HaveTokens(start)
      modifies engine, mgr, mgr.pool, made, Caches(made)
      ensures (cur, mgr.freeList) == DecodePass(engine.m, mgr.geo.blockSize, start, old(mgr.freeList))
      ensures Underway(cur) && AllOk(Conf(), requests, cur)
      ensures any <==> exists q :: q in start && q.state == Running
      ensures |cur| == |start| && forall i | 0 <= i < |start| ::
        if start[i].state == Running then SchedProgress.TookTurn(start[i], cur[i]) else cur[i] == start[i]
    {
      hide SchedProgress.TookTurn, Joined, Underway, DecodePass, DecodeTurn, AllOk, AllIn, HaveTokens, Model.Valid,
        PoolFits, PagedStore.Mirrors;
      ghost var c, free := Conf(), mgr.freeList;
      UnderwayMade(start);
      UnderwayConf(start);
      any, cur := false, start;
      var j := 0;
      assert start[..0] == [] && start[0..] == start;
      JoinedStart(DecodePass(c.m, c.size, start, free));
      while j < |seqs|
        invariant 0 <= j <= |seqs| == |cur| == |start| && cur[j..] == start[j..]
        invariant Underway(cur) && AllOk(c, requests, cur) && HaveTokens(start[j..])
        invariant any <==> exists i :: 0 <= i < j && start[i].state == Running
        invariant Joined(DecodePass(c.m, c.size, start, free), cur[..j],
          DecodePass(c.m, c.size, start[j..], mgr.freeList))
      {
        ghost var before := mgr.freeList;
        assert cur[j] == start[j..][0] && start[j..][1..] == start[j + 1..];
        HaveTokensTail(start[j..]);
        UnderwayMade(cur);
        UnderwayShows(cur, j);
        DecodePassStep(c.m, c.size, start[j..], before);
        assert seqs[j] in seqs;
        ghost var q := DecodeTurn(c.m, c.size, cur[j], before).0;
        if seqs[j].state == Running {
          any := true;
          DecodeAt(seqs[j], j, cur);
        }
        JoinedStep(DecodePass(c.m, c.size, start, free), cur[..j], q,
          DecodePass(c.m, c.size, start[j + 1..], mgr.freeList));
        assert cur[j := q][..j + 1] == cur[..j] + [q] && cur[j := q][j + 1..] == cur[j + 1..];
        assert q == cur[j] ==> cur[j := q] == cur;
        cur := cur[j := q];
        j := j + 1;
      }
      DecodePassNone(c.m, c.size, mgr.freeList);
      assert start[j..] == [] && cur[..j] == cur;
      JoinedEnd(DecodePass(c.m, c.size, start, free), cur, mgr.freeList);
      SchedProgress.PassTakesTurns(c.m, c.size, start, free);
    }

    /** Blocks back and results out, in enqueue order. */
    method Drain(ghost cur: seq<SeqV>)
      requires Underway(cur)
      modifies this`results, mgr, made, Caches(made)
      ensures mgr.Valid() && mgr.freeList == Release(old(mgr.freeList), cur)
      ensures results == old(results) + Snapshots(cur)
    {
      hide PagedStore.Mirrors, Exclusive, OneEach, Release, Model.Valid, PoolFits, AllHeld;
      UnderwayMade(cur);
      assert seqs[0..] == seqs && cur[0..] == cur;
      var j := 0;
      while j < |seqs|
        invariant 0 <= j <= |seqs| == |cur| && mgr.Valid()
        invariant Shows(seqs[j..], cur[j..], made, mgr) && Exclusive(mgr.geo.numBlocks, mgr.freeList, cur[j..])
        invariant results == old(results) + Snapshots(cur[..j])
        invariant Release(mgr.freeList, cur[j..]) == Release(old(mgr.freeList), cur)
      {
        hide Shows;
        ghost var tail, tailV := seqs[j + 1..], cur[j + 1..];
        assert seqs[j..][1..] == tail && cur[j..] == [cur[j]] + tailV && cur[j..][1..] == tailV
          && cur[..j + 1] == cur[..j] + [cur[j]];
        Scheduler.ReleaseStep(mgr.freeList, cur[j..]);
        ShowsHead(seqs[j..], cur[j..], made, mgr);
        SeparateTail(seqs, j);
        assert seqs[j] in seqs;
        DrainOne(seqs[j], cur[j], tail, tailV);
        j := j + 1;
      }
      assert cur[j..] == [] && cur[..j] == cur;
      Scheduler.ReleaseNone(mgr.freeList);
    }

    method DrainOne(s: Sequence, ghost q: SeqV, ghost tail: seq<Sequence>, ghost tailV: seq<SeqV>)
      requires mgr.Valid() && Shows([s], [q], made, mgr) && Shows(tail, tailV, made, mgr)
      requires (forall t | t in tail :: t != s && t.kv != s.kv)
      requires Exclusive(mgr.geo.numBlocks, mgr.freeList, [q] + tailV)
      modifies this`results, mgr, s.kv
      ensures mgr.Valid() && mgr.freeList == old(mgr.freeList) + q.table && results == old(results) + [Snapshot(q)]
      ensures Shows(tail, tailV, made, mgr) && Exclusive(mgr.geo.numBlocks, mgr.freeList, tailV)
    {
      hide PagedStore.Mirrors, Exclusive, Owns;
      assert [s][0].View() == [q][0];
      OwnsAt(mgr.geo, mgr.freeList, [q] + tailV, 0);
      Scheduler.ExclusiveReleased(mgr.geo.numBlocks, mgr.freeList, q, tailV);
      s.kv.ReleaseAll();
      results := results + [s.Result()];
    }

    /** Prefill everything, decode in lockstep until nothing runs, hand the blocks back.
        Every pending request gets its result, in enqueue order; and if the free list
        covers the needs of all of them, no result says "capacity". */
    method RunUntilDone()
      requires Valid()
      modifies this, engine, mgr, mgr.pool, made, Caches(made)
      ensures Valid() && made == old(made) && qs == [] && requests == old(requests)
      ensures multiset(mgr.freeList) == multiset(old(mgr.freeList))
      ensures |results| == |old(results)| + |old(qs)| && results[..|old(results)|] == old(results)
      ensures forall i | 0 <= i < |old(qs)| :: Answered(engine.m, requests, old(qs)[i], results[|old(results)| + i])
      ensures |old(mgr.freeList)| >= Sum(old(qs), Need(mgr.geo.blockSize)) ==>
        forall i | |old(results)| <= i < |results| :: results[i].reason != Capacity
    {
      hide Underway, PagedStore.Mirrors, Model.Valid, PoolFits, AllOk, AllIn, HaveTokens, PrefillPass, DecodePass,
        Shows, Separate, Sum, Need, Room, NoCapacity, SeqOk, Owns, Progress, Answered, Release, Snapshots;
      ghost var c, start, free, had := Conf(), qs, mgr.freeList, results;
      BeginUnderway();
      ghost var cur := PrefillAll();
      PrefillProgress(c, requests, start, free);
      var any := true;
      while any
        invariant Underway(cur) && Progress(c, requests, start, free, cur, mgr.freeList)
        invariant !any ==> AllIn(cur, {Finished})
        decreases Sum(cur, WeightOf()), any
        modifies engine, mgr, mgr.pool, made, Caches(made)
      {
        ghost var before, was := mgr.freeList, cur;
        ProgressMeans(c, requests, start, free, cur, before);
        any, cur := DecodeRound(was);
        RoundProgress(c, requests, start, free, was, before, any);
      }
      ghost var before := mgr.freeList;
      Drain(cur);
      seqs, qs := [], [];
      NothingPending(c, requests, made, mgr);
      Drained(c, requests, start, free, cur, before, mgr.geo);
      ResultsAnswer(c, requests, start, free, cur, before, had, results);
    }

    lemma BeginUnderway()
      requires Valid()
      ensures Underway(qs) && HaveTokens(qs)
    {
      hide PagedStore.Mirrors, Model.Valid, SeqOk, Held, Owns;
      AllHaveTokens(Conf(), requests, qs);
      NoTables(Conf(), requests, qs);
      WaitingCoexist(engine.m, mgr.geo, mgr.rows, mgr.freeList, qs);
      Strangers(seqs, qs, made, mgr);
    }

    lemma UnderwayShows(cur: seq<SeqV>, j: nat)
      requires Underway(cur) && j < |seqs| && |cur| == |seqs|
      ensures seqs[j].View() == cur[j]
    {
      hide Coexist, PagedStore.Mirrors, Model.Valid;
    }

    lemma UnderwayConf(cur: seq<SeqV>)
      requires Underway(cur)
      ensures Conf().Valid()
    {
      hide Coexist, PagedStore.Mirrors, Model.Valid;
    }
  }

  lemma NothingPending(c: Config, rs: seq<Request>, made: seq<Sequence>, mgr: BlockManager)
    requires c.Valid()
    ensures AllOk(c, rs, []) && AllIn([], {Waiting}) && Shows([], [], made, mgr)
  {
  }

  /** A pending request and the result it got. */
  ghost predicate Answered(m: Model, rs: seq<Request>, q: SeqV, x: ResultV)
    requires m.Valid()
  {
    x.id == q.id < |rs| && |rs[q.id].prompt| > 0 && Faithful(m, rs[q.id], x)
  }

  lemma SeparateTail(ss: seq<Sequence>, j: nat)
    requires Separate(ss) && j < |ss|
    ensures forall t | t in ss[j + 1..] :: t != ss[j] && t.kv != ss[j].kv
  {
  }

  /** What holds of the list throughout: right, conserved, the same requests, and with
      room for everybody nobody starved. */
  ghost predicate Progress(c: Config, rs: seq<Request>, start: seq<SeqV>, free: seq<nat>, cur: seq<SeqV>, now: seq<nat>)
    requires c.Valid()
  {
    && AllOk(c, rs, start) && AllOk(c, rs, cur) && AllIn(cur, {Running, Finished}) && SameIds(start, cur)
    && (forall b: nat, id: nat :: PassKeeps(start, free, cur, [], now, b, id))
    && (Room(c.size, start, free) ==> NoCapacity(cur) && Room(c.size, cur, now))
  }

  lemma ProgressMeans(c: Config, rs: seq<Request>, start: seq<SeqV>, free: seq<nat>, cur: seq<SeqV>, now: seq<nat>)
    requires c.Valid() && Progress(c, rs, start, free, cur, now)
    ensures AllOk(c, rs, cur) && HaveTokens(cur) && AllIn(cur, {Running, Finished})
  {
    hide AllOk, SeqOk, PassKeeps, Room;
    AllHaveTokens(c, rs, cur);
  }

  lemma PrefillProgress(c: Config, rs: seq<Request>, start: seq<SeqV>, free: seq<nat>)
    requires c.Valid() && AllOk(c, rs, start) && AllIn(start, {Waiting}) && HaveTokens(start)
    ensures var (cur, now) := PrefillPass(c.m, c.size, start, free); Progress(c, rs, start, free, cur, now)
  {
    hide AllOk, AllIn, PassKeeps, Room, NoCapacity, PrefillPass, HaveTokens, SameIds;
    var (cur, now) := PrefillPass(c.m, c.size, start, free);
    PrefillPassKeeps(c, rs, start, free, 0, 0);
    PrefillSameIds(c, rs, start, free);
    forall b: nat, id: nat
      ensures PassKeeps(start, free, cur, [], now, b, id) { PrefillPassKeeps(c, rs, start, free, b, id); }
    if Room(c.size, start, free) {
      PrefillNeverStarves(c, rs, start, free);
      RoomStays(c, rs, start, free, cur, now);
    }
  }

  lemma KeepsOn(qs: seq<SeqV>, free: seq<nat>, mid: seq<SeqV>, midFree: seq<nat>, qs': seq<SeqV>, free': seq<nat>,
      b: nat, id: nat)
    requires PassKeeps(qs, free, mid, [], midFree, b, id) && PassKeeps(mid, midFree, qs', [], free', b, id)
    ensures PassKeeps(qs, free, qs', [], free', b, id)
  {
  }

  /** A lockstep round makes progress, and less is left to do if anything ran; if
      nothing did, everything is finished. */
  lemma RoundProgress(c: Config, rs: seq<Request>, start: seq<SeqV>, free: seq<nat>, was: seq<SeqV>, before: seq<nat>,
      any: bool)
    requires c.Valid() && Progress(c, rs, start, free, was, before) && HaveTokens(was)
    requires any <==> exists q :: q in was && q.state == Running
    ensures var (cur, now) := DecodePass(c.m, c.size, was, before);
      && Progress(c, rs, start, free, cur, now)
      && Sum(cur, WeightOf()) <= Sum(was, WeightOf()) && (any ==> Sum(cur, WeightOf()) < Sum(was, WeightOf()))
      && (!any ==> AllIn(cur, {Finished}))
  {
    hide AllOk, PassKeeps, Room, NoCapacity, DecodePass, HaveTokens, Sum, SeqOk;
    var (cur, now) := DecodePass(c.m, c.size, was, before);
    DecodeKeeps(c, rs, was, before, 0, 0);
    DecodeSameIds(c.m, c.size, was, before);
    RoundLighter(c, rs, was, before);
    forall b: nat, id: nat ensures PassKeeps(start, free, cur, [], now, b, id) {
      DecodeKeeps(c, rs, was, before, b, id);
      KeepsOn(start, free, was, before, cur, now, b, id);
    }
    if Room(c.size, start, free) {
      DecodeNeverStarves(c, rs, was, before);
      RoomStays(c, rs, was, before, cur, now);
    }
    if !any { NothingRuns(c.m, c.size, was, before); }
  }

  lemma {:induction false} NothingRuns(m: Model, size: nat, qs: seq<SeqV>, free: seq<nat>)
    requires m.Valid() && size > 0 && HaveTokens(qs) && forall q | q in qs :: q.state != Running
    ensures DecodePass(m, size, qs, free) == (qs, free)
    decreases |qs|
  {
    if |qs| > 0 {
      assert qs[0] in qs && forall q | q in qs[1..] :: q in qs;
      HaveTokensTail(qs);
      DecodePassStep(m, size, qs, free);
      NothingRuns(m, size, qs[1..], free);
      assert [qs[0]] + qs[1..] == qs;
    }
  }

  /** Once drained the free list is a permutation of what it was. */
  lemma Drained(c: Config, rs: seq<Request>, start: seq<SeqV>, free: seq<nat>, cur: seq<SeqV>, before: seq<nat>,
      g: Geometry)
    requires c.Valid() && Progress(c, rs, start, free, cur, before) && AllIn(start, {Waiting}) && Owns(g, free, [])
    ensures multiset(Release(before, cur)) == multiset(free) && Owns(g, Release(before, cur), [])
  {
    hide AllOk, SeqOk, Room, NoCapacity, SameIds, Release, Owns;
    var after: seq<nat> := Release(before, cur);
    NoTables(c, rs, start);
    var gone, had: multiset<nat> := multiset(after), multiset(free);
    forall b: nat ensures gone[b] == had[b] {
      ReleaseCounts(before, cur, b);
      assert PassKeeps(start, free, cur, [], before, b, 0);
    }
    OwnsPermutation(g, free, after);
  }

  lemma OwnsPermutation(g: Geometry, free: seq<nat>, after: seq<nat>)
    requires Owns(g, free, []) && multiset(after) == multiset(free)
    ensures Owns(g, after, [])
  {
    forall b: nat ensures multiset(after)[b] <= 1 { SchedTheorems.OnceEach(free, b); }
    OnceMeansDistinct(after);
    forall b: nat | b in after ensures b < g.numBlocks {
      assert b in multiset(after);
      assert b in multiset(free);
      assert b in free;
    }
  }

  lemma NoTables(c: Config, rs: seq<Request>, qs: seq<SeqV>)
    requires c.Valid() && AllOk(c, rs, qs) && AllIn(qs, {Waiting})
    ensures (forall b: nat :: Sum(qs, CountOf(b)) == 0) && Sum(qs, TableLen()) == 0
  {
    hide SeqOk;
    forall q | q in qs ensures q.table == [] { WaitingShape(c.m, c.size, rs[q.id], q); }
    forall b: nat ensures Sum(qs, CountOf(b)) == 0 { SumAtMost(qs, CountOf(b), 0); }
    SumAtMost(qs, TableLen(), 0);
  }

  lemma ResultsAnswer(c: Config, rs: seq<Request>, start: seq<SeqV>, free: seq<nat>, cur: seq<SeqV>, before: seq<nat>,
      had: seq<ResultV>, results: seq<ResultV>)
    requires c.Valid() && Progress(c, rs, start, free, cur, before) && AllIn(start, {Waiting}) && AllIn(cur, {Finished})
    requires results == had + Snapshots(cur)
    ensures |results| == |had| + |start| && results[..|had|] == had
    ensures forall i | 0 <= i < |start| :: Answered(c.m, rs, start[i], results[|had| + i])
    ensures |free| >= Sum(start, Need(c.size)) ==> forall i | |had| <= i < |results| :: results[i].reason != Capacity
  {
    hide SeqOk, PassKeeps, Faithful, Need, Sum;
    NoTables(c, rs, start);
    forall i | 0 <= i < |start| ensures Answered(c.m, rs, start[i], results[|had| + i]) {
      assert cur[i] in cur && results[|had| + i] == Snapshot(cur[i]);
      FinishedIsFaithful(c.m, c.size, rs[cur[i].id], cur[i]);
      SchedTheorems.SeqOkMeans(c.m, c.size, rs[cur[i].id], cur[i]);
    }
    if |free| >= Sum(start, Need(c.size)) {
      forall i | |had| <= i < |results| ensures results[i].reason != Capacity {
        assert results[i] == Snapshot(cur[i - |had|]) && cur[i - |had|] in cur;
      }
    }
  }

  lemma WaitingCoexist(m: Model, g: Geometry, rows: Rows, free: seq<nat>, qs: seq<SeqV>)
    requires g.blockSize > 0 && Owns(g, free, []) && AllIn(qs, {Waiting})
    requires forall b: nat :: Sum(qs, CountOf(b)) == 0
    requires forall i, j | 0 <= i < j < |qs| :: qs[i].id != qs[j].id
    ensures Coexist(m, g, rows, free, qs)
  {
    hide Held, HasId, CountOf, Sum, Owns;
    FreeOnce(g, free);
    forall q | q in qs ensures Held(m, rows, g.blockSize, q) { NothingFed(m, rows, g.blockSize, q); }
    forall id: nat ensures Sum(qs, HasId(id)) <= 1 { DistinctIds(qs, id); }
  }

  lemma FreeOnce(g: Geometry, free: seq<nat>)
    requires Owns(g, free, [])
    ensures forall b: nat :: multiset(free)[b] <= if b < g.numBlocks then 1 else 0
  {
    forall b: nat ensures multiset(free)[b] <= if b < g.numBlocks then 1 else 0 { SchedTheorems.OnceEach(free, b); }
  }

  lemma {:induction false} DistinctIds(qs: seq<SeqV>, id: nat)
    requires forall i, j | 0 <= i < j < |qs| :: qs[i].id != qs[j].id
    ensures Sum(qs, HasId(id)) <= 1
    ensures Sum(qs, HasId(id)) == 1 ==> exists i :: 0 <= i < |qs| && qs[i].id == id
    decreases |qs|
  {
    if |qs| > 0 {
      DistinctIds(qs[1..], id);
      if Sum(qs[1..], HasId(id)) == 1 {
        var i :| 0 <= i < |qs[1..]| && qs[1..][i].id == id;
        assert qs[i + 1].id == id && qs[0].id != qs[i + 1].id;
      } else if qs[0].id == id {
        assert qs[0].id == id;
      }
    }
  }

  lemma QueueGrows(c: Config, rs: seq<Request>, r: Request, qs: seq<SeqV>)
    requires c.Valid() && AllOk(c, rs, qs) && AllIn(qs, {Waiting}) && RequestOk(c.m, r.prompt, r.maxNew)
    ensures AllOk(c, rs + [r], qs + [NewSeq(|rs|, r)]) && AllIn(qs + [NewSeq(|rs|, r)], {Waiting})
  {
    hide SeqOk;
    EnqueueOk(c, SchedV([], [], [], [], [], 0, rs, [], []), r);
    AllOkGrows(c, rs, r, qs);
  }

  /** A pass is what it has done so far and what it does to the rest. */
  ghost predicate Joined(whole: (seq<SeqV>, seq<nat>), done: seq<SeqV>, rest: (seq<SeqV>, seq<nat>)) {
    whole.0 == done + rest.0 && whole.1 == rest.1
  }

  lemma JoinedStart(whole: (seq<SeqV>, seq<nat>))
    ensures Joined(whole, [], whole)
  {
    assert [] + whole.0 == whole.0;
  }

  lemma JoinedStep(whole: (seq<SeqV>, seq<nat>), done: seq<SeqV>, q: SeqV, rest: (seq<SeqV>, seq<nat>))
    requires Joined(whole, done, ([q] + rest.0, rest.1))
    ensures Joined(whole, done + [q], rest)
  {
    assert done + ([q] + rest.0) == (done + [q]) + rest.0;
  }

  lemma JoinedEnd(whole: (seq<SeqV>, seq<nat>), done: seq<SeqV>, free: seq<nat>)
    requires Joined(whole, done, ([], free))
    ensures whole == (done, free)
  {
    assert done + [] == done;
  }

  lemma HaveTokensTail(qs: seq<SeqV>)
    requires HaveTokens(qs) && |qs| > 0
    ensures |qs[0].tokens| > 0 && HaveTokens(qs[1..])
  {
  }

  lemma PrefillPassStep(m: Model, size: nat, qs: seq<SeqV>, free: seq<nat>)
    requires m.Valid() && size > 0 && |qs| > 0 && HaveTokens(qs) && HaveTokens(qs[1..])
    ensures var (q, mid) := PrefillWhole(m, size, qs[0], free);
      PrefillPass(m, size, qs, free)
        == ([q] + PrefillPass(m, size, qs[1..], mid).0, PrefillPass(m, size, qs[1..], mid).1)
  {
    hide PrefillWhole;
  }

  lemma PrefillPassNone(m: Model, size: nat, free: seq<nat>)
    requires m.Valid() && size > 0
    ensures HaveTokens([]) && PrefillPass(m, size, [], free) == ([], free)
  {
  }

  lemma DecodePassStep(m: Model, size: nat, qs: seq<SeqV>, free: seq<nat>)
    requires m.Valid() && size > 0 && |qs| > 0 && HaveTokens(qs) && HaveTokens(qs[1..])
    ensures var (q, mid) := DecodeTurn(m, size, qs[0], free);
      DecodePass(m, size, qs, free) == ([q] + DecodePass(m, size, qs[1..], mid).0, DecodePass(m, size, qs[1..], mid).1)
    ensures qs[0].state != Running ==> DecodeTurn(m, size, qs[0], free) == (qs[0], free)
  {
    hide Sampled, TakeBlock;
  }

  lemma DecodePassNone(m: Model, size: nat, free: seq<nat>)
    requires m.Valid() && size > 0
    ensures HaveTokens([]) && DecodePass(m, size, [], free) == ([], free)
  {
  }
}
