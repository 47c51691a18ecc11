/** The continuous batch scheduler: sequences move between three lists in place, and
    every operation does to the state what the specification says. */
module Scheduler {
  import opened Numeric
  import opened Meaning
  import opened PagedStore
  import opened PagedKv
  import opened Recall
  import opened EngineCore
  import opened Generation
  import opened Sequences
  import opened SequenceLists
  import opened SchedSpec
  import opened SeqProofs
  import opened Sums
  import opened LiveRows
  import opened SchedProofs
  import opened SchedTheorems
  import opened SchedMemory
  import opened SchedResults
  import opened BatchTurns
  import opened DecodeRows
  import BatchStore
  import SchedProgress

  /** Some arrangement with the unfinished sequences in front; nothing is promised
      about the order on either side. */
  method Partition(list: seq<Sequence>, ghost qs: seq<SeqV>, ghost made: seq<Sequence>, ghost mgr: BlockManager)
    returns (kept: seq<Sequence>, gone: seq<Sequence>, ghost keptV: seq<SeqV>, ghost goneV: seq<SeqV>)
    requires Shows(list, qs, made, mgr)
    ensures Shows(kept, keptV, made, mgr) && Shows(gone, goneV, made, mgr) && Split(qs, keptV, goneV)
    ensures forall s | s in gone :: s in list
  {
    kept, gone, keptV, goneV := [], [], [], [];
    var i := 0;
    while i < |list|
      invariant 0 <= i <= |list|
      invariant Shows(kept, keptV, made, mgr) && Shows(gone, goneV, made, mgr) && Split(qs[..i], keptV, goneV)
      invariant forall s | s in gone :: s in list
    {
      hide Split;
      SplitOne(qs[..i], keptV, goneV, qs[i]);
      assert qs[..i + 1] == qs[..i] + [qs[i]];
      if list[i].state != Finished {
        kept, keptV := kept + [list[i]], keptV + [qs[i]];
      } else {
        gone, goneV := gone + [list[i]], goneV + [qs[i]];
      }
      i := i + 1;
    }
    assert qs[..|list|] == qs;
  }

  lemma SplitOne(qs: seq<SeqV>, kept: seq<SeqV>, gone: seq<SeqV>, q: SeqV)
    requires Split(qs, kept, gone)
    ensures q.state != Finished ==> Split(qs + [q], kept + [q], gone)
    ensures q.state == Finished ==> Split(qs + [q], kept, gone + [q])
  {
    assert multiset(qs + [q]) == multiset(qs) + multiset{q};
    assert multiset(kept + [q]) == multiset(kept) + multiset{q};
    assert multiset(gone + [q]) == multiset(gone) + multiset{q};
  }

  class ContinuousBatchScheduler {
    const engine: Engine
    const mgr: BlockManager
    const maxConcurrent: nat
    var budget: nat
    var nextId: nat
    var waiting: seq<Sequence>
    var prefilling: seq<Sequence>
    var running: seq<Sequence>
    var results: seq<ResultV>

    // The blocks that were free when the scheduler was built; any others belong to
    // somebody else.
    ghost const pool: set<nat>

    // The state as a value, how it came about, and every sequence ever made.
    ghost var st: SchedV
    ghost var run: seq<SchedV>
    ghost var made: seq<Sequence>

    ghost function Conf(): Config {
      Config(engine.m, mgr.geo.blockSize, mgr.geo.numBlocks, pool, maxConcurrent)
    }

    /** The fields and the objects are what `st` says they are. */
    ghost predicate Shown()
      reads this, mgr, mgr.pool, waiting, prefilling, running, Caches(waiting), Caches(prefilling), Caches(running)
    {
      && mgr.Valid() && mgr.freeList == st.free && results == st.results && budget == st.budget
      && nextId == |made| == |st.requests| && Separate(made)
      && Shows(waiting, st.waiting, made, mgr) && Shows(prefilling, st.prefilling, made, mgr)
        && Shows(running, st.running, made, mgr)
    }

    /** The state satisfies the invariant, and the pool holds what every live sequence
        has fed. */
    ghost predicate Sound()
      reads this, mgr, mgr.pool, waiting, prefilling, running, Caches(waiting), Caches(prefilling), Caches(running)
    {
      && Conf().Valid() && PoolFits(engine.m, mgr.geo)
      && Shown() && Inv(Conf(), st)
      && AllHeld(engine.m, mgr.rows, mgr.geo.blockSize, st.prefilling)
      && AllHeld(engine.m, mgr.rows, mgr.geo.blockSize, st.running)
    }

    /** And it was reached by a run: what holds of every run holds here. */
    ghost predicate Valid()
      reads this, mgr, mgr.pool, waiting, prefilling, running, Caches(waiting), Caches(prefilling), Caches(running)
    {
      Sound() && IsRun(Conf(), run) && run[|run| - 1] == st
    }

    constructor (engine: Engine, mgr: BlockManager, maxConcurrent: nat, budget: nat)
      requires engine.m.Valid() && mgr.Valid() && PoolFits(engine.m, mgr.geo)
      requires maxConcurrent > 0 && budget > 0
      requires NoDuplicates(mgr.freeList) && forall b | b in mgr.freeList :: b < mgr.geo.numBlocks
      ensures this.engine == engine && this.mgr == mgr && this.maxConcurrent == maxConcurrent
      ensures pool == FreeSet(mgr.freeList)
      ensures Valid() && Init(Conf(), st) && run == [st] && made == []
    {
      this.engine, this.mgr, this.maxConcurrent, this.budget := engine, mgr, maxConcurrent, budget;
      nextId, waiting, prefilling, running, results := 0, [], [], [], [];
      pool := FreeSet(mgr.freeList);
      st, run, made := Start(mgr.freeList, budget), [Start(mgr.freeList, budget)], [];
      new;
      hide Init, Inv, IsRun, PoolFits, PagedStore.Mirrors, Model.Valid, Held, NoDuplicates, FreeSet;
      StartsRun(Conf(), mgr.freeList, budget);
    }

    lemma ValidMeans()
      requires Valid()
      ensures mgr.Valid() && Conf().Valid() && IsRun(Conf(), run) && run[|run| - 1] == st
    {
      hide Inv, AllHeld, PoolFits, PagedStore.Mirrors, Separate, Shows, IsRun;
    }

    /** Records that the state has moved on. */
    ghost method Extend()
      requires Sound() && IsRun(Conf(), run) && Next(Conf(), run[|run| - 1], st)
      modifies this`run
      ensures Valid() && run == old(run) + [st]
    {
      hide Inv, AllHeld, PoolFits, Separate, PagedStore.Mirrors, IsRun, Next;
      RunGrows(Conf(), run, st);
      run := run + [st];
    }

    /** Refuses what `generate` would refuse; otherwise the request joins the queue. */
    method Enqueue(prompt: seq<int>, maxNew: int) returns (r: Result<()>)
      requires Valid()
      modifies this
      ensures Valid() && old(run) <= run
      ensures old(made) <= made && forall i | |old(made)| <= i < |made| :: fresh(made[i]) && fresh(made[i].kv)
      ensures r.Success? <==> RequestOk(engine.m, prompt, maxNew)
      ensures r.Failure? ==> r.error == InvalidArgument && st == old(st) && made == old(made) && run == old(run)
      ensures r.Success? ==> st == SchedSpec.Enqueue(old(st), Request(prompt, maxNew))
    {
      hide Valid;
      if |prompt| == 0 { return Failure(InvalidArgument); }
      if maxNew < 0 { return Failure(InvalidArgument); }
      if !TokensOk(engine.m, prompt) { return Failure(InvalidArgument); }
      if |prompt| + maxNew > engine.m.maxPos { return Failure(InvalidArgument); }
      Queue(prompt, maxNew);
      r := Success(());
    }

    method Queue(prompt: seq<int>, maxNew: nat)
      requires Valid() && RequestOk(engine.m, prompt, maxNew)
      modifies this`waiting, this`nextId, this`st, this`made, this`run
      ensures Valid() && st == SchedSpec.Enqueue(old(st), Request(prompt, maxNew)) && run == old(run) + [st]
      ensures old(made) <= made && forall i | |old(made)| <= i < |made| :: fresh(made[i]) && fresh(made[i].kv)
    {
      hide Inv, AllHeld, Shown, Model.Valid, Config.Valid, PoolFits, IsRun, Next, RequestOk;
      EnqueueKeeps(Conf(), st, Request(prompt, maxNew));
      EnqueueIsNext(Conf(), st, Request(prompt, maxNew));
      Accept(prompt, maxNew);
      Extend();
    }

    method Accept(prompt: seq<int>, maxNew: nat)
      requires Shown()
      modifies this`waiting, this`nextId, this`st, this`made
      ensures Shown() && st == SchedSpec.Enqueue(old(st), Request(prompt, maxNew))
      ensures old(made) <= made && forall i | |old(made)| <= i < |made| :: fresh(made[i]) && fresh(made[i].kv)
    {
      hide PagedStore.Mirrors;
      var s := new Sequence(nextId, prompt, maxNew, mgr);
      waiting := waiting + [s];
      nextId := nextId + 1;
      st, made := SchedSpec.Enqueue(st, Request(prompt, maxNew)), made + [s];
    }

    method RetireOne(s: Sequence, ghost q: SeqV, ghost a: seq<Sequence>, ghost aV: seq<SeqV>, ghost b: seq<Sequence>,
        ghost bV: seq<SeqV>, ghost c: seq<Sequence>, ghost cV: seq<SeqV>)
      requires mgr.Valid() && Separate(made) && Shows([s], [q], made, mgr)
      requires Shows(a, aV, made, mgr) && Shows(b, bV, made, mgr) && Shows(c, cV, made, mgr)
      requires OneEach([q] + cV + (aV + bV)) && Exclusive(mgr.geo.numBlocks, mgr.freeList, [q] + cV)
      modifies mgr, s.kv, this`results
      ensures results == old(results) + [Snapshot(q)]
      ensures mgr.Valid() && mgr.rows == old(mgr.rows) && mgr.freeList == old(mgr.freeList) + q.table
      ensures Shows(a, aV, made, mgr) && Shows(b, bV, made, mgr) && Shows(c, cV, made, mgr)
      ensures OneEach(cV + (aV + bV)) && Exclusive(mgr.geo.numBlocks, mgr.freeList, cV)
    {
      hide PagedStore.Mirrors, OneEach, Exclusive, Owns, Separate, NoDuplicates;
      assert [q] + cV + (aV + bV) == [q] + (cV + (aV + bV));
      HeadAlone(q, cV + (aV + bV));
      assert [s][0].View() == [q][0];
      OwnsAt(mgr.geo, mgr.freeList, [q] + cV, 0);
      ExclusiveReleased(mgr.geo.numBlocks, mgr.freeList, q, cV);
      assert forall x | x in aV || x in bV || x in cV :: x in cV + (aV + bV);
      Foreign(a, aV, made, mgr, s);
      Foreign(b, bV, made, mgr, s);
      Foreign(c, cV, made, mgr, s);
      s.kv.ReleaseAll();
      results := results + [s.Result()];
    }

    /** `finalize_finished` on one list: what is finished gives its blocks back and
        leaves a result. */
    method Sweep(list: seq<Sequence>, ghost qs: seq<SeqV>, ghost others: seq<Sequence>, ghost othersV: seq<SeqV>)
      returns (kept: seq<Sequence>, ghost keptV: seq<SeqV>, ghost goneV: seq<SeqV>)
      requires mgr.Valid() && Separate(made) && Shows(list, qs, made, mgr) && Shows(others, othersV, made, mgr)
      requires OneEach(qs + othersV) && Exclusive(mgr.geo.numBlocks, mgr.freeList, qs)
      modifies this`results, mgr, Caches(list)
      ensures mgr.Valid() && mgr.rows == old(mgr.rows)
      ensures Split(qs, keptV, goneV) && Shows(kept, keptV, made, mgr) && Shows(others, othersV, made, mgr)
      ensures results == old(results) + Snapshots(goneV) && mgr.freeList == Release(old(mgr.freeList), goneV)
    {
      hide PagedStore.Mirrors, Split, Exclusive, OneEach, Release, Separate;
      var gone;
      kept, gone, keptV, goneV := Partition(list, qs, made, mgr);
      SplitExclusive(mgr.geo.numBlocks, mgr.freeList, qs, keptV, goneV, othersV);
      InCaches(list, gone);
      Retire(gone, goneV, kept, keptV, others, othersV);
    }

    method Retire(gone: seq<Sequence>, ghost goneV: seq<SeqV>, ghost kept: seq<Sequence>, ghost keptV: seq<SeqV>,
        ghost others: seq<Sequence>, ghost othersV: seq<SeqV>)
      requires mgr.Valid() && Separate(made) && Shows(gone, goneV, made, mgr)
      requires Shows(kept, keptV, made, mgr) && Shows(others, othersV, made, mgr)
      requires OneEach(goneV + (keptV + othersV)) && Exclusive(mgr.geo.numBlocks, mgr.freeList, goneV)
      modifies this`results, mgr, Caches(gone)
      ensures mgr.Valid() && mgr.rows == old(mgr.rows)
      ensures Shows(kept, keptV, made, mgr) && Shows(others, othersV, made, mgr)
      ensures results == old(results) + Snapshots(goneV) && mgr.freeList == Release(old(mgr.freeList), goneV)
    {
      hide PagedStore.Mirrors, Exclusive, OneEach, Release, Shows, Separate;
      var i := 0;
      ShowsMade(gone, goneV, made, mgr);
      assert gone[0..] == gone && goneV[0..] == goneV;
      while i < |gone|
        invariant 0 <= i <= |gone| == |goneV|
        invariant mgr.Valid() && mgr.rows == old(mgr.rows)
        invariant Shows(kept, keptV, made, mgr) && Shows(others, othersV, made, mgr)
        invariant Shows(gone[i..], goneV[i..], made, mgr)
        invariant OneEach(goneV[i..] + (keptV + othersV)) && Exclusive(mgr.geo.numBlocks, mgr.freeList, goneV[i..])
        invariant results == old(results) + Snapshots(goneV[..i])
        invariant Release(mgr.freeList, goneV[i..]) == Release(old(mgr.freeList), goneV)
      {
        ghost var tail, tailV := gone[i + 1..], goneV[i + 1..];
        assert gone[i..][1..] == tail && goneV[i..] == [goneV[i]] + tailV && goneV[i..][1..] == tailV;
        assert goneV[..i + 1] == goneV[..i] + [goneV[i]];
        ReleaseStep(mgr.freeList, goneV[i..]);
        ShowsHead(gone[i..], goneV[i..], made, mgr);
        RetireOne(gone[i], goneV[i], kept, keptV, others, othersV, tail, tailV);
        i := i + 1;
      }
      assert goneV[i..] == [] && goneV[..i] == goneV;
      ReleaseNone(mgr.freeList);
    }

    /** New live lists, and the state that shows them. */
    method Arrange(waiting: seq<Sequence>, prefilling: seq<Sequence>, running: seq<Sequence>, ghost s: SchedV)
      requires mgr.Valid() && mgr.freeList == s.free && results == s.results && budget == s.budget
      requires nextId == |made| == |s.requests| && Separate(made)
      requires Shows(waiting, s.waiting, made, mgr) && Shows(prefilling, s.prefilling, made, mgr)
      requires Shows(running, s.running, made, mgr)
      modifies this`waiting, this`prefilling, this`running, this`st
      ensures Shown() && st == s && this.waiting == waiting && this.prefilling == prefilling && this.running == running
    {
      hide PagedStore.Mirrors, Separate;
      this.waiting, this.prefilling, this.running, st := waiting, prefilling, running, s;
    }

    ghost method Record(s: SchedV)
      requires mgr.Valid() && mgr.freeList == s.free && results == s.results && budget == s.budget
      requires nextId == |made| == |s.requests| && Separate(made)
      requires Shows(waiting, s.waiting, made, mgr) && Shows(prefilling, s.prefilling, made, mgr)
      requires Shows(running, s.running, made, mgr)
      modifies this`st
      ensures Shown() && st == s
    {
      hide PagedStore.Mirrors, Separate;
      st := s;
    }

    /** `finalize_finished(prefilling_)`. */
    method FinishPrefilling()
      requires Sound()
      modifies this, mgr, Caches(made)
      ensures Sound() && FinalizePrefilling(old(st), st) && made == old(made) && run == old(run)
    {
      hide Inv, AllHeld, PagedStore.Mirrors, Exclusive, OneEach, Split, Separate, Shows, Model.Valid, Config.Valid;
      ghost var s := st;
      LiveAlone(Conf(), st);
      ShowsMade(prefilling, st.prefilling, made, mgr);
      ShowsMade(running, st.running, made, mgr);
      ShowsJoin(running, st.running, waiting, st.waiting, made, mgr);
      var kept;
      ghost var keptV, goneV;
      kept, keptV, goneV := Sweep(prefilling, st.prefilling, running + waiting, st.running + st.waiting);
      ShowsParts(running, st.running, waiting, st.waiting, made, mgr);
      Arrange(waiting, kept, running, Drop(st.(prefilling := keptV), goneV));
      assert FinalizePrefilling(s, st);
      FinalizePrefillingKeeps(Conf(), s, st);
      SweptHeld(engine.m, mgr.rows, mgr.geo.blockSize, s.prefilling, keptV, goneV);
    }

    /** `finalize_finished(running_)`. */
    method FinishRunning()
      requires Sound()
      modifies this, mgr, Caches(made)
      ensures Sound() && FinalizeRunning(old(st), st) && made == old(made) && run == old(run)
    {
      hide Inv, AllHeld, PagedStore.Mirrors, Exclusive, OneEach, Split, Separate, Shows, Model.Valid, Config.Valid;
      ghost var s := st;
      LiveAlone(Conf(), st);
      ShowsMade(prefilling, st.prefilling, made, mgr);
      ShowsMade(running, st.running, made, mgr);
      ShowsJoin(prefilling, st.prefilling, waiting, st.waiting, made, mgr);
      var kept;
      ghost var keptV, goneV;
      kept, keptV, goneV := Sweep(running, st.running, prefilling + waiting, st.prefilling + st.waiting);
      ShowsParts(prefilling, st.prefilling, waiting, st.waiting, made, mgr);
      Arrange(waiting, prefilling, kept, Drop(st.(running := keptV), goneV));
      assert FinalizeRunning(s, st);
      FinalizeRunningKeeps(Conf(), s, st);
      SweptHeld(engine.m, mgr.rows, mgr.geo.blockSize, s.running, keptV, goneV);
    }

    /** The head of the queue starts prefilling. */
    method AdmitOne()
      requires Shown() && |waiting| > 0 && OneEach(st.waiting + (st.prefilling + st.running))
      modifies this`waiting, this`prefilling, this`running, this`st, waiting[0]
      ensures Shown() && made == old(made)
      ensures |old(st.waiting)| > 0
      ensures st == old(st).(waiting := old(st.waiting)[1..], prefilling :=
        old(st.prefilling) + [old(st.waiting)[0].(state := Prefilling)])
    {
      hide PagedStore.Mirrors, Separate, OneEach;
      var s, tail := waiting[0], waiting[1..];
      ghost var q, qs := st.waiting[0], st.waiting[1..];
      assert st.waiting + (st.prefilling + st.running) == [q] + (qs + (st.prefilling + st.running));
      HeadAlone(q, qs + (st.prefilling + st.running));
      assert forall x | x in qs || x in st.prefilling || x in st.running :: x in qs + (st.prefilling + st.running);
      ShowsHead(waiting, st.waiting, made, mgr);
      Foreign(tail, qs, made, mgr, s);
      Foreign(prefilling, st.prefilling, made, mgr, s);
      Foreign(running, st.running, made, mgr, s);
      s.state := Prefilling;
      Arrange(tail, prefilling + [s], running,
        st.(waiting := qs, prefilling := st.prefilling + [q.(state := Prefilling)]));
    }

    /** Admission in arrival order while there is room. */
    method AdmitWaiting()
      requires Sound() && AllIn(st.prefilling, {Prefilling})
      modifies this, made
      ensures Sound() && st == Admit(Conf(), old(st)) && made == old(made) && run == old(run)
      ensures SchedProgress.LetsIn(old(st), st, SchedProgress.Room(Conf(), old(st)))
    {
      hide Inv, AllHeld, Shows, AllIn, PagedStore.Mirrors, PoolFits, Separate, OneEach, Model.Valid,
        SchedProgress.LetsIn;
      ghost var s := st;
      ShowsMade(waiting, st.waiting, made, mgr);
      ShowsMade(prefilling, st.prefilling, made, mgr);
      ShowsMade(running, st.running, made, mgr);
      while |waiting| > 0 && |running| + |prefilling| < maxConcurrent
        invariant Sound() && AllIn(st.prefilling, {Prefilling}) && made == old(made) && run == old(run)
        invariant |waiting| == |st.waiting| && |prefilling| == |st.prefilling| && |running| == |st.running|
        invariant Admit(Conf(), st) == Admit(Conf(), s)
        decreases |waiting|
      {
        ghost var q := st.waiting[0].(state := Prefilling);
        QueueAlone(Conf(), st);
        AdmitOneKeeps(Conf(), st);
        NewcomerHeld(Conf(), mgr.rows, st);
        AllHeldSnoc(engine.m, mgr.rows, mgr.geo.blockSize, st.prefilling, q);
        ShowsMade(waiting, st.waiting, made, mgr);
        assert waiting[0] in made;
        AdmitOne();
        ShowsMade(waiting, st.waiting, made, mgr);
        ShowsMade(prefilling, st.prefilling, made, mgr);
        ShowsMade(running, st.running, made, mgr);
      }
      SchedProgress.AdmitFills(Conf(), s);
    }

    /** Inside the prefill pass: `prefilling[..i]` has had its turn. */
    ghost predicate Passing(i: nat, keptV: seq<SeqV>, restV: seq<SeqV>, runV: seq<SeqV>)
      reads this, mgr, mgr.pool, waiting, prefilling, running, Caches(waiting), Caches(prefilling), Caches(running)
    {
      && mgr.Valid() && mgr.geo.blockSize > 0 && Separate(made) && i <= |prefilling|
      && Shows(prefilling[..i], keptV, made, mgr) && Shows(prefilling[i..], restV, made, mgr)
      && Shows(running, runV, made, mgr) && Shows(waiting, st.waiting, made, mgr)
      && Coexist(engine.m, mgr.geo, mgr.rows, mgr.freeList, keptV + (restV + (runV + st.waiting)))
    }

    /** One sequence's turn, and the others as they were. */
    method TakeTurn(s: Sequence, left: nat, ghost q: SeqV, ghost others: seq<Sequence>, ghost othersV: seq<SeqV>,
        ghost r: Request)
      returns (left': nat, ghost fed: seq<Feed>)
      requires engine.m.Valid() && PoolFits(engine.m, mgr.geo) && mgr.Valid() && Separate(made)
      requires Shows([s], [q], made, mgr) && Shows(others, othersV, made, mgr)
      requires Coexist(engine.m, mgr.geo, mgr.rows, mgr.freeList, [q] + othersV)
      requires SeqOk(engine.m, mgr.geo.blockSize, r, q) && q.state == Prefilling
      modifies engine, s, s.kv, mgr, mgr.pool
      ensures mgr.Valid() && Shows([s], [s.View()], made, mgr) && Shows(others, othersV, made, mgr)
      ensures (s.View(), mgr.freeList, left') == PrefillTurn(engine.m, mgr.geo.blockSize, q, old(mgr.freeList), left)
      ensures fed == PrefillTrace(mgr.geo.blockSize, q, old(mgr.freeList), left)
      ensures Coexist(engine.m, mgr.geo, mgr.rows, mgr.freeList, [s.View()] + othersV)
    {
      hide PagedStore.Mirrors, SameOutside, SameBlocks, Held, Exclusive, PrefillTurn, PrefillTrace, Model.Valid, SeqOk;
      assert [s][0].View() == [q][0];
      HeadAlone(q, othersV);
      Foreign(others, othersV, made, mgr, s);
      TurnReady(engine.m, s, mgr, q, othersV, r);
      PrefillTurnOk(engine.m, mgr.geo.blockSize, r, q, mgr.freeList, left);
      ghost var rows, free := mgr.rows, mgr.freeList;
      left', fed := PrefillOne(engine, s, mgr, left, r);
      CoexistTurn(engine.m, mgr.geo, rows, mgr.rows, free, mgr.freeList, othersV, q, s.View());
    }

    /** One round of the prefill pass: a sequence that starts running leaves the list. */
    method AdvanceOne(i: nat, left: nat, ghost keptV: seq<SeqV>, ghost restV: seq<SeqV>, ghost runV: seq<SeqV>,
        ghost r: Request)
      returns (i': nat, left': nat, ghost fed: seq<Feed>)
      requires engine.m.Valid() && PoolFits(engine.m, mgr.geo) && Passing(i, keptV, restV, runV) && |restV| > 0
      requires i < |prefilling|
      requires SeqOk(engine.m, mgr.geo.blockSize, r, restV[0]) && restV[0].state == Prefilling && |restV[0].tokens| > 0
      modifies this`prefilling, this`running, engine, mgr, mgr.pool, prefilling[i], prefilling[i].kv
      ensures var (q, free, l) := PrefillTurn(engine.m, mgr.geo.blockSize, restV[0], old(mgr.freeList), left);
        && mgr.freeList == free && left' == l
        && (q.state == Running ==> i' == i && Passing(i', keptV, restV[1..], runV + [q]))
        && (q.state != Running ==> i' == i + 1 && Passing(i', keptV + [q], restV[1..], runV))
      ensures fed == PrefillTrace(mgr.geo.blockSize, restV[0], old(mgr.freeList), left)
      ensures |prefilling| - i' == old(|prefilling|) - i - 1
    {
      hide PagedStore.Mirrors, Coexist, PrefillTurn, PrefillTrace, Model.Valid, SeqOk, Shows, Separate, PoolFits;
      var s := prefilling[i];
      ghost var kept, tail := prefilling[..i], prefilling[i + 1..];
      ghost var q, tailV, waitV := restV[0], restV[1..], st.waiting;
      ShowsMade(kept, keptV, made, mgr);
      ShowsMade(prefilling[i..], restV, made, mgr);
      ShowsMade(running, runV, made, mgr);
      ShowsHead(prefilling[i..], restV, made, mgr);
      assert prefilling[i..][1..] == tail && prefilling[i..][0] == s;
      ShowsJoin(running, runV, waiting, waitV, made, mgr);
      ShowsJoin(tail, tailV, running + waiting, runV + waitV, made, mgr);
      ShowsJoin(kept, keptV, tail + (running + waiting), tailV + (runV + waitV), made, mgr);
      TurnFirst(keptV, restV, runV + waitV);
      CoexistPermutation(engine.m, mgr.geo, mgr.rows, mgr.freeList, keptV + (restV + (runV + waitV)),
        [q] + (keptV + (tailV + (runV + waitV))));
      left', fed := TakeTurn(s, left, q, kept + (tail + (running + waiting)), keptV + (tailV + (runV + waitV)), r);
      ShowsParts(kept, keptV, tail + (running + waiting), tailV + (runV + waitV), made, mgr);
      ShowsParts(tail, tailV, running + waiting, runV + waitV, made, mgr);
      ShowsParts(running, runV, waiting, waitV, made, mgr);
      i' := Place(i, s, s.View(), keptV, tailV, runV);
    }

    /** The list keeps `s`, unless it has started running. */
    method Place(i: nat, s: Sequence, ghost q: SeqV, ghost keptV: seq<SeqV>, ghost tailV: seq<SeqV>,
        ghost runV: seq<SeqV>)
      returns (i': nat)
      requires i < |prefilling| && s == prefilling[i] && mgr.Valid() && mgr.geo.blockSize > 0 && Separate(made)
      requires Shows([s], [q], made, mgr) && Shows(prefilling[..i], keptV, made, mgr)
      requires Shows(prefilling[i + 1..], tailV, made, mgr)
      requires Shows(running, runV, made, mgr) && Shows(waiting, st.waiting, made, mgr)
      requires Coexist(engine.m, mgr.geo, mgr.rows, mgr.freeList, [q] + (keptV + (tailV + (runV + st.waiting))))
      modifies this`prefilling, this`running
      ensures q.state == Running ==> i' == i && Passing(i', keptV, tailV, runV + [q])
      ensures q.state != Running ==> i' == i + 1 && Passing(i', keptV + [q], tailV, runV)
      ensures |prefilling| - i' == old(|prefilling|) - i - 1
    {
      hide PagedStore.Mirrors, Coexist, Separate;
      assert [s][0].View() == [q][0];
      TurnPlaced(q, keptV, tailV, runV, st.waiting);
      if s.state == Running {
        CoexistPermutation(engine.m, mgr.geo, mgr.rows, mgr.freeList, [q] + (keptV + (tailV + (runV + st.waiting))),
          keptV + (tailV + ((runV + [q]) + st.waiting)));
        running := running + [s];
        prefilling := prefilling[..i] + prefilling[i + 1..];
        i' := i;
        assert prefilling[..i'] == old(prefilling)[..i] && prefilling[i'..] == old(prefilling)[i + 1..];
      } else {
        CoexistPermutation(engine.m, mgr.geo, mgr.rows, mgr.freeList, [q] + (keptV + (tailV + (runV + st.waiting))),
          (keptV + [q]) + (tailV + (runV + st.waiting)));
        i' := i + 1;
        assert prefilling[..i'] == prefilling[..i] + [s];
      }
    }

    /** The prefill pass: turns in list order until the budget of the step is gone. */
    method AdvancePrefilling()
      requires Sound() && AllIn(st.prefilling, {Prefilling})
      modifies this, engine, mgr, mgr.pool, made, Caches(made)
      ensures Sound() && made == old(made) && run == old(run) && HaveTokens(old(st.prefilling))
      ensures st == AdvanceAll(Conf(), old(st))
    {
      hide Inv, AllHeld, Shows, AllIn, AllOk, PagedStore.Mirrors, PoolFits, Separate, Coexist, Model.Valid, Advance,
        PrefillTurn, PrefillTrace, HaveTokens, Passing, Rejoins;
      ghost var s := st;
      ghost var keptV, restV, runV := [], st.prefilling, st.running;
      ghost var fed: seq<Feed> := [];
      AdvanceAllKeeps(Conf(), s);
      PassBegins();
      ShowsMade(prefilling, st.prefilling, made, mgr);
      RejoinsStart(Conf(), s);
      InvLists(Conf(), s);
      var left: nat, i: nat := budget, 0;
      while i < |prefilling| && left > 0
        invariant i <= |prefilling| && |restV| == |prefilling| - i
        invariant Passing(i, keptV, restV, runV)
        invariant AllOk(Conf(), s.requests, restV) && AllIn(restV, {Prefilling}) && HaveTokens(restV)
        invariant Rejoins(Conf(), s, keptV, restV, runV, mgr.freeList, left, fed)
        decreases |prefilling| - i
        modifies this`prefilling, this`running, engine, mgr, mgr.pool, made, Caches(made)
      {
        OkSplit(Conf(), s.requests, restV, {Prefilling});
        ghost var q, rest, free, before := restV[0], restV[1..], mgr.freeList, left;
        PassMade(i, keptV, restV, runV);
        ghost var went;
        i, left, went := AdvanceOne(i, left, keptV, restV, runV, s.requests[q.id]);
        ghost var q' := PrefillTurn(engine.m, mgr.geo.blockSize, q, free, before).0;
        RejoinsTurn(Conf(), s, keptV, restV, runV, free, before, fed);
        fed := fed + went;
        if q'.state == Running { runV := runV + [q']; } else { keptV := keptV + [q']; }
        restV := rest;
      }
      RejoinsEnd(Conf(), s, keptV, restV, runV, mgr.freeList, left, fed);
      PassEnds(i, keptV, restV, runV);
      Record(s.(prefilling := keptV + restV, running := runV, free := mgr.freeList, fed := s.fed + fed));
    }

    lemma PassBegins()
      requires Sound()
      ensures Passing(0, [], st.prefilling, st.running)
    {
      hide PagedStore.Mirrors, Inv, AllHeld, Separate;
      AllCoexist(Conf(), mgr.geo, mgr.rows, st);
      assert prefilling[0..] == prefilling;
    }

    /** The sequence whose turn it is was made here. */
    lemma PassMade(i: nat, keptV: seq<SeqV>, restV: seq<SeqV>, runV: seq<SeqV>)
      requires Passing(i, keptV, restV, runV) && i < |prefilling|
      ensures prefilling[i] in made && prefilling[i].kv in Caches(made)
    {
      hide Coexist, PagedStore.Mirrors;
      ShowsMade(prefilling[i..], restV, made, mgr);
      assert prefilling[i] in prefilling[i..];
    }

    lemma PassEnds(i: nat, keptV: seq<SeqV>, restV: seq<SeqV>, runV: seq<SeqV>)
      requires Passing(i, keptV, restV, runV)
      ensures Shows(prefilling, keptV + restV, made, mgr) && Shows(running, runV, made, mgr)
      ensures Shows(waiting, st.waiting, made, mgr)
      ensures mgr.Valid() && mgr.geo.blockSize > 0
      ensures AllHeld(engine.m, mgr.rows, mgr.geo.blockSize, keptV + restV)
      ensures AllHeld(engine.m, mgr.rows, mgr.geo.blockSize, runV)
    {
      hide PagedStore.Mirrors, OneEach, Exclusive, Held;
      ShowsJoin(prefilling[..i], keptV, prefilling[i..], restV, made, mgr);
      assert prefilling[..i] + prefilling[i..] == prefilling;
      forall q | q in keptV + restV || q in runV ensures Held(engine.m, mgr.rows, mgr.geo.blockSize, q) {
        assert q in keptV + (restV + (runV + st.waiting));
      }
    }

    lemma RunningShown()
      requires Sound()
      ensures Shows(running, st.running, made, mgr)
    {
      hide Inv, AllHeld, PoolFits, PagedStore.Mirrors, Separate, Model.Valid;
    }

    /** Every running sequence joins the batch with its last token. */
    method Collect(ghost qs: seq<SeqV>)
      returns (batch: seq<Sequence>, tokens: seq<int>, positions: seq<nat>, kvs: seq<PagedKVCache>, ghost idx: seq<nat>)
      requires Sound() && qs == st.running && HaveTokens(qs)
      ensures Sound() && Picks(qs, idx) && |batch| == |kvs| == |idx|
      ensures forall k | 0 <= k < |idx| :: batch[k] == running[idx[k]] && kvs[k] == batch[k].kv
      ensures tokens == LastTokens(qs, idx) && positions == LastPositions(qs, idx)
    {
      hide Picks, LastTokens, LastPositions, Caches, Sound, Shown;
      RunningShown();
      batch, tokens, positions, kvs, idx := [], [], [], [], [];
      PicksNone();
      var j := 0;
      while j < |running|
        invariant 0 <= j <= |running| == |qs| && |batch| == |tokens| == |positions| == |kvs| == |idx|
        invariant Sound() && Picks(qs[..j], idx)
        invariant forall k | 0 <= k < |idx| :: idx[k] < j && batch[k] == running[idx[k]] && kvs[k] == batch[k].kv
        invariant tokens == LastTokens(qs[..j], idx) && positions == LastPositions(qs[..j], idx)
      {
        var s := running[j];
        PicksNext(qs, j, idx);
        if qs[j].state == Running { LastsNext(qs, j, idx); } else { LastsSame(qs, j, idx); }
        assert s.View() == qs[j];
        if s.state == Running {
          batch, tokens := batch + [s], tokens + [s.tokens[|s.tokens| - 1]];
          positions, kvs := positions + [|s.tokens| - 1], kvs + [s.kv];
          idx := idx + [j];
        }
        j := j + 1;
      }
      assert qs[..j] == qs;
    }

    /** The one forward pass of the batch. */
    method ForwardBatch(tokens: seq<int>, positions: seq<nat>, kvs: seq<PagedKVCache>, ghost qs: seq<SeqV>,
        ghost idx: seq<nat>)
      returns (alive: seq<bool>, logits: seq<Row>)
      requires engine.m.Valid() && mgr.Valid() && PoolFits(engine.m, mgr.geo)
      requires Picks(qs, idx) && tokens == LastTokens(qs, idx) && positions == LastPositions(qs, idx)
      requires Linked(mgr, kvs, PickedTables(qs, idx))
      requires RowsWaiting(engine.m, mgr.geo, mgr.rows, mgr.freeList, qs, idx)
      modifies engine, mgr, mgr.pool, kvs
      ensures var b := PassBatch(mgr.geo.blockSize, qs, idx, old(mgr.freeList));
        && alive == b.alive && mgr.freeList == b.free && mgr.Valid() && Linked(mgr, kvs, b.tables)
      ensures BatchOutcome(engine.m, mgr.geo.blockSize, old(mgr.rows), mgr.rows, old(mgr.freeList), qs, idx, logits)
    {
      hide PagedStore.Mirrors, BatchStore.SameOutsideAll, BatchStore.Written, BatchStore.BatchTake, RowsStepped,
        PagedHolds, BatchStore.Disjoint, Model.Valid, CeilDiv, PoolFits, Linked, BatchReady, RowsWaiting;
      RowsAreReady(engine.m, mgr, kvs, qs, idx);
      var r;
      r, logits := engine.ForwardDecodeBatch(mgr, tokens, positions, kvs, Histories(qs, idx), PickedTables(qs, idx));
      alive := r.value;
    }

    /** The same, as the lists see it. */
    method ForwardRows(tokens: seq<int>, positions: seq<nat>, kvs: seq<PagedKVCache>, ghost qs: seq<SeqV>,
        ghost idx: seq<nat>, ghost others: seq<Sequence>, ghost othersV: seq<SeqV>)
      returns (alive: seq<bool>, logits: seq<Row>)
      requires engine.m.Valid() && mgr.Valid() && PoolFits(engine.m, mgr.geo) && Separate(made)
      requires Shows(running, qs, made, mgr) && Shows(others, othersV, made, mgr) && OneEach(qs + othersV)
      requires Picks(qs, idx) && tokens == LastTokens(qs, idx) && positions == LastPositions(qs, idx)
      requires |kvs| == |idx| && forall k | 0 <= k < |idx| :: kvs[k] == running[idx[k]].kv
      requires RowsWaiting(engine.m, mgr.geo, mgr.rows, mgr.freeList, qs, idx)
      modifies engine, mgr, mgr.pool, kvs
      ensures mgr.Valid() && alive == PassBatch(mgr.geo.blockSize, qs, idx, old(mgr.freeList)).alive
      ensures mgr.freeList == PassBatch(mgr.geo.blockSize, qs, idx, old(mgr.freeList)).free
      ensures Shows(running, Retabled(qs, idx, PassBatch(mgr.geo.blockSize, qs, idx, old(mgr.freeList)).tables), made,
        mgr)
      ensures Shows(others, othersV, made, mgr)
      ensures BatchOutcome(engine.m, mgr.geo.blockSize, old(mgr.rows), mgr.rows, old(mgr.freeList), qs, idx, logits)
    {
      hide PagedStore.Mirrors, OneEach, BatchOutcome, RowsWaiting, Separate, Model.Valid, Retabled, PassBatch,
        LastTokens, LastPositions;
      Strangers(running + others, qs + othersV, made, mgr);
      KvsDistinct(running, others, qs, idx, kvs);
      KvsLinked(running, qs, idx, kvs, mgr, made);
      ghost var b := PassBatch(mgr.geo.blockSize, qs, idx, mgr.freeList);
      alive, logits := ForwardBatch(tokens, positions, kvs, qs, idx);
      RowsRetabled(running, qs, idx, kvs, b.tables, mgr, made);
    }

    /** One row's outcome: dead for want of a block, or one greedy sample. */
    method DecodeRow(s: Sequence, alive: bool, logits: Row, ghost j: nat, ghost q: SeqV, ghost table: seq<nat>,
        ghost cur: seq<SeqV>, ghost others: seq<Sequence>, ghost othersV: seq<SeqV>)
      requires engine.m.Valid() && j < |running| && running[j] == s && Separate(running + others)
      requires Shows(running, cur, made, mgr) && Shows(others, othersV, made, mgr)
      requires |q.tokens| > 0 && cur[j] == q.(table := table) && (!alive ==> table == q.table)
      requires alive ==> logits == Logits(engine.m, F32, q.tokens)
      modifies s
      ensures Shows(running, cur[j := Decoded(engine.m, q, alive, table)], made, mgr)
      ensures Shows(others, othersV, made, mgr)
    {
      hide Model.Valid, Sampled;
      Elsewhere(running, others, j);
      if !alive {
        s.Finish(Capacity);
      } else {
        Sample(engine, s, logits);
      }
      assert s.View() == Decoded(engine.m, q, alive, table);
    }

    /** The rows' outcomes, one after the other. */
    method DecodeRows(batch: seq<Sequence>, alive: seq<bool>, logits: seq<Row>, ghost rows: Rows, ghost s: SchedV,
        ghost idx: seq<nat>, ghost others: seq<Sequence>)
      requires Conf().Valid() && mgr.Valid() && Separate(running + others) && HaveTokens(s.running)
      requires Picks(s.running, idx) && |batch| == |idx| && |running| == |s.running|
      requires forall k | 0 <= k < |idx| :: batch[k] == running[idx[k]]
      requires var b := PassBatch(mgr.geo.blockSize, s.running, idx, s.free);
        && alive == b.alive && mgr.freeList == b.free
        && Shows(running, Retabled(s.running, idx, b.tables), made, mgr)
          && Shows(others, s.prefilling + s.waiting, made, mgr)
      requires BatchOutcome(engine.m, mgr.geo.blockSize, rows, mgr.rows, s.free, s.running, idx, logits)
      modifies batch
      ensures mgr.freeList == DecodeAll(Conf(), s).free
      ensures Shows(running, DecodeAll(Conf(), s).running, made, mgr)
      ensures Shows(others, s.prefilling + s.waiting, made, mgr)
    {
      hide Shows, PagedStore.Mirrors, Separate, Model.Valid, HaveTokens, PassBatch, BatchOutcome, DecodesUpTo, Retabled,
        DecodeAll, Decoded;
      ghost var qs, b := s.running, PassBatch(mgr.geo.blockSize, s.running, idx, s.free);
      ghost var cur := Retabled(qs, idx, b.tables);
      RetabledAt(engine.m, qs, idx, b.alive, b.tables);
      var i := 0;
      while i < |batch|
        invariant 0 <= i <= |batch|
        invariant Shows(running, cur, made, mgr) && Shows(others, s.prefilling + s.waiting, made, mgr)
        invariant DecodesUpTo(engine.m, qs, idx, cur, b.alive, b.tables, i)
      {
        ghost var q := qs[idx[i]];
        UpToAt(engine.m, qs, idx, cur, b.alive, b.tables, i);
        DeadTable(mgr.geo.blockSize, qs, idx, s.free, i);
        BatchLogits(engine.m, mgr.geo.blockSize, rows, mgr.rows, s.free, qs, idx, logits, i);
        ShowsMade(running, cur, made, mgr);
        DecodesNext(engine.m, qs, idx, cur, b.alive, b.tables, i, Decoded(engine.m, q, b.alive[i], b.tables[i]));
        DecodeRow(batch[i], alive[i], logits[i], idx[i], q, b.tables[i], cur, others, s.prefilling + s.waiting);
        cur := cur[idx[i] := Decoded(engine.m, q, b.alive[i], b.tables[i])];
        i := i + 1;
      }
      PassIsDecodeAll(Conf(), s, idx, cur);
    }

    lemma BatchMade(batch: seq<Sequence>, qs: seq<SeqV>, idx: seq<nat>)
      requires Shows(running, qs, made, mgr) && Picks(qs, idx) && |batch| == |idx|
      requires forall k | 0 <= k < |idx| :: batch[k] == running[idx[k]]
      ensures forall s | s in batch :: s in made && s.kv in Caches(made)
    {
      hide Caches;
      ShowsMade(running, qs, made, mgr);
      forall s | s in batch ensures s in made {
        var k :| 0 <= k < |batch| && batch[k] == s;
        assert running[idx[k]] in running;
      }
      CachesOf(made);
    }

    method DecodeBatch(batch: seq<Sequence>, tokens: seq<int>, positions: seq<nat>, kvs: seq<PagedKVCache>,
        ghost s: SchedV, ghost idx: seq<nat>, ghost others: seq<Sequence>)
      requires Sound() && s == st && Shows(others, s.prefilling + s.waiting, made, mgr)
      requires HaveTokens(s.running) && |running| == |s.running| && Picks(s.running, idx)
      requires |batch| == |kvs| == |idx| > 0
      requires forall k | 0 <= k < |idx| :: batch[k] == running[idx[k]] && kvs[k] == batch[k].kv
      requires tokens == LastTokens(s.running, idx) && positions == LastPositions(s.running, idx)
      modifies engine, mgr, mgr.pool, made, Caches(made)
      ensures mgr.Valid() && mgr.freeList == DecodeAll(Conf(), s).free
      ensures Shows(running, DecodeAll(Conf(), s).running, made, mgr)
      ensures Shows(others, s.prefilling + s.waiting, made, mgr)
      ensures AllHeld(engine.m, mgr.rows, mgr.geo.blockSize, DecodeAll(Conf(), s).prefilling)
      ensures AllHeld(engine.m, mgr.rows, mgr.geo.blockSize, DecodeAll(Conf(), s).running)
    {
      hide Inv, AllHeld, Shows, AllIn, AllOk, PagedStore.Mirrors, Separate, OneEach, Exclusive, Model.Valid, HaveTokens,
        Picks, PassBatch,
        BatchOutcome, RowsWaiting, Agrees, Decodes, DecodesUpTo, Retabled, DecodeAll, Decoded, PoolFits;
      ghost var c, qs := Conf(), s.running;
      InvLists(c, s);
      LiveAlone(c, s);
      PickedReady(c, mgr.geo, mgr.rows, s.requests, qs, idx, mgr.freeList);
      BatchMade(batch, qs, idx);
      ShowsJoin(running, qs, others, s.prefilling + s.waiting, made, mgr);
      Strangers(running + others, qs + (s.prefilling + s.waiting), made, mgr);
      PicksInside(qs, idx);
      ghost var rows, b := mgr.rows, PassBatch(c.size, qs, idx, mgr.freeList);
      var alive, logits := ForwardRows(tokens, positions, kvs, qs, idx, others, s.prefilling + s.waiting);
      BatchHeld(c, rows, mgr.rows, s, idx, logits);
      DecodeRows(batch, alive, logits, rows, s, idx, others);
    }

    /** One decode step for every running sequence, in one batch. */
    method DecodeRunning()
      requires Sound()
      modifies this`st, engine, mgr, mgr.pool, made, Caches(made)
      ensures Sound() && HaveTokens(old(st.running)) && st == DecodeAll(Conf(), old(st))
    {
      hide Inv, AllHeld, Shows, AllIn, AllOk, PagedStore.Mirrors, Separate, OneEach, Exclusive, Model.Valid, HaveTokens,
        Picks, PassBatch, BatchOutcome, RowsWaiting, Agrees, Decodes, DecodesUpTo, Retabled, DecodeAll, Decoded;
      ghost var s, others := st, prefilling + waiting;
      InvLists(Conf(), s);
      var batch, tokens, positions, kvs;
      ghost var idx;
      batch, tokens, positions, kvs, idx := Collect(s.running);
      if |batch| == 0 {
        NothingRuns(Conf(), s, idx);
        return;
      }
      ShowsJoin(prefilling, s.prefilling, waiting, s.waiting, made, mgr);
      ShowsMade(running, s.running, made, mgr);
      ShowsMade(prefilling, s.prefilling, made, mgr);
      DecodeBatch(batch, tokens, positions, kvs, s, idx, others);
      ShowsParts(prefilling, s.prefilling, waiting, s.waiting, made, mgr);
      DecodeAllFrame(Conf(), s);
      DecodeAllKeeps(Conf(), s);
      Record(DecodeAll(Conf(), s));
    }

    predicate Idle()
      reads this
    {
      |running| == 0 && |prefilling| == 0 && |waiting| == 0
    }

    lemma IdleIsIdle()
      requires Sound()
      ensures Idle() <==> st.Idle()
    {
      hide Inv, AllHeld, PoolFits, PagedStore.Mirrors, Separate, Model.Valid;
    }

    lemma QueueOrCap(s: SchedV)
      requires Sound() && SchedProgress.Progressed(Conf(), s, st)
      ensures |waiting| == 0 || |prefilling| + |running| == maxConcurrent
    {
      hide Inv, AllHeld, PoolFits, PagedStore.Mirrors, Separate, Model.Valid, LiveSum, SchedProgress.Turned,
        SchedProgress.TwoTokens;
    }

    /** The passes of an iteration, one after the other. */
    method Passes() returns (more: bool)
      requires Sound()
      modifies this, engine, mgr, mgr.pool, made, Caches(made)
      ensures Sound() && made == old(made) && run == old(run) && more == !st.Idle()
      ensures SchedSpec.Step(Conf(), old(st), st)
    {
      hide Inv, AllHeld, Shows, AllIn, AllOk, PagedStore.Mirrors, Separate, PoolFits, Model.Valid, HaveTokens, Idle,
        SchedV.Idle, FinalizePrefilling, FinalizeRunning, Admit, AdvanceAll, DecodeAll, Shown, SchedSpec.Step,
        SchedProgress.LetsIn;
      ghost var s := st;
      FinishPrefilling();
      ghost var s1 := st;
      FinalizePrefillingKeeps(Conf(), s, s1);
      FinishRunning();
      ghost var s2 := st;
      FinalizeRunningKeeps(Conf(), s1, s2);
      AdmitWaiting();
      AdmitKeeps(Conf(), s2);
      AdvancePrefilling();
      DecodeRunning();
      IdleIsIdle();
      more := !Idle();
      StepIs(Conf(), s, s1, s2, st);
    }

    /** One scheduler iteration. */
    method Step() returns (more: bool)
      requires Valid()
      modifies this, engine, mgr, mgr.pool, made, Caches(made)
      ensures Valid() && made == old(made) && run == old(run) + [st] && more == !st.Idle()
      ensures SchedSpec.Step(Conf(), old(st), st) && SchedProgress.Progressed(Conf(), old(st), st)
      ensures |waiting| == 0 || |prefilling| + |running| == maxConcurrent
    {
      hide Inv, AllHeld, PoolFits, Shown, IsRun, SchedSpec.Step, SchedProgress.Progressed, SchedV.Idle;
      ghost var s := st;
      more := Passes();
      SchedProgress.StepProgresses(Conf(), s, st);
      QueueOrCap(s);
      Extend();
    }

    method StepWhileBusy()
      requires Valid()
      modifies this, engine, mgr, mgr.pool, made, Caches(made)
      ensures Valid() && made == old(made) && st.Idle() && st.requests == old(st.requests) && old(run) <= run
      ensures NoResultLost(old(st), st)
    {
      hide Inv, AllHeld, Shown, PoolFits, Model.Valid, SchedSpec.Step, SchedV.Idle, IsRun, WeightOf, Sum, LiveSum,
        NoResultLost;
      ghost var s := st;
      var more := Step();
      StepKeeps(Conf(), s, st);
      StepLosesNone(Conf(), s, st);
      while more
        invariant Valid() && made == old(made) && more == !st.Idle() && st.requests == old(st.requests)
        invariant old(run) <= run && NoResultLost(old(st), st)
        decreases Pending(st)
      {
        s := st;
        more := Step();
        StepKeeps(Conf(), s, st);
        StepLosesNone(Conf(), s, st);
        NoneLostTransitive(old(st), s, st);
      }
    }

    /** What finished last leaves its results and its blocks. */
    method SweepBoth()
      requires Valid() && st.Idle()
      modifies this, mgr, Caches(made)
      ensures Valid() && made == old(made) && st.Idle() && st.requests == old(st.requests) && old(run) <= run
      ensures NoResultLost(old(st), st)
    {
      hide Inv, AllHeld, Shown, PoolFits, Model.Valid, FinalizePrefilling, FinalizeRunning, SchedV.Idle, IsRun,
        WeightOf, Sum, NoResultLost;
      ghost var s := st;
      FinishPrefilling();
      Extend();
      FinalizePrefillingKeeps(Conf(), s, st);
      StillIdle(s, st);
      SweepLosesNone(s, st);
      s := st;
      FinishRunning();
      Extend();
      FinalizeRunningKeeps(Conf(), s, st);
      StillIdle(s, st);
      SweepLosesNone(s, st);
      NoneLostTransitive(old(st), s, st);
    }

    /** Steps until nothing is left, then clears away what finished last.  Every
        request has then been answered once, in full or cut short by the pool; and the
        pool has cut nothing short if it could hold enough of the largest. */
    method RunUntilIdle()
      requires Valid()
      modifies this, engine, mgr, mgr.pool, made, Caches(made)
      ensures Valid() && made == old(made) && st.Idle() && st.requests == old(st.requests) && old(run) <= run
      ensures forall b: nat :: multiset(mgr.freeList)[b] == if b in pool then 1 else 0
      ensures forall most: nat :: Enough(Conf(), st.requests, most) ==> NeverStarved(st)
      ensures forall id: nat :: Sum(st.done, HasId(id)) == if id < |st.requests| then 1 else 0
      ensures NoResultLost(old(st), st)
    {
      hide Inv, AllHeld, Shows, PoolFits, PagedStore.Mirrors, Separate, Model.Valid, SchedV.Idle, IsRun, Enough,
        NeverStarved, NoResultLost;
      StepWhileBusy();
      ghost var s := st;
      SweepBoth();
      NoneLostTransitive(old(st), s, st);
      IdleState(Conf(), st);
      forall most: nat | Enough(Conf(), st.requests, most) ensures NeverStarved(st) {
        RunNeverStarves(Conf(), run, most);
      }
    }

    method SetMaxPrefillTokensPerStep(v: int) returns (r: Result<()>)
      requires Valid()
      modifies this`budget, this`st, this`run
      ensures Valid() && old(run) <= run
      ensures r == if v > 0 then Success(()) else Failure(InvalidArgument)
      ensures st == if v > 0 then old(st).(budget := v) else old(st)
    {
      hide Valid;
      if v <= 0 { return Failure(InvalidArgument); }
      ChangeBudget(v);
      r := Success(());
    }

    method ChangeBudget(v: nat)
      requires Valid() && v > 0
      modifies this`budget, this`st, this`run
      ensures Valid() && st == old(st).(budget := v) && run == old(run) + [st]
    {
      hide Inv, AllHeld, PoolFits, Model.Valid, Shown, IsRun, Next;
      BudgetKeeps(Conf(), st, v);
      BudgetIsNext(Conf(), st, v);
      SetBudget(v);
      Extend();
    }

    method SetBudget(v: nat)
      requires Shown()
      modifies this`budget, this`st
      ensures Shown() && st == old(st).(budget := v)
    {
      hide PagedStore.Mirrors, Separate;
      budget, st := v, st.(budget := v);
    }

    method ClearResults()
      requires Valid()
      modifies this`results, this`st, this`run
      ensures Valid() && old(run) <= run && st == old(st).(results := [])
    {
      hide Inv, AllHeld, PoolFits, Model.Valid, Shown, IsRun, Next;
      ClearKeeps(Conf(), st);
      ClearIsNext(Conf(), st);
      DropResults();
      Extend();
    }

    method DropResults()
      requires Shown()
      modifies this`results, this`st
      ensures Shown() && st == old(st).(results := [])
    {
      hide PagedStore.Mirrors, Separate;
      results, st := [], st.(results := []);
    }

    /** The results in enqueue order.  Each is faithful to its request; and once the
        scheduler is idle, if nothing was cleared, there is one for every request. */
    method Results() returns (out: seq<ResultV>)
      requires Valid()
      ensures out == SortedById(st.results)
      ensures forall x | x in out ::
        x.id < |st.requests| && |st.requests[x.id].prompt| > 0 && Faithful(engine.m, st.requests[x.id], x)
      ensures st.Idle() && |st.results| == |st.done| ==>
        |out| == |st.requests| && forall i | 0 <= i < |out| :: out[i].id == i
      ensures forall most: nat, x | Enough(Conf(), st.requests, most) && x in out ::
        x.id < |st.requests| && |st.requests[x.id].prompt| > 0
        && Outcome(x.tokens, x.reason) == GreedyOf(engine.m, st.requests[x.id])
    {
      hide Inv, AllHeld, Shows, PagedStore.Mirrors, Separate, PoolFits, Model.Valid, Faithful, SchedV.Idle, SortedById,
        IsRun, Enough, GreedyOf;
      out := SortedById(results);
      forall x | x in out
        ensures x.id < |st.requests| && |st.requests[x.id].prompt| > 0 && Faithful(engine.m, st.requests[x.id], x)
      {
        assert x in multiset(out) && x in multiset(st.results);
        var i :| 0 <= i < |st.results| && st.results[i] == x;
        ResultIsFaithful(Conf(), st, i);
      }
      if st.Idle() && |st.results| == |st.done| { ResultsAreComplete(Conf(), st); }
      forall most: nat, x | Enough(Conf(), st.requests, most) && x in out
        ensures x.id < |st.requests| && |st.requests[x.id].prompt| > 0
        ensures Outcome(x.tokens, x.reason) == GreedyOf(engine.m, st.requests[x.id])
      {
        assert x in multiset(out) && x in multiset(st.results);
        EnoughMemoryMeansGenerate(Conf(), run, most);
      }
    }
  }

  lemma StepIs(c: Config, s: SchedV, s1: SchedV, s2: SchedV, s': SchedV)
    requires c.Valid() && FinalizePrefilling(s, s1) && FinalizeRunning(s1, s2)
    requires HaveTokens(Admit(c, s2).prefilling) && HaveTokens(AdvanceAll(c, Admit(c, s2)).running)
    requires s' == DecodeAll(c, AdvanceAll(c, Admit(c, s2)))
    ensures SchedSpec.Step(c, s, s')
  {
    hide FinalizePrefilling, FinalizeRunning, Admit, AdvanceAll, DecodeAll, HaveTokens;
  }

  /** The state a scheduler starts in. */
  ghost function Start(free: seq<nat>, budget: nat): SchedV {
    SchedV([], [], [], [], free, budget, [], [], [])
  }

  function FreeSet(free: seq<nat>): set<nat> {
    set b | b in free
  }

  lemma StartsRun(c: Config, free: seq<nat>, budget: nat)
    requires c.Valid() && NoDuplicates(free) && budget > 0 && c.pool == FreeSet(free)
    ensures var s := Start(free, budget); Init(c, s) && Inv(c, s) && IsRun(c, [s])
  {
    hide Inv, NoDuplicates;
    InitOk(c, Start(free, budget));
  }

  lemma RunGrows(c: Config, run: seq<SchedV>, s: SchedV)
    requires c.Valid() && IsRun(c, run) && Next(c, run[|run| - 1], s)
    ensures IsRun(c, run + [s])
  {
    hide Next, Init;
  }

  lemma EnqueueIsNext(c: Config, s: SchedV, r: Request)
    requires c.Valid() && RequestOk(c.m, r.prompt, r.maxNew)
    ensures Next(c, s, SchedSpec.Enqueue(s, r))
  {
  }

  lemma BudgetIsNext(c: Config, s: SchedV, b: nat)
    requires c.Valid() && b > 0
    ensures Next(c, s, s.(budget := b))
  {
  }

  lemma ClearIsNext(c: Config, s: SchedV)
    requires c.Valid()
    ensures Next(c, s, s.(results := []))
  {
  }

  lemma StillIdle(s: SchedV, s': SchedV)
    requires s.Idle() && s'.waiting == s.waiting && |s'.prefilling| <= |s.prefilling| && |s'.running| <= |s.running|
    ensures s'.Idle()
  {
  }

  lemma BudgetKeeps(c: Config, s: SchedV, b: nat)
    requires c.Valid() && Inv(c, s) && b > 0
    ensures Inv(c, s.(budget := b))
  {
    hide AllOk, AllIn, Sum, CountOf, HasId;
    assert forall id: nat :: AllSum(s.(budget := b), HasId(id)) == AllSum(s, HasId(id));
    assert forall k: nat :: LiveSum(s.(budget := b), CountOf(k)) == LiveSum(s, CountOf(k));
  }

  lemma ClearKeeps(c: Config, s: SchedV)
    requires c.Valid() && Inv(c, s)
    ensures Inv(c, s.(results := []))
  {
    hide AllOk, AllIn, Sum, CountOf, HasId;
    assert forall id: nat :: AllSum(s.(results := []), HasId(id)) == AllSum(s, HasId(id));
    assert forall k: nat :: LiveSum(s.(results := []), CountOf(k)) == LiveSum(s, CountOf(k));
  }

  lemma DecodeAllFrame(c: Config, s: SchedV)
    requires c.Valid() && HaveTokens(s.running)
    ensures var s' := DecodeAll(c, s); s' == s.(running := s'.running, free := s'.free)
  {
  }

  lemma BatchLogits(m: Model, size: nat, rows: Rows, rows': Rows, free: seq<nat>, qs: seq<SeqV>, idx: seq<nat>,
      logits: seq<Row>, k: nat)
    requires size > 0 && Picks(qs, idx) && k < |idx| && BatchOutcome(m, size, rows, rows', free, qs, idx, logits)
    ensures var b := PassBatch(size, qs, idx, free);
      |logits| == |idx| && (b.alive[k] ==> logits[k] == Logits(m, F32, qs[idx[k]].tokens))
  {
    hide PagedHolds, PassBatch, CeilDiv;
    var q := qs[idx[k]];
    assert q.tokens == q.tokens[..|q.tokens| - 1] + [q.tokens[|q.tokens| - 1]];
  }

  lemma PassIsDecodeAll(c: Config, s: SchedV, idx: seq<nat>, cur: seq<SeqV>)
    requires c.Valid() && HaveTokens(s.running) && Picks(s.running, idx)
    requires var b := PassBatch(c.size, s.running, idx, s.free);
      DecodesUpTo(c.m, s.running, idx, cur, b.alive, b.tables, |idx|)
    ensures DecodeAll(c, s).running == cur && DecodeAll(c, s).free == PassBatch(c.size, s.running, idx, s.free).free
  {
    hide DecodePass, PassBatch, Decodes, DecodesUpTo;
    BatchIsPass(c.m, c.size, s.running, idx, s.free);
    var b := PassBatch(c.size, s.running, idx, s.free);
    DecodesAll(c.m, s.running, idx, cur, DecodeAll(c, s).running, b.alive, b.tables);
  }

  lemma NothingRuns(c: Config, s: SchedV, idx: seq<nat>)
    requires c.Valid() && HaveTokens(s.running) && Picks(s.running, idx) && |idx| == 0
    ensures DecodeAll(c, s) == s
  {
    hide DecodePass, Sampled;
    BatchIsPass(c.m, c.size, s.running, idx, s.free);
  }

  lemma KvsLinked(running: seq<Sequence>, qs: seq<SeqV>, idx: seq<nat>, kvs: seq<PagedKVCache>, mgr: BlockManager,
      made: seq<Sequence>)
    requires Shows(running, qs, made, mgr) && Picks(qs, idx) && |kvs| == |idx|
    requires forall k | 0 <= k < |idx| :: kvs[k] == running[idx[k]].kv
    requires forall k, l | 0 <= k < l < |kvs| :: kvs[k] != kvs[l]
    ensures Linked(mgr, kvs, PickedTables(qs, idx))
  {
    forall k | 0 <= k < |kvs| ensures kvs[k].mgr == mgr && kvs[k].table == PickedTables(qs, idx)[k] {
      assert running[idx[k]].View() == qs[idx[k]];
    }
  }

  lemma RowsAreReady(m: Model, mgr: BlockManager, kvs: seq<PagedKVCache>, qs: seq<SeqV>, idx: seq<nat>)
    requires mgr.Valid() && PoolFits(m, mgr.geo) && Picks(qs, idx)
    requires Linked(mgr, kvs, PickedTables(qs, idx)) && RowsWaiting(m, mgr.geo, mgr.rows, mgr.freeList, qs, idx)
    ensures BatchReady(m, mgr, kvs, PickedTables(qs, idx), Histories(qs, idx), LastPositions(qs, idx))
    ensures |kvs| == |idx| && mgr.geo.blockSize > 0 && forall t | t in LastTokens(qs, idx) :: 0 <= t < m.vocab
  {
    hide PagedStore.Mirrors, PagedHolds, BatchStore.Disjoint, CeilDiv;
  }

  /** Only tables have moved, and only those of the batch. */
  lemma RowsRetabled(running: seq<Sequence>, qs: seq<SeqV>, idx: seq<nat>, kvs: seq<PagedKVCache>,
      tables: seq<seq<nat>>, mgr: BlockManager, made: seq<Sequence>)
    requires Picks(qs, idx) && |running| == |qs| && |kvs| == |idx| == |tables| && Linked(mgr, kvs, tables)
    requires forall k | 0 <= k < |idx| :: kvs[k] == running[idx[k]].kv
    requires forall j | 0 <= j < |running| ::
      && running[j].View() == qs[j].(table := running[j].kv.table) && running[j].kv.mgr == mgr
      && running[j].id < |made| && made[running[j].id] == running[j]
      && (j !in idx ==> running[j].kv.table == qs[j].table)
    ensures Shows(running, Retabled(qs, idx, tables), made, mgr)
  {
    var cur := Retabled(qs, idx, tables);
    forall j | 0 <= j < |running| ensures running[j].View() == cur[j] {
      if j in idx {
        var k := PickOf(qs, idx, j);
        assert kvs[k].table == tables[k];
      }
    }
  }

  lemma KvsDistinct(running: seq<Sequence>, others: seq<Sequence>, qs: seq<SeqV>, idx: seq<nat>, kvs: seq<PagedKVCache>)
    requires |running| == |qs| && Picks(qs, idx) && |kvs| == |idx| && forall k | 0 <= k < |idx| ::
      kvs[k] == running[idx[k]].kv
    requires Separate(running + others)
    ensures forall k, l | 0 <= k < l < |kvs| :: kvs[k] != kvs[l]
    ensures forall k, j | 0 <= k < |kvs| && 0 <= j < |running| && j != idx[k] :: running[j].kv != kvs[k]
    ensures forall k, j | 0 <= k < |kvs| && 0 <= j < |others| :: others[j].kv != kvs[k]
  {
    var all := running + others;
    forall k, l | 0 <= k < l < |kvs| ensures kvs[k] != kvs[l] {
      assert idx[k] < idx[l] && all[idx[k]].kv != all[idx[l]].kv;
    }
    forall k, j | 0 <= k < |kvs| && 0 <= j < |running| && j != idx[k] ensures running[j].kv != kvs[k] {
      assert if j < idx[k] then all[j].kv != all[idx[k]].kv else all[idx[k]].kv != all[j].kv;
    }
    forall k, j | 0 <= k < |kvs| && 0 <= j < |others| ensures others[j].kv != kvs[k] {
      assert all[idx[k]].kv != all[|running| + j].kv;
    }
  }

  lemma PicksNone()
    ensures Picks([], [])
  {
  }

  lemma PicksNext(qs: seq<SeqV>, j: nat, idx: seq<nat>)
    requires j < |qs| && Picks(qs[..j], idx) && |qs[j].tokens| > 0
    ensures qs[j].state == Running ==> Picks(qs[..j + 1], idx + [j])
    ensures qs[j].state != Running ==> Picks(qs[..j + 1], idx)
  {
    forall i | 0 <= i < j && qs[i].state == Running ensures i in idx {
      assert qs[..j][i] == qs[i];
    }
  }

  lemma PicksBelow(qs: seq<SeqV>, idx: seq<nat>)
    requires Picks(qs, idx)
    ensures forall k | 0 <= k < |idx| :: idx[k] < |qs| && |qs[idx[k]].tokens| > 0
  {
  }

  lemma LastsNext(qs: seq<SeqV>, j: nat, idx: seq<nat>)
    requires j < |qs| && Picks(qs[..j], idx) && qs[j].state == Running && |qs[j].tokens| > 0
    ensures Picks(qs[..j + 1], idx + [j])
    ensures LastTokens(qs[..j + 1], idx + [j]) == LastTokens(qs[..j], idx) + [qs[j].tokens[|qs[j].tokens| - 1]]
    ensures LastPositions(qs[..j + 1], idx + [j]) == LastPositions(qs[..j], idx) + [|qs[j].tokens| - 1]
  {
    hide Picks, LastTokens, LastPositions;
    PicksNext(qs, j, idx);
    PicksBelow(qs[..j], idx);
    var now := idx + [j];
    forall k | 0 <= k < |idx| ensures qs[..j + 1][now[k]] == qs[..j][idx[k]] {
      assert now[k] == idx[k];
    }
  }

  lemma LastsSame(qs: seq<SeqV>, j: nat, idx: seq<nat>)
    requires j < |qs| && Picks(qs[..j], idx) && qs[j].state != Running && |qs[j].tokens| > 0
    ensures Picks(qs[..j + 1], idx)
    ensures LastTokens(qs[..j + 1], idx) == LastTokens(qs[..j], idx)
    ensures LastPositions(qs[..j + 1], idx) == LastPositions(qs[..j], idx)
  {
    hide Picks, LastTokens, LastPositions;
    PicksNext(qs, j, idx);
    PicksBelow(qs[..j], idx);
    forall k | 0 <= k < |idx| ensures qs[..j + 1][idx[k]] == qs[..j][idx[k]] {
    }
  }

  lemma AllCoexist(c: Config, g: Geometry, rows: Rows, s: SchedV)
    requires c.Valid() && Inv(c, s) && c.size == g.blockSize && c.blocks == g.numBlocks
    requires AllHeld(c.m, rows, g.blockSize, s.prefilling) && AllHeld(c.m, rows, g.blockSize, s.running)
    ensures Coexist(c.m, g, rows, s.free, [] + (s.prefilling + (s.running + s.waiting)))
  {
    hide Sorted, Fifo, ResultsAreLatest, Held;
    var all := s.prefilling + (s.running + s.waiting);
    assert [] + all == all;
    LiveAlone(c, s);
    WaitingHoldNothing(c, rows, s);
    forall b: nat ensures multiset(s.free)[b] + Sum(all, CountOf(b)) <= if b < c.blocks then 1 else 0 {
      SumAppend(s.prefilling, s.running + s.waiting, CountOf(b));
      SumAppend(s.running, s.waiting, CountOf(b));
      assert multiset(s.free)[b] + LiveSum(s, CountOf(b)) == if b in c.pool then 1 else 0;
    }
  }

  lemma WaitingHoldNothing(c: Config, rows: Rows, s: SchedV)
    requires c.Valid() && Inv(c, s)
    ensures forall b: nat :: Sum(s.waiting, CountOf(b)) == 0
    ensures AllHeld(c.m, rows, c.size, s.waiting)
  {
    hide Conserved, OncePerId, Fifo, ResultsAreLatest, Held, OnTrack, GreedyOf;
    forall q | q in s.waiting ensures q.table == [] && Held(c.m, rows, c.size, q) {
      NothingFed(c.m, rows, c.size, q);
    }
    forall b: nat ensures Sum(s.waiting, CountOf(b)) == 0 {
      SumAtMost(s.waiting, CountOf(b), 0);
    }
  }

  lemma InvLists(c: Config, s: SchedV)
    requires c.Valid() && Inv(c, s)
    ensures AllOk(c, s.requests, s.prefilling) && HaveTokens(s.prefilling)
    ensures AllOk(c, s.requests, s.running) && AllIn(s.running, {Running, Finished}) && HaveTokens(s.running)
  {
    hide AllOk, AllIn, HaveTokens;
    AllHaveTokens(c, s.requests, s.prefilling);
    AllHaveTokens(c, s.requests, s.running);
  }

  /** What the pass has done so far and what it has left to do make the whole pass. */
  ghost predicate Rejoins(c: Config, s: SchedV, keptV: seq<SeqV>, restV: seq<SeqV>, runV: seq<SeqV>, free: seq<nat>,
      left: nat, fed: seq<Feed>)
    requires c.Valid() && HaveTokens(s.prefilling) && HaveTokens(restV)
  {
    var whole, a := Advance(c.m, c.size, s.prefilling, s.free, s.budget), Advance(c.m, c.size, restV, free, left);
    && whole.kept == keptV + a.kept && s.running + whole.moved == runV + a.moved && whole.free == a.free
    && whole.fed == fed + a.fed
  }

  lemma RejoinsStart(c: Config, s: SchedV)
    requires c.Valid() && HaveTokens(s.prefilling)
    ensures Rejoins(c, s, [], s.prefilling, s.running, s.free, s.budget, [])
  {
    hide Advance, HaveTokens;
  }

  lemma RejoinsTurn(c: Config, s: SchedV, keptV: seq<SeqV>, restV: seq<SeqV>, runV: seq<SeqV>, free: seq<nat>,
      left: nat, fed: seq<Feed>)
    requires c.Valid() && HaveTokens(s.prefilling) && |restV| > 0 && HaveTokens(restV) && HaveTokens(restV[1..])
    requires left > 0
    requires |restV[0].tokens| > 0 && Rejoins(c, s, keptV, restV, runV, free, left, fed)
    ensures var (q, free', left') := PrefillTurn(c.m, c.size, restV[0], free, left);
      var fed' := fed + PrefillTrace(c.size, restV[0], free, left);
      && (q.state == Running ==> Rejoins(c, s, keptV, restV[1..], runV + [q], free', left', fed'))
      && (q.state != Running ==> Rejoins(c, s, keptV + [q], restV[1..], runV, free', left', fed'))
  {
    hide PrefillTurn, PrefillTrace, HaveTokens;
  }

  lemma RejoinsEnd(c: Config, s: SchedV, keptV: seq<SeqV>, restV: seq<SeqV>, runV: seq<SeqV>, free: seq<nat>, left: nat,
      fed: seq<Feed>)
    requires c.Valid() && HaveTokens(s.prefilling) && HaveTokens(restV) && (|restV| == 0 || left == 0)
    requires Rejoins(c, s, keptV, restV, runV, free, left, fed)
    ensures AdvanceAll(c, s) == s.(prefilling := keptV + restV, running := runV, free := free, fed := s.fed + fed)
  {
    hide PrefillTurn, HaveTokens;
  }

  lemma TurnFirst(keptV: seq<SeqV>, restV: seq<SeqV>, z: seq<SeqV>)
    requires |restV| > 0
    ensures multiset(keptV + (restV + z)) == multiset([restV[0]] + (keptV + (restV[1..] + z)))
  {
    assert restV == [restV[0]] + restV[1..];
    assert multiset(restV) == multiset{restV[0]} + multiset(restV[1..]);
  }

  lemma TurnPlaced(q: SeqV, keptV: seq<SeqV>, tailV: seq<SeqV>, runV: seq<SeqV>, waitV: seq<SeqV>)
    ensures multiset([q] + (keptV + (tailV + (runV + waitV)))) == multiset(keptV + (tailV + ((runV + [q]) + waitV)))
    ensures multiset([q] + (keptV + (tailV + (runV + waitV)))) == multiset((keptV + [q]) + (tailV + (runV + waitV)))
  {
  }

  lemma QueueAlone(c: Config, s: SchedV)
    requires c.Valid() && Inv(c, s)
    ensures OneEach(s.waiting + (s.prefilling + s.running))
  {
    hide Sorted, Fifo, ResultsAreLatest, Conserved;
    forall id: nat ensures Sum(s.waiting + (s.prefilling + s.running), HasId(id)) <= 1 {
      SumAppend(s.waiting, s.prefilling + s.running, HasId(id));
      SumAppend(s.prefilling, s.running, HasId(id));
      assert AllSum(s, HasId(id)) <= 1;
    }
  }

  lemma NewcomerHeld(c: Config, rows: Rows, s: SchedV)
    requires c.Valid() && Inv(c, s) && |s.waiting| > 0
    ensures Held(c.m, rows, c.size, s.waiting[0].(state := Prefilling))
  {
    hide Conserved, OncePerId, Fifo, ResultsAreLatest, OnTrack, GreedyOf;
    assert s.waiting[0] in s.waiting;
    assert Fed(s.waiting[0].(state := Prefilling)) == [];
  }

  lemma AllHeldSnoc(m: Model, rows: Rows, size: nat, qs: seq<SeqV>, q: SeqV)
    requires size > 0 && AllHeld(m, rows, size, qs) && Held(m, rows, size, q)
    ensures AllHeld(m, rows, size, qs + [q])
  {
    hide Held;
  }

  lemma SweptHeld(m: Model, rows: Rows, size: nat, qs: seq<SeqV>, kept: seq<SeqV>, gone: seq<SeqV>)
    requires size > 0 && Split(qs, kept, gone) && AllHeld(m, rows, size, qs)
    ensures AllHeld(m, rows, size, kept)
  {
    hide Held;
    forall q | q in kept ensures q in qs { assert q in multiset(kept) && q in multiset(qs); }
  }

  lemma ReleaseStep(free: seq<nat>, done: seq<SeqV>)
    requires |done| > 0
    ensures Release(free, done) == Release(free + done[0].table, done[1..])
  {
  }

  lemma ReleaseNone(free: seq<nat>)
    ensures Release(free, []) == free
  {
  }

  lemma ExclusiveReleased(blocks: nat, free: seq<nat>, q: SeqV, qs: seq<SeqV>)
    requires Exclusive(blocks, free, [q] + qs)
    ensures Exclusive(blocks, free + q.table, qs)
  {
    forall b: nat ensures multiset(free + q.table)[b] + Sum(qs, CountOf(b)) <= if b < blocks then 1 else 0 {
      SumCons(q, qs, CountOf(b));
      assert multiset(free + q.table)[b] == multiset(free)[b] + multiset(q.table)[b];
      assert multiset(free)[b] + Sum([q] + qs, CountOf(b)) <= if b < blocks then 1 else 0;
    }
  }

  lemma SplitExclusive(blocks: nat, free: seq<nat>, qs: seq<SeqV>, kept: seq<SeqV>, gone: seq<SeqV>, others: seq<SeqV>)
    requires Split(qs, kept, gone) && OneEach(qs + others) && Exclusive(blocks, free, qs)
    ensures OneEach(gone + (kept + others)) && Exclusive(blocks, free, gone)
  {
    assert multiset(qs + others) == multiset(qs) + multiset(others);
    assert multiset(gone + (kept + others)) == multiset(gone) + (multiset(kept) + multiset(others));
    OneEachPermutation(qs + others, gone + (kept + others));
    forall b: nat ensures multiset(free)[b] + Sum(gone, CountOf(b)) <= if b < blocks then 1 else 0 {
      SplitSums(qs, kept, gone, CountOf(b));
      assert multiset(free)[b] + Sum(qs, CountOf(b)) <= if b < blocks then 1 else 0;
    }
  }
}
