/** Callers of the schedulers: requests go in, the scheduler runs, results come out, and
    they are what `generate` returns for each request on its own. */
module Serving {
  import opened Numeric
  import opened Meaning
  import opened PagedStore
  import opened PagedKv
  import opened EngineCore
  import opened Generation
  import opened SchedSpec
  import opened SeqProofs
  import opened SchedMemory
  import opened SchedResults
  import opened Sums
  import opened SequenceLists
  import Scheduler
  import StaticScheduler
  import SchedTheorems

  /** The requests a scheduler takes, in order; the others it refuses. */
  function Accepted(m: Model, rs: seq<Request>): (taken: seq<Request>)
    ensures forall r | r in taken :: RequestOk(m, r.prompt, r.maxNew)
  {
    if |rs| == 0 then []
    else
      var front, last := Accepted(m, rs[..|rs| - 1]), rs[|rs| - 1];
      if RequestOk(m, last.prompt, last.maxNew) then front + [last] else front
  }

  lemma NobodyAccepted(m: Model)
    ensures Accepted(m, []) == []
  {
  }

  lemma AcceptedNext(m: Model, rs: seq<Request>, i: nat)
    requires i < |rs|
    ensures Accepted(m, rs[..i + 1])
         == Accepted(m, rs[..i]) + if RequestOk(m, rs[i].prompt, rs[i].maxNew) then [rs[i]] else []
  {
    assert rs[..i + 1][..i] == rs[..i];
  }

  /** One result for each request, in order, each the greedy outcome or cut short. */
  ghost predicate Answers(m: Model, rs: seq<Request>, out: seq<ResultV>)
    requires m.Valid()
  {
    && |out| == |rs|
    && forall i | 0 <= i < |rs| :: out[i].id == i && |rs[i].prompt| > 0 && Faithful(m, rs[i], out[i])
  }

  /** None of them cut short. */
  ghost predicate AnswersInFull(m: Model, rs: seq<Request>, out: seq<ResultV>)
    requires m.Valid()
  {
    && |out| == |rs|
    && forall i | 0 <= i < |rs| :: |rs[i].prompt| > 0 && Outcome(out[i].tokens, out[i].reason) == GreedyOf(m, rs[i])
  }

  /** `count` requests of the largest size fit into the free blocks. */
  ghost predicate Ample(size: nat, free: nat, rs: seq<Request>, count: nat) {
    size > 0 && exists most: nat :: free >= count * most && NeedAtMost(size, rs, most)
  }

  ghost predicate NeedAtMost(size: nat, rs: seq<Request>, most: nat)
    requires size > 0
  {
    forall r | r in rs :: |r.prompt| > 0 && NeedOf(size, |r.prompt|, r.maxNew) <= most
  }

  // ---- The continuous scheduler ----

  method EnqueueAll(s: Scheduler.ContinuousBatchScheduler, rs: seq<Request>)
    requires s.Valid()
    modifies s
    ensures s.Valid() && old(s.run) <= s.run
    ensures old(s.made) <= s.made && forall j | |old(s.made)| <= j < |s.made| :: fresh(s.made[j]) && fresh(s.made[j].kv)
    ensures s.st.requests == old(s.st.requests) + Accepted(s.engine.m, rs)
    ensures s.st.results == old(s.st.results) && s.st.done == old(s.st.done)
  {
    hide Scheduler.ContinuousBatchScheduler.Valid, RequestOk, Accepted;
    var i := 0;
    NobodyAccepted(s.engine.m);
    while i < |rs|
      invariant 0 <= i <= |rs| && s.Valid() && old(s.run) <= s.run
      invariant old(s.made) <= s.made
      invariant forall j | |old(s.made)| <= j < |s.made| :: fresh(s.made[j]) && fresh(s.made[j].kv)
      invariant rs[..0] == [] && s.st.requests == old(s.st.requests) + Accepted(s.engine.m, rs[..i])
      invariant s.st.results == old(s.st.results) && s.st.done == old(s.st.done)
    {
      AcceptedNext(s.engine.m, rs, i);
      var r := s.Enqueue(rs[i].prompt, rs[i].maxNew);
      i := i + 1;
    }
    assert rs[..i] == rs;
  }

  /** Continuous batching: enqueue, `run_until_idle`, `results`. */
  method ServeContinuous(e: Engine, mgr: BlockManager, maxConcurrent: nat, budget: nat, rs: seq<Request>)
    returns (out: seq<ResultV>)
    requires e.m.Valid() && mgr.Valid() && PoolFits(e.m, mgr.geo) && Owns(mgr.geo, mgr.freeList, [])
    requires maxConcurrent > 0 && budget > 0
    modifies e, mgr, mgr.pool
    ensures mgr.Valid() && multiset(mgr.freeList) == multiset(old(mgr.freeList))
    ensures Answers(e.m, Accepted(e.m, rs), out)
    ensures Ample(mgr.geo.blockSize, |old(mgr.freeList)|, Accepted(e.m, rs), maxConcurrent) ==>
      AnswersInFull(e.m, Accepted(e.m, rs), out)
  {
    hide PagedStore.Mirrors, PoolFits, Model.Valid, Faithful, GreedyOf, Accepted, Ample, Answers, AnswersInFull,
      NeverStarved, Enough, SortedById, Owns, SchedSpec.Init, Scheduler.ContinuousBatchScheduler.Valid;
    ghost var free, asked := mgr.freeList, Accepted(e.m, rs);
    OwnsMeans(mgr.geo, free);
    var s := new Scheduler.ContinuousBatchScheduler(e, mgr, maxConcurrent, budget);
    EmptyQueue(s.Conf(), s.st);
    EnqueueAll(s, rs);
    assert forall o | o in Caches(s.made) :: fresh(o);
    assert s.st.requests == asked;
    s.RunUntilIdle();
    s.ValidMeans();
    out := s.Results();
    SamePool(free, mgr.freeList);
    AllAnswered(e.m, asked, out);
    if Ample(mgr.geo.blockSize, |free|, asked, maxConcurrent) {
      var most := AmpleIsEnough(s.Conf(), free, asked);
      assert Enough(s.Conf(), s.st.requests, most);
      AllAnsweredInFull(e.m, asked, out);
    }
  }

  lemma OwnsMeans(g: Geometry, free: seq<nat>)
    requires Owns(g, free, [])
    ensures NoDuplicates(free) && forall b | b in free :: b < g.numBlocks
  {
  }

  lemma EmptyQueue(c: Config, s: SchedV)
    requires Init(c, s)
    ensures s.requests == [] && s.results == [] && s.done == []
  {
  }

  lemma SamePool(free: seq<nat>, after: seq<nat>)
    requires NoDuplicates(free)
    requires forall b: nat :: multiset(after)[b] == if b in Scheduler.FreeSet(free) then 1 else 0
    ensures multiset(after) == multiset(free)
  {
    var had, has: multiset<nat> := multiset(free), multiset(after);
    forall b: nat ensures has[b] == had[b] {
      SchedTheorems.OnceEach(free, b);
      assert b in had <==> b in free;
    }
  }

  lemma AllAnswered(m: Model, rs: seq<Request>, out: seq<ResultV>)
    requires m.Valid() && |out| == |rs| && forall i | 0 <= i < |out| :: out[i].id == i
    requires forall x | x in out :: x.id < |rs| && |rs[x.id].prompt| > 0 && Faithful(m, rs[x.id], x)
    ensures Answers(m, rs, out)
  {
    hide Faithful;
    forall i | 0 <= i < |rs| ensures out[i].id == i && |rs[i].prompt| > 0 && Faithful(m, rs[i], out[i]) {
      assert out[i] in out;
    }
  }

  lemma AllAnsweredInFull(m: Model, rs: seq<Request>, out: seq<ResultV>)
    requires m.Valid() && |out| == |rs| && forall i | 0 <= i < |out| :: out[i].id == i
    requires forall x | x in out ::
      x.id < |rs| && |rs[x.id].prompt| > 0 && Outcome(x.tokens, x.reason) == GreedyOf(m, rs[x.id])
    ensures AnswersInFull(m, rs, out)
  {
    hide GreedyOf;
    forall i | 0 <= i < |rs|
      ensures |rs[i].prompt| > 0 && Outcome(out[i].tokens, out[i].reason) == GreedyOf(m, rs[i]) {
      assert out[i] in out;
    }
  }

  lemma AmpleIsEnough(c: Config, free: seq<nat>, rs: seq<Request>) returns (most: nat)
    requires c.Valid() && NoDuplicates(free) && c.pool == Scheduler.FreeSet(free)
    requires Ample(c.size, |free|, rs, c.maxConcurrent)
    ensures Enough(c, rs, most)
  {
    SchedTheorems.NoDuplicatesSet(free);
    assert SchedTheorems.Members(free) == c.pool;
    most :| |free| >= c.maxConcurrent * most && NeedAtMost(c.size, rs, most);
  }

  // ---- The static scheduler ----

  /** The requests as they wait in a static scheduler that has taken no others. */
  ghost function Queued(rs: seq<Request>): (qs: seq<SeqV>)
    ensures |qs| == |rs| && forall i | 0 <= i < |rs| :: qs[i] == NewSeq(i, rs[i])
  {
    seq(|rs|, i requires 0 <= i < |rs| => NewSeq(i, rs[i]))
  }

  lemma QueuedNext(rs: seq<Request>, r: Request)
    ensures Queued(rs + [r]) == Queued(rs) + [NewSeq(|rs|, r)]
  {
  }

  method EnqueueAllStatic(s: StaticScheduler.StaticBatchScheduler, rs: seq<Request>)
    requires s.Valid() && s.requests == [] && s.qs == []
    modifies s
    ensures s.Valid() && s.results == old(s.results)
    ensures old(s.made) <= s.made
    ensures forall j | |old(s.made)| <= j < |s.made| :: fresh(s.made[j]) && fresh(s.made[j].kv)
    ensures s.requests == Accepted(s.engine.m, rs) && s.qs == Queued(s.requests)
  {
    hide StaticScheduler.StaticBatchScheduler.Valid, RequestOk, Accepted;
    var i := 0;
    NobodyAccepted(s.engine.m);
    while i < |rs|
      invariant 0 <= i <= |rs| && s.Valid() && s.results == old(s.results)
      invariant old(s.made) <= s.made
      invariant forall j | |old(s.made)| <= j < |s.made| :: fresh(s.made[j]) && fresh(s.made[j].kv)
      invariant rs[..0] == [] && s.requests == Accepted(s.engine.m, rs[..i]) && s.qs == Queued(s.requests)
    {
      AcceptedNext(s.engine.m, rs, i);
      QueuedNext(s.requests, rs[i]);
      var r := s.Enqueue(rs[i].prompt, rs[i].maxNew);
      i := i + 1;
    }
    assert rs[..i] == rs;
  }

  /** Static batching: enqueue, `run_until_done`, `results`. */
  method ServeStatic(e: Engine, mgr: BlockManager, rs: seq<Request>) returns (out: seq<ResultV>)
    requires e.m.Valid() && mgr.Valid() && PoolFits(e.m, mgr.geo) && Owns(mgr.geo, mgr.freeList, [])
    modifies e, mgr, mgr.pool
    ensures mgr.Valid() && multiset(mgr.freeList) == multiset(old(mgr.freeList))
    ensures Answers(e.m, Accepted(e.m, rs), out)
    ensures |old(mgr.freeList)| >= Sum(Queued(Accepted(e.m, rs)), Need(mgr.geo.blockSize)) ==>
      AnswersInFull(e.m, Accepted(e.m, rs), out)
  {
    hide PagedStore.Mirrors, PoolFits, Model.Valid, Faithful, GreedyOf, Accepted, Answers, AnswersInFull,
      Owns, StaticScheduler.StaticBatchScheduler.Valid, StaticScheduler.Answered, Sum, Need;
    ghost var free, asked := mgr.freeList, Accepted(e.m, rs);
    var s := new StaticScheduler.StaticBatchScheduler(e, mgr);
    EnqueueAllStatic(s, rs);
    assert forall o | o in Caches(s.made) :: fresh(o);
    s.RunUntilDone();
    s.ValidMeans();
    out := s.results;
    EachAnswered(e.m, asked, out);
    if |free| >= Sum(Queued(asked), Need(mgr.geo.blockSize)) { NoneCutShort(e.m, asked, out); }
  }

  lemma EachAnswered(m: Model, rs: seq<Request>, out: seq<ResultV>)
    requires m.Valid() && |out| == |rs|
    requires forall i | 0 <= i < |rs| :: StaticScheduler.Answered(m, rs, Queued(rs)[i], out[i])
    ensures Answers(m, rs, out)
  {
    hide Faithful;
  }

  lemma NoneCutShort(m: Model, rs: seq<Request>, out: seq<ResultV>)
    requires m.Valid() && Answers(m, rs, out) && forall i | 0 <= i < |out| :: out[i].reason != Capacity
    ensures AnswersInFull(m, rs, out)
  {
    hide GreedyOf;
  }

  // ---- Both, and `generate` ----

  /** A legal request gets its greedy outcome, any other an error. */
  ghost predicate Alone(m: Model, dt: Dtype, r: Request, x: Result<Outcome>)
    requires m.Valid()
  {
    if RequestOk(m, r.prompt, r.maxNew) then x == Success(Greedy(m, dt, r.prompt, r.maxNew)) else x.Failure?
  }

  /** `generate` for each request on its own. */
  method ServeAlone(e: Engine, rs: seq<Request>) returns (out: seq<Result<Outcome>>)
    requires e.m.Valid()
    modifies e
    ensures |out| == |rs|
    ensures forall i | 0 <= i < |rs| :: Alone(e.m, KvDtype(e.storage), rs[i], out[i])
  {
    out := [];
    var i := 0;
    while i < |rs|
      invariant 0 <= i <= |rs| && |out| == i
      invariant forall j | 0 <= j < i :: Alone(e.m, KvDtype(e.storage), rs[j], out[j])
    {
      var r := Generate(e, rs[i].prompt, rs[i].maxNew);
      out := out + [r];
      i := i + 1;
    }
  }

  /** The outcomes of the calls that succeeded, in order. */
  function Successes(out: seq<Result<Outcome>>): seq<Outcome> {
    if |out| == 0 then []
    else
      var last := out[|out| - 1];
      Successes(out[..|out| - 1]) + if last.Success? then [last.value] else []
  }

  function Outcomes(out: seq<ResultV>): (os: seq<Outcome>)
    ensures |os| == |out| && forall i | 0 <= i < |out| :: os[i] == Outcome(out[i].tokens, out[i].reason)
  {
    seq(|out|, i requires 0 <= i < |out| => Outcome(out[i].tokens, out[i].reason))
  }

  /** The gate of the scheduler tests: with memory enough, in fp32 storage mode, both
      schedulers return for every request what `generate` returns, and both give back
      every block. */
  method CompareAll(e: Engine, mgr: BlockManager, maxConcurrent: nat, budget: nat, rs: seq<Request>)
    returns (alone: seq<Result<Outcome>>, lockstep: seq<ResultV>, continuous: seq<ResultV>)
    requires e.m.Valid() && e.storage == StoreF32
    requires mgr.Valid() && PoolFits(e.m, mgr.geo) && Owns(mgr.geo, mgr.freeList, []) && maxConcurrent > 0 && budget > 0
    requires |mgr.freeList| >= Sum(Queued(Accepted(e.m, rs)), Need(mgr.geo.blockSize))
    requires Ample(mgr.geo.blockSize, |mgr.freeList|, Accepted(e.m, rs), maxConcurrent)
    modifies e, mgr, mgr.pool
    ensures Outcomes(lockstep) == Outcomes(continuous) == Successes(alone)
    ensures multiset(mgr.freeList) == multiset(old(mgr.freeList))
  {
    hide PagedStore.Mirrors, PoolFits, Model.Valid, GreedyOf, Accepted, Answers, AnswersInFull, Owns, Sum, Need, Ample,
      Successes, Outcomes, Greedy;
    ghost var free := mgr.freeList;
    alone := ServeAlone(e, rs);
    lockstep := ServeStatic(e, mgr, rs);
    StillOwned(mgr.geo, free, mgr.freeList);
    continuous := ServeContinuous(e, mgr, maxConcurrent, budget, rs);
    SuccessesAre(e.m, rs, alone);
    FullAnswers(e.m, Accepted(e.m, rs), lockstep);
    FullAnswers(e.m, Accepted(e.m, rs), continuous);
  }

  ghost function GreedyAll(m: Model, rs: seq<Request>): (os: seq<Outcome>)
    requires m.Valid() && forall r | r in rs :: |r.prompt| > 0
    ensures |os| == |rs| && forall i | 0 <= i < |rs| :: os[i] == GreedyOf(m, rs[i])
  {
    seq(|rs|, i requires 0 <= i < |rs| => GreedyOf(m, rs[i]))
  }

  lemma FullAnswers(m: Model, rs: seq<Request>, out: seq<ResultV>)
    requires m.Valid() && AnswersInFull(m, rs, out) && forall r | r in rs :: |r.prompt| > 0
    ensures Outcomes(out) == GreedyAll(m, rs)
  {
    hide GreedyOf;
  }

  lemma {:induction false} SuccessesAre(m: Model, rs: seq<Request>, out: seq<Result<Outcome>>)
    requires m.Valid() && |out| == |rs|
    requires forall i | 0 <= i < |rs| :: Alone(m, F32, rs[i], out[i])
    ensures forall r | r in Accepted(m, rs) :: |r.prompt| > 0
    ensures Successes(out) == GreedyAll(m, Accepted(m, rs))
    decreases |rs|
  {
    hide Greedy;
    if |rs| == 0 {
    } else {
      var n := |rs| - 1;
      SuccessesAre(m, rs[..n], out[..n]);
    }
  }

  lemma StillOwned(g: Geometry, free: seq<nat>, after: seq<nat>)
    requires Owns(g, free, []) && multiset(after) == multiset(free)
    ensures Owns(g, after, []) && |after| == |free|
  {
    StaticScheduler.OwnsPermutation(g, free, after);
    assert |multiset(after)| == |multiset(free)|;
  }
}
