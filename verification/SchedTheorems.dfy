/** Whole runs of the continuous scheduler: refinement of generation, conservation of
    pool, first-come admission and termination. */
module SchedTheorems {
  import opened Numeric
  import opened Meaning
  import opened PagedStore
  import opened Generation
  import opened SchedSpec
  import opened SeqProofs
  import opened Sums
  import opened SchedProofs

  // ---- Steps ----

  /** The transitions still to come before everything is done. */
  ghost function Pending(s: SchedV): nat {
    Sum(s.waiting, WeightOf()) + LiveSum(s, WeightOf())
  }

  /** A step keeps the invariant, and from a state that is not idle it strictly lowers
      the measure: this is why `run_until_idle` returns. */
  lemma StepKeeps(c: Config, s: SchedV, s': SchedV)
    requires c.Valid() && Inv(c, s) && Step(c, s, s')
    ensures Inv(c, s') && s'.requests == s.requests
    ensures Pending(s') <= Pending(s)
    ensures !s.Idle() ==> Pending(s') < Pending(s)
  {
    hide Inv, FinalizePrefilling, FinalizeRunning, Admit, AdvanceAll, DecodeAll, HaveTokens, AllIn;
    var s1, s2 :|
      && FinalizePrefilling(s, s1) && FinalizeRunning(s1, s2)
      && HaveTokens(Admit(c, s2).prefilling)
      && HaveTokens(AdvanceAll(c, Admit(c, s2)).running)
      && s' == DecodeAll(c, AdvanceAll(c, Admit(c, s2)));
    FinalizePrefillingKeeps(c, s, s1);
    FinalizeRunningKeeps(c, s1, s2);
    AdmitKeeps(c, s2);
    var s3 := Admit(c, s2);
    AdvanceAllKeeps(c, s3);
    var s4 := AdvanceAll(c, s3);
    DecodeAllKeeps(c, s4);
    if |s3.prefilling| == 0 && |s2.running| > 0 {
      NothingToPrefill(c, s3);
      HeadRuns(s2.running);
    }
  }

  lemma NothingToPrefill(c: Config, s: SchedV)
    requires c.Valid() && |s.prefilling| == 0 && HaveTokens(s.prefilling)
    ensures AdvanceAll(c, s).running == s.running
  {
  }

  lemma HeadRuns(qs: seq<SeqV>)
    requires AllIn(qs, {Running}) && |qs| > 0
    ensures qs[0].state == Running
  {
    assert qs[0] in qs;
  }

  lemma NextKeeps(c: Config, s: SchedV, s': SchedV)
    requires c.Valid() && Inv(c, s) && Next(c, s, s')
    ensures Inv(c, s') && s.requests <= s'.requests
  {
    hide Step, FinalizePrefilling, FinalizeRunning, SeqOk, AllOk, AllIn;
    if Step(c, s, s') {
      StepKeeps(c, s, s');
    } else if FinalizePrefilling(s, s') {
      FinalizePrefillingKeeps(c, s, s');
    } else if FinalizeRunning(s, s') {
      FinalizeRunningKeeps(c, s, s');
    } else if exists r: Request :: RequestOk(c.m, r.prompt, r.maxNew) && s' == Enqueue(s, r) {
      var r: Request :| RequestOk(c.m, r.prompt, r.maxNew) && s' == Enqueue(s, r);
      EnqueueKeeps(c, s, r);
    }
  }

  lemma InitOk(c: Config, s: SchedV)
    requires c.Valid() && Init(c, s)
    ensures Inv(c, s)
  {
    forall b: nat ensures multiset(s.free)[b] + LiveSum(s, CountOf(b)) == if b in c.pool then 1 else 0 {
      OnceEach(s.free, b);
    }
    NoDuplicatesSet(s.free);
    assert Members(s.free) == c.pool;
  }

  ghost function Members(s: seq<nat>): set<nat> { set x | x in s }

  lemma {:induction false} OnceEach(free: seq<nat>, b: nat)
    requires NoDuplicates(free)
    ensures multiset(free)[b] == if b in free then 1 else 0
    decreases |free|
  {
    if |free| > 0 {
      OnceEach(free[1..], b);
      assert free == [free[0]] + free[1..];
      assert multiset(free)[b] == multiset([free[0]])[b] + multiset(free[1..])[b];
    }
  }

  lemma {:induction false} NoDuplicatesSet(free: seq<nat>)
    requires NoDuplicates(free)
    ensures |Members(free)| == |free|
    decreases |free|
  {
    if |free| > 0 {
      NoDuplicatesSet(free[1..]);
      assert Members(free) == {free[0]} + Members(free[1..]);
    }
  }

  // ---- Runs ----

  lemma {:induction false} RunKeeps(c: Config, run: seq<SchedV>)
    requires c.Valid() && IsRun(c, run)
    ensures Inv(c, run[|run| - 1])
    ensures forall i | 0 <= i < |run| :: run[i].requests <= run[|run| - 1].requests
    decreases |run|
  {
    hide Inv, Next, Init;
    if |run| == 1 {
      InitOk(c, run[0]);
    } else {
      var front := run[..|run| - 1];
      RunKeeps(c, front);
      assert Next(c, run[|run| - 2], run[|run| - 1]);
      NextKeeps(c, run[|run| - 2], run[|run| - 1]);
      forall i | 0 <= i < |run| ensures run[i].requests <= run[|run| - 1].requests {
        if i < |front| { assert run[i] == front[i]; }
      }
    }
  }

  /** A live sequence's table covers exactly the positions it has fed, all of them
      inside the model's range. */
  ghost predicate FedInTable(c: Config, q: SeqV)
    requires c.Valid()
  {
    q.state == Finished || (|q.table| == CeilDiv(FedCount(q), c.size) && FedCount(q) < c.m.maxPos)
  }

  /** In every reachable state the free list and the tables of the live sequences are
      together every block once, waiting sequences own none, live ones own what they
      have fed, there are at most `maxConcurrent` of them, and the queue is what
      arrived last, in order. */
  lemma ReachableState(c: Config, run: seq<SchedV>)
    requires c.Valid() && IsRun(c, run)
    ensures var s := run[|run| - 1];
      && (forall b: nat :: multiset(s.free)[b] + LiveSum(s, CountOf(b)) == if b in c.pool then 1 else 0)
      && (forall q | q in s.waiting :: q.table == [])
      && (forall q | q in s.Live() :: FedInTable(c, q))
      && |s.Live()| <= c.maxConcurrent
      && (forall i | 0 <= i < |s.waiting| :: s.waiting[i].id == |s.requests| - |s.waiting| + i)
  {
    hide Next, Init, FedInTable, SeqOk, OncePerId, ResultsAreLatest;
    RunKeeps(c, run);
    var s := run[|run| - 1];
    forall q | q in s.waiting ensures q.table == [] { WaitingOwnsNone(c, s.requests[q.id], q); }
    forall q | q in s.Live() ensures FedInTable(c, q) {
      assert q in s.prefilling || q in s.running;
      LiveFed(c, s.requests[q.id], q);
    }
  }

  lemma WaitingOwnsNone(c: Config, r: Request, q: SeqV)
    requires c.Valid() && SeqOk(c.m, c.size, r, q) && q.state == Waiting
    ensures q.table == []
  {
    hide OnTrack, GreedyOf;
  }

  lemma LiveFed(c: Config, r: Request, q: SeqV)
    requires c.Valid() && SeqOk(c.m, c.size, r, q) && q.state != Waiting
    ensures FedInTable(c, q)
  {
    hide OnTrack, GreedyOf, CeilDiv;
  }

  /** However requests arrive, whatever the budget and the concurrency cap, in whatever
      order finished sequences are swept up: every result carries the tokens and reason
      of `generate` run alone on that request, or says "capacity" and carries a prefix. */
  lemma RunRefinesGenerate(c: Config, run: seq<SchedV>)
    requires c.Valid() && IsRun(c, run)
    ensures var s := run[|run| - 1];
      forall x | x in s.results ::
        x.id < |s.requests| && |s.requests[x.id].prompt| > 0 && Faithful(c.m, s.requests[x.id], x)
  {
    hide Inv, Next, Init, Faithful;
    RunKeeps(c, run);
    var s := run[|run| - 1];
    forall x | x in s.results
      ensures x.id < |s.requests| && |s.requests[x.id].prompt| > 0 && Faithful(c.m, s.requests[x.id], x)
    {
      var i :| 0 <= i < |s.results| && s.results[i] == x;
      ResultIsFaithful(c, s, i);
    }
  }

  lemma ResultIsFaithful(c: Config, s: SchedV, i: nat)
    requires c.Valid() && Inv(c, s) && i < |s.results|
    ensures var x := s.results[i];
      x.id < |s.requests| && |s.requests[x.id].prompt| > 0 && Faithful(c.m, s.requests[x.id], x)
  {
    hide SeqOk, Conserved, OncePerId, Fifo;
    var q := s.done[|s.done| - |s.results| + i];
    assert q in s.done && s.results[i] == Snapshot(q);
    SeqOkMeans(c.m, c.size, s.requests[q.id], q);
    FinishedIsFaithful(c.m, c.size, s.requests[q.id], q);
  }

  lemma SeqOkMeans(m: Model, size: nat, r: Request, q: SeqV)
    requires m.Valid() && size > 0 && SeqOk(m, size, r, q)
    ensures |r.prompt| > 0 && |q.table| <= NeedOf(size, |r.prompt|, r.maxNew)
  {
  }

  /** When nothing is waiting or live, every block is back in the pool and every request
      has been finished exactly once. */
  lemma IdleState(c: Config, s: SchedV)
    requires c.Valid() && Inv(c, s) && s.Idle()
    ensures forall b: nat :: multiset(s.free)[b] == if b in c.pool then 1 else 0
    ensures forall id: nat :: Sum(s.done, HasId(id)) == if id < |s.requests| then 1 else 0
  {
    hide Sorted, Fifo, ResultsAreLatest;
    forall b: nat ensures multiset(s.free)[b] == if b in c.pool then 1 else 0 {
      assert LiveSum(s, CountOf(b)) == 0;
    }
    forall id: nat ensures Sum(s.done, HasId(id)) == if id < |s.requests| then 1 else 0 {
      assert AllSum(s, HasId(id)) == Sum(s.done, HasId(id));
    }
  }

  /** And so at the end of every run that ends idle. */
  lemma IdleMeansDone(c: Config, run: seq<SchedV>)
    requires c.Valid() && IsRun(c, run) && run[|run| - 1].Idle()
    ensures var s := run[|run| - 1];
      && (forall b: nat :: multiset(s.free)[b] == if b in c.pool then 1 else 0)
      && (forall id: nat :: Sum(s.done, HasId(id)) == if id < |s.requests| then 1 else 0)
  {
    hide Inv, Next, Init;
    RunKeeps(c, run);
    IdleState(c, run[|run| - 1]);
  }
}
