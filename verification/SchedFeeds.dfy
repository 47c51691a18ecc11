/** What the continuous scheduler puts through the engine during prefill: over a whole
    run every prompt position once, in order, and in a step no more than its budget. */
module SchedFeeds {
  import opened Meaning
  import opened SchedSpec
  import opened SeqProofs
  import opened Sums
  import opened LiveRows
  import opened SchedProofs
  import opened SchedTheorems
  import Generation
  import PagedStore

  // ---- Positions in a history ----

  /** The positions fed for one request, in the order they were. */
  ghost function PositionsOf(fed: seq<Feed>, id: nat): seq<nat> {
    if |fed| == 0 then []
    else
      var last := fed[|fed| - 1];
      PositionsOf(fed[..|fed| - 1], id) + if last.id == id then [last.pos] else []
  }

  /** 0, 1, ..., n - 1. */
  function Upto(n: nat): (ps: seq<nat>)
    ensures |ps| == n && forall i | 0 <= i < n :: ps[i] == i
  {
    seq(n, i => i)
  }

  lemma {:induction false} PositionsAppend(a: seq<Feed>, b: seq<Feed>, id: nat)
    ensures PositionsOf(a + b, id) == PositionsOf(a, id) + PositionsOf(b, id)
    decreases |b|
  {
    if |b| == 0 {
      assert a + b == a;
    } else {
      assert (a + b)[..|a + b| - 1] == a + b[..|b| - 1];
      PositionsAppend(a, b[..|b| - 1], id);
    }
  }

  /** Positions `from`, `from + 1`, ... of one request. */
  ghost predicate Consecutive(t: seq<Feed>, id: nat, from: nat) {
    forall i | 0 <= i < |t| :: t[i] == Feed(id, from + i)
  }

  lemma {:induction false} PositionsConsecutive(t: seq<Feed>, id: nat, from: nat, other: nat)
    requires Consecutive(t, id, from)
    ensures PositionsOf(t, other) == if other == id then seq(|t|, i => from + i) else []
    decreases |t|
  {
    if |t| == 0 {
    } else {
      PositionsConsecutive(t[..|t| - 1], id, from, other);
      assert other == id ==> seq(|t|, i => from + i) == seq(|t| - 1, i => from + i) + [from + |t| - 1];
    }
  }

  // ---- One turn ----

  /** A turn's forwards are as many as the budget it spends, and take the cursor on. */
  lemma {:induction false} TraceIs(size: nat, q: SeqV, free: seq<nat>, budget: nat)
    requires size > 0
    ensures var (q', _, left), t := PrefillRun(size, q, free, budget), PrefillTrace(size, q, free, budget);
      |t| == budget - left && q'.cursor == q.cursor + |t| && Consecutive(t, q.id, q.cursor)
    ensures q.cursor <= q.promptLen ==> PrefillRun(size, q, free, budget).0.cursor <= q.promptLen
    decreases budget
  {
    if budget == 0 || q.cursor >= q.promptLen {
    } else {
      var t := PagedStore.TakeBlock(free, q.table, q.cursor, size);
      if t.ok {
        var next := q.(cursor := q.cursor + 1, table := t.table);
        TraceIs(size, next, t.free, budget - 1);
        assert Consecutive([Feed(q.id, q.cursor)] + PrefillTrace(size, next, t.free, budget - 1), q.id, q.cursor);
      }
    }
  }

  /** What has been fed for a sequence is its prompt up to the cursor, all of it once it
      has left prefill for anything but want of memory. */
  ghost predicate InOrder(fed: seq<Feed>, q: SeqV) {
    && PositionsOf(fed, q.id) == Upto(q.cursor) && q.cursor <= q.promptLen
    && (q.state == Waiting ==> q.cursor == 0)
    && (q.state == Running || (q.state == Finished && q.reason != Capacity) ==> q.cursor == q.promptLen)
  }

  ghost predicate AllInOrder(fed: seq<Feed>, qs: seq<SeqV>) {
    forall q | q in qs :: InOrder(fed, q)
  }

  lemma FeedOthers(fed: seq<Feed>, t: seq<Feed>, q: SeqV)
    requires InOrder(fed, q) && PositionsOf(t, q.id) == []
    ensures InOrder(fed + t, q)
  {
    PositionsAppend(fed, t, q.id);
  }

  lemma TurnInOrder(m: Model, size: nat, q: SeqV, free: seq<nat>, budget: nat, fed: seq<Feed>)
    requires m.Valid() && size > 0 && |q.tokens| > 0 && q.state == Prefilling && InOrder(fed, q)
    ensures var (q', _, left), t := PrefillTurn(m, size, q, free, budget), PrefillTrace(size, q, free, budget);
      && q'.id == q.id && |t| == budget - left && Consecutive(t, q.id, q.cursor) && InOrder(fed + t, q')
      && (q'.state == Running ==> q'.cursor == q'.promptLen)
  {
    hide PrefillRun, PrefillTrace, NextToken;
    var t := PrefillTrace(size, q, free, budget);
    TraceIs(size, q, free, budget);
    PrefillTokens(size, q, free, budget);
    PositionsAppend(fed, t, q.id);
    PositionsConsecutive(t, q.id, q.cursor, q.id);
    var q' := PrefillTurn(m, size, q, free, budget).0;
    assert Upto(q.cursor) + seq(|t|, i => q.cursor + i) == Upto(q'.cursor);
  }

  // ---- The prefill pass ----

  ghost predicate Distinct(qs: seq<SeqV>) {
    forall i, j | 0 <= i < j < |qs| :: qs[i].id != qs[j].id
  }

  lemma OneEachDistinct(qs: seq<SeqV>)
    requires OneEach(qs)
    ensures Distinct(qs)
  {
    forall i, j | 0 <= i < j < |qs| ensures qs[i].id != qs[j].id {
      SumTwo(qs, i, j, HasId(qs[i].id));
      assert Sum(qs, HasId(qs[i].id)) <= 1;
    }
  }

  /** A pass feeds only sequences of its list, and exactly as often as it spends. */
  lemma {:induction false} AdvanceFeeds(c: Config, rs: seq<Request>, qs: seq<SeqV>, free: seq<nat>, budget: nat,
      id: nat)
    requires c.Valid() && AllOk(c, rs, qs) && AllIn(qs, {Prefilling}) && HaveTokens(qs)
    ensures var a := Advance(c.m, c.size, qs, free, budget);
      |a.fed| == budget - a.budget && ((forall q | q in qs :: q.id != id) ==> PositionsOf(a.fed, id) == [])
    decreases |qs|
  {
    hide SeqOk, PrefillTurn, PrefillTrace, AllOk, AllIn, HaveTokens;
    if |qs| == 0 || budget == 0 {
    } else {
      OkSplit(c, rs, qs, {Prefilling});
      var q := qs[0];
      var (q', mid, left) := PrefillTurn(c.m, c.size, q, free, budget);
      var t := PrefillTrace(c.size, q, free, budget);
      TurnSpends(c.m, c.size, q, free, budget);
      AdvanceFeeds(c, rs, qs[1..], mid, left, id);
      PositionsConsecutive(t, q.id, q.cursor, id);
      PositionsAppend(t, Advance(c.m, c.size, qs[1..], mid, left).fed, id);
    }
  }

  lemma TurnSpends(m: Model, size: nat, q: SeqV, free: seq<nat>, budget: nat)
    requires m.Valid() && size > 0 && |q.tokens| > 0
    ensures var t := PrefillTrace(size, q, free, budget);
      |t| == budget - PrefillTurn(m, size, q, free, budget).2 && Consecutive(t, q.id, q.cursor)
  {
    hide AfterPrompt;
    TraceIs(size, q, free, budget);
  }

  /** The whole prompt has been fed. */
  ghost predicate AllFed(qs: seq<SeqV>) {
    forall q | q in qs :: q.cursor == q.promptLen
  }

  lemma InOrderCons(fed: seq<Feed>, q: SeqV, qs: seq<SeqV>)
    requires InOrder(fed, q) && AllInOrder(fed, qs)
    ensures AllInOrder(fed, [q] + qs)
    ensures AllFed(qs) && q.cursor == q.promptLen ==> AllFed([q] + qs)
  {
    hide InOrder;
  }

  lemma NobodyInOrder(fed: seq<Feed>)
    ensures AllInOrder(fed, []) && AllFed([])
  {
  }

  lemma AdvanceHead(m: Model, size: nat, qs: seq<SeqV>, free: seq<nat>, budget: nat)
    requires m.Valid() && size > 0 && HaveTokens(qs) && |qs| > 0 && budget > 0 && HaveTokens(qs[1..])
    ensures var (q, mid, left) := PrefillTurn(m, size, qs[0], free, budget);
      var rest, a := Advance(m, size, qs[1..], mid, left), Advance(m, size, qs, free, budget);
      && a.fed == PrefillTrace(size, qs[0], free, budget) + rest.fed
      && a.kept == (if q.state == Running then rest.kept else [q] + rest.kept)
      && a.moved == (if q.state == Running then [q] + rest.moved else rest.moved)
  {
    hide PrefillTurn, PrefillTrace;
  }

  /** The rest of the list has not been touched by the turn of its head. */
  lemma TailInOrder(fed: seq<Feed>, qs: seq<SeqV>, t: seq<Feed>)
    requires |qs| > 0 && Distinct(qs) && AllInOrder(fed, qs) && Consecutive(t, qs[0].id, qs[0].cursor)
    ensures InOrder(fed, qs[0]) && AllInOrder(fed + t, qs[1..]) && Distinct(qs[1..])
    ensures forall q | q in qs[1..] :: q.id != qs[0].id
  {
    hide InOrder;
    assert qs[0] in qs;
    forall x | x in qs[1..] ensures x.id != qs[0].id && InOrder(fed + t, x) {
      assert x in qs;
      PositionsConsecutive(t, qs[0].id, qs[0].cursor, x.id);
      FeedOthers(fed, t, x);
    }
  }

  lemma {:induction false} AdvanceInOrder(c: Config, rs: seq<Request>, qs: seq<SeqV>, free: seq<nat>, budget: nat,
      fed: seq<Feed>)
    requires c.Valid() && AllOk(c, rs, qs) && AllIn(qs, {Prefilling}) && HaveTokens(qs)
    requires Distinct(qs) && AllInOrder(fed, qs)
    ensures var a := Advance(c.m, c.size, qs, free, budget);
      AllInOrder(fed + a.fed, a.kept) && AllInOrder(fed + a.fed, a.moved) && AllFed(a.moved)
    decreases |qs|
  {
    hide SeqOk, PrefillTurn, PrefillTrace, AllOk, AllIn, HaveTokens, InOrder, AllInOrder, AllFed, Distinct, Consecutive;
    if |qs| == 0 || budget == 0 {
      assert fed + [] == fed;
      NobodyInOrder(fed);
    } else {
      OkSplit(c, rs, qs, {Prefilling});
      AdvanceHead(c.m, c.size, qs, free, budget);
      var q, tail := qs[0], qs[1..];
      var (q', mid, left) := PrefillTurn(c.m, c.size, q, free, budget);
      var t := PrefillTrace(c.size, q, free, budget);
      TurnSpends(c.m, c.size, q, free, budget);
      TailInOrder(fed, qs, t);
      TurnInOrder(c.m, c.size, q, free, budget, fed);
      AdvanceInOrder(c, rs, tail, mid, left, fed + t);
      AdvanceFeeds(c, rs, tail, mid, left, q.id);
      var rest := Advance(c.m, c.size, tail, mid, left);
      FeedOthers(fed + t, rest.fed, q');
      assert fed + t + rest.fed == fed + (t + rest.fed);
      InOrderCons(fed + (t + rest.fed), q', if q'.state == Running then rest.moved else rest.kept);
    }
  }

  // ---- The state ----

  /** The history is right for every sequence there is, and empty for those there are not. */
  ghost predicate FedInOrder(s: SchedV) {
    && AllInOrder(s.fed, s.waiting) && AllInOrder(s.fed, s.prefilling)
    && AllInOrder(s.fed, s.running) && AllInOrder(s.fed, s.done)
    && AllFed(s.running)
    && (forall id: nat | id >= |s.requests| :: PositionsOf(s.fed, id) == [])
  }

  lemma SplitInOrder(fed: seq<Feed>, qs: seq<SeqV>, kept: seq<SeqV>, done: seq<SeqV>)
    requires Split(qs, kept, done) && AllInOrder(fed, qs)
    ensures AllInOrder(fed, kept) && AllInOrder(fed, done)
    ensures forall q | q in kept :: q in qs
  {
    hide InOrder;
    forall q | q in kept || q in done ensures q in qs {
      assert q in multiset(qs);
    }
  }

  lemma SweepInOrder(s: SchedV, s': SchedV)
    requires FedInOrder(s) && (FinalizePrefilling(s, s') || FinalizeRunning(s, s'))
    ensures FedInOrder(s') && s'.fed == s.fed && s'.budget == s.budget
  {
    hide InOrder, Split;
    if FinalizePrefilling(s, s') {
      var kept, done :| Split(s.prefilling, kept, done) && s' == Drop(s.(prefilling := kept), done);
      SplitInOrder(s.fed, s.prefilling, kept, done);
    } else {
      var kept, done :| Split(s.running, kept, done) && s' == Drop(s.(running := kept), done);
      SplitInOrder(s.fed, s.running, kept, done);
    }
  }

  lemma EnqueueInOrder(s: SchedV, r: Request)
    requires FedInOrder(s)
    ensures FedInOrder(Enqueue(s, r))
  {
    assert InOrder(s.fed, NewSeq(|s.requests|, r));
  }

  lemma {:induction false} AdmitInOrder(c: Config, s: SchedV)
    requires FedInOrder(s)
    ensures FedInOrder(Admit(c, s)) && Admit(c, s).fed == s.fed && Admit(c, s).budget == s.budget
    decreases |s.waiting|
  {
    if |s.waiting| == 0 || |s.running| + |s.prefilling| >= c.maxConcurrent {
    } else {
      var q := s.waiting[0];
      assert q in s.waiting && InOrder(s.fed, q.(state := Prefilling));
      AdmitInOrder(c, s.(waiting := s.waiting[1..], prefilling := s.prefilling + [q.(state := Prefilling)]));
    }
  }

  /** A sequence of one list and one of another are different requests. */
  lemma ApartIds(s: SchedV, p: SeqV, q: SeqV)
    requires OncePerId(s) && p in s.prefilling && (q in s.waiting || q in s.running || q in s.done)
    ensures p.id != q.id
  {
    assert AllSum(s, HasId(p.id)) <= 1;
    if p.id == q.id {
      SumHas(s.prefilling, p);
      if q in s.waiting { SumHas(s.waiting, q); }
      if q in s.running { SumHas(s.running, q); }
      if q in s.done { SumHas(s.done, q); }
    }
  }

  lemma SumHas(qs: seq<SeqV>, q: SeqV)
    requires q in qs
    ensures Sum(qs, HasId(q.id)) >= 1
  {
    var i :| 0 <= i < |qs| && qs[i] == q;
    SumSplit(qs, i, HasId(q.id));
  }

  lemma PrefillingDistinct(s: SchedV)
    requires OncePerId(s)
    ensures Distinct(s.prefilling)
  {
    forall id: nat ensures Sum(s.prefilling, HasId(id)) <= 1 {
      assert AllSum(s, HasId(id)) <= 1;
    }
    OneEachDistinct(s.prefilling);
  }

  lemma AdvanceAllInOrder(c: Config, s: SchedV)
    requires c.Valid() && Inv(c, s) && AllIn(s.prefilling, {Prefilling}) && HaveTokens(s.prefilling) && FedInOrder(s)
    ensures FedInOrder(AdvanceAll(c, s))
  {
    hide Advance, InOrder, AllIn, AllOk, Conserved, OncePerId, HaveTokens, SeqOk;
    var s' := AdvanceAll(c, s);
    var t := Advance(c.m, c.size, s.prefilling, s.free, s.budget).fed;
    PrefillingDistinct(s);
    AdvanceInOrder(c, s.requests, s.prefilling, s.free, s.budget, s.fed);
    forall q | q in s.waiting || q in s.running || q in s.done ensures InOrder(s'.fed, q) {
      forall p | p in s.prefilling ensures p.id != q.id { ApartIds(s, p, q); }
      AdvanceFeeds(c, s.requests, s.prefilling, s.free, s.budget, q.id);
      FeedOthers(s.fed, t, q);
    }
    forall id: nat | id >= |s'.requests| ensures PositionsOf(s'.fed, id) == [] {
      forall p | p in s.prefilling ensures p.id != id { KnownId(c, s.requests, s.prefilling, p); }
      AdvanceFeeds(c, s.requests, s.prefilling, s.free, s.budget, id);
      PositionsAppend(s.fed, t, id);
    }
  }

  lemma KnownId(c: Config, rs: seq<Request>, qs: seq<SeqV>, q: SeqV)
    requires c.Valid() && AllOk(c, rs, qs) && q in qs
    ensures q.id < |rs|
  {
    hide SeqOk;
  }

  lemma {:induction false} DecodePassInOrder(m: Model, size: nat, qs: seq<SeqV>, free: seq<nat>, fed: seq<Feed>)
    requires m.Valid() && size > 0 && HaveTokens(qs) && AllInOrder(fed, qs) && AllFed(qs)
    ensures var qs' := DecodePass(m, size, qs, free).0; AllInOrder(fed, qs') && AllFed(qs')
    decreases |qs|
  {
    if |qs| == 0 {
    } else {
      assert qs[0] in qs && forall q | q in qs[1..] :: q in qs;
      hide DecodeTurn, InOrder;
      DecodeTurnInOrder(m, size, qs[0], free, fed);
      var (q, mid) := DecodeTurn(m, size, qs[0], free);
      DecodePassInOrder(m, size, qs[1..], mid, fed);
      InOrderCons(fed, q, DecodePass(m, size, qs[1..], mid).0);
    }
  }

  lemma DecodeTurnInOrder(m: Model, size: nat, q: SeqV, free: seq<nat>, fed: seq<Feed>)
    requires m.Valid() && size > 0 && |q.tokens| > 0 && InOrder(fed, q) && q.cursor == q.promptLen
    ensures var q' := DecodeTurn(m, size, q, free).0; InOrder(fed, q') && q'.cursor == q'.promptLen
  {
    hide NextToken, PositionsOf;
  }

  // ---- Steps and runs ----

  /** A step keeps the history right; it feeds no more positions than the budget, and
      fewer only if everything it leaves in prefill is finished. */
  lemma StepFeeds(c: Config, s: SchedV, s': SchedV)
    requires c.Valid() && Inv(c, s) && Step(c, s, s') && FedInOrder(s)
    ensures FedInOrder(s') && s.fed <= s'.fed && |s'.fed| - |s.fed| <= s.budget
    ensures |s'.fed| - |s.fed| < s.budget ==> AllIn(s'.prefilling, {Finished})
  {
    hide Inv, FinalizePrefilling, FinalizeRunning, Admit, AdvanceAll, DecodeAll, HaveTokens, AllIn, FedInOrder;
    var s1, s2 :|
      && FinalizePrefilling(s, s1) && FinalizeRunning(s1, s2)
      && HaveTokens(Admit(c, s2).prefilling)
      && HaveTokens(AdvanceAll(c, Admit(c, s2)).running)
      && s' == DecodeAll(c, AdvanceAll(c, Admit(c, s2)));
    FinalizePrefillingKeeps(c, s, s1);
    SweepInOrder(s, s1);
    FinalizeRunningKeeps(c, s1, s2);
    SweepInOrder(s1, s2);
    AdmitKeeps(c, s2);
    AdmitInOrder(c, s2);
    var s3 := Admit(c, s2);
    AdvanceAllInOrder(c, s3);
    AdvanceAllKeeps(c, s3);
    AdvanceAllSpends(c, s3);
    DecodeAllInOrder(c, AdvanceAll(c, s3));
  }

  lemma AdvanceAllSpends(c: Config, s: SchedV)
    requires c.Valid() && Inv(c, s) && AllIn(s.prefilling, {Prefilling}) && HaveTokens(s.prefilling)
    ensures var s' := AdvanceAll(c, s);
      && s.fed <= s'.fed && |s'.fed| - |s.fed| <= s.budget
      && (|s'.fed| - |s.fed| < s.budget ==> AllIn(s'.prefilling, {Finished}))
  {
    hide Advance, AllIn, AllOk, Conserved, OncePerId, HaveTokens, SeqOk;
    AdvanceSpends(c, s.requests, s.prefilling, s.free, s.budget);
    AdvanceFeeds(c, s.requests, s.prefilling, s.free, s.budget, 0);
  }

  lemma DecodeAllInOrder(c: Config, s: SchedV)
    requires c.Valid() && HaveTokens(s.running) && FedInOrder(s)
    ensures var s' := DecodeAll(c, s); FedInOrder(s') && s'.fed == s.fed && s'.prefilling == s.prefilling
  {
    hide DecodePass, InOrder, HaveTokens;
    DecodePassInOrder(c.m, c.size, s.running, s.free, s.fed);
  }

  lemma NextFeeds(c: Config, s: SchedV, s': SchedV)
    requires c.Valid() && Inv(c, s) && Next(c, s, s') && FedInOrder(s)
    ensures FedInOrder(s') && s.fed <= s'.fed
  {
    hide Inv, Step, FinalizePrefilling, FinalizeRunning, AllInOrder, PositionsOf;
    if Step(c, s, s') {
      StepFeeds(c, s, s');
    } else if FinalizePrefilling(s, s') || FinalizeRunning(s, s') {
      SweepInOrder(s, s');
    } else if exists r: Request :: Generation.RequestOk(c.m, r.prompt, r.maxNew) && s' == Enqueue(s, r) {
      var r: Request :| Generation.RequestOk(c.m, r.prompt, r.maxNew) && s' == Enqueue(s, r);
      EnqueueInOrder(s, r);
    }
  }

  lemma {:induction false} RunFeeds(c: Config, run: seq<SchedV>)
    requires c.Valid() && IsRun(c, run)
    ensures FedInOrder(run[|run| - 1])
    decreases |run|
  {
    hide Inv, Next, FedInOrder;
    if |run| == 1 {
      NothingFedYet(c, run[0]);
    } else {
      var front := run[..|run| - 1];
      RunFeeds(c, front);
      RunKeeps(c, front);
      assert Next(c, run[|run| - 2], run[|run| - 1]);
      NextFeeds(c, run[|run| - 2], run[|run| - 1]);
    }
  }

  lemma NothingFedYet(c: Config, s: SchedV)
    requires c.Valid() && Init(c, s)
    ensures FedInOrder(s)
  {
  }

  /** What has been fed for a request is 0, 1, 2, ... as far as it goes. */
  ghost predicate StartOfPrompt(fed: seq<Feed>, id: nat, promptLen: nat) {
    var ps := PositionsOf(fed, id);
    ps == Upto(|ps|) && |ps| <= promptLen
  }

  /** Over a whole run, whatever the budgets: for every request the positions fed are
      0, 1, 2, ... in order, none twice and none skipped, as far as its cursor while it
      is in prefill and the whole prompt once it is running or has finished for any
      reason but "capacity". */
  lemma RunFeedsInOrder(c: Config, run: seq<SchedV>)
    requires c.Valid() && IsRun(c, run)
    ensures var s := run[|run| - 1];
      && (forall q | q in s.waiting :: PositionsOf(s.fed, q.id) == [])
      && (forall q | q in s.prefilling :: PositionsOf(s.fed, q.id) == Upto(q.cursor))
      && (forall q | q in s.running :: PositionsOf(s.fed, q.id) == Upto(q.promptLen))
      && (forall q | q in s.done && q.reason != Capacity :: PositionsOf(s.fed, q.id) == Upto(q.promptLen))
    ensures var s := run[|run| - 1];
      forall id: nat :: StartOfPrompt(s.fed, id, if id < |s.requests| then |s.requests[id].prompt| else 0)
  {
    hide Next, Init, PositionsOf, Conserved, Fifo, ResultsAreLatest, SeqOk;
    RunKeeps(c, run);
    RunFeeds(c, run);
    var s := run[|run| - 1];
    forall q | q in s.done && q.reason != Capacity ensures q.cursor == q.promptLen {
      assert q.state in {Finished};
    }
    forall id: nat
      ensures StartOfPrompt(s.fed, id, if id < |s.requests| then |s.requests[id].prompt| else 0)
    {
      if id < |s.requests| {
        var q := Somewhere(c, s, id);
      }
    }
  }

  /** Every request is somewhere. */
  lemma Somewhere(c: Config, s: SchedV, id: nat) returns (q: SeqV)
    requires c.Valid() && Inv(c, s) && FedInOrder(s) && id < |s.requests|
    ensures q.id == id && InOrder(s.fed, q) && q.promptLen == |s.requests[id].prompt|
  {
    hide Conserved, Fifo, ResultsAreLatest, SeqOk, InOrder;
    assert AllSum(s, HasId(id)) == 1;
    if Sum(s.waiting, HasId(id)) > 0 { q := SumFinds(s.waiting, id); }
    else if Sum(s.prefilling, HasId(id)) > 0 { q := SumFinds(s.prefilling, id); }
    else if Sum(s.running, HasId(id)) > 0 { q := SumFinds(s.running, id); }
    else { q := SumFinds(s.done, id); }
    PromptLenIs(c, s.requests[id], q);
  }

  lemma {:induction false} SumFinds(qs: seq<SeqV>, id: nat) returns (q: SeqV)
    requires Sum(qs, HasId(id)) > 0
    ensures q in qs && q.id == id
    decreases |qs|
  {
    if qs[0].id == id { q := qs[0]; } else { q := SumFinds(qs[1..], id); }
  }

  lemma PromptLenIs(c: Config, r: Request, q: SeqV)
    requires c.Valid() && SeqOk(c.m, c.size, r, q)
    ensures q.promptLen == |r.prompt|
  {
  }

  /** And in each step of a run at most the budget of that moment is fed, all of it
      unless whatever is left in prefill is finished. */
  lemma StepOfRunSpends(c: Config, run: seq<SchedV>, i: nat)
    requires c.Valid() && IsRun(c, run) && i + 1 < |run| && Step(c, run[i], run[i + 1])
    ensures var s, s' := run[i], run[i + 1];
      && s.fed <= s'.fed && |s'.fed| - |s.fed| <= s.budget
      && (|s'.fed| - |s.fed| < s.budget ==> AllIn(s'.prefilling, {Finished}))
  {
    hide Inv, Next, Init, Step, FedInOrder;
    var front := run[..i + 1];
    assert IsRun(c, front) by {
      forall j | 0 < j < |front| ensures Next(c, front[j - 1], front[j]) {
        assert Next(c, run[j - 1], run[j]);
      }
    }
    RunKeeps(c, front);
    RunFeeds(c, front);
    StepFeeds(c, run[i], run[i + 1]);
  }
}
