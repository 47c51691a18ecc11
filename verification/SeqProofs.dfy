/** What holds of one sequence whatever the schedule: its tokens follow the greedy
    run of its own request, and its table covers exactly what it has written. */
module SeqProofs {
  import opened Numeric
  import opened Meaning
  import opened PagedStore
  import opened Generation
  import opened EngineCore
  import opened SchedSpec

  ghost function GreedyOf(m: Model, r: Request): Outcome
    requires m.Valid() && |r.prompt| > 0
  {
    Greedy(m, F32, r.prompt, r.maxNew)
  }

  /** The sequence is on the greedy run of its request: what is left to decode from
      its tokens is what is left of that run; finished with "stop" or "length" it has
      the whole outcome, finished with "capacity" it has got part of the way. */
  ghost predicate Tracks(m: Model, r: Request, q: SeqV)
    requires m.Valid() && |r.prompt| > 0
  {
    && q.promptLen == |r.prompt| && q.maxNew == r.maxNew
    && r.prompt <= q.tokens && q.Generated() <= q.maxNew
    && match q.state
       case Waiting => q.tokens == r.prompt
       case Prefilling => q.tokens == r.prompt
       case Running => 1 <= q.Generated() < q.maxNew && OnTrack(m, r, q)
       case Finished =>
         if q.reason == Capacity then OnTrack(m, r, q) else Outcome(q.tokens, q.reason) == GreedyOf(m, r)
  }

  ghost predicate OnTrack(m: Model, r: Request, q: SeqV)
    requires m.Valid() && |r.prompt| > 0 && r.prompt <= q.tokens && 0 <= |q.tokens| - |r.prompt| <= r.maxNew
  {
    Greedy(m, F32, q.tokens, r.maxNew - (|q.tokens| - |r.prompt|)) == GreedyOf(m, r)
  }

  /** Positions whose keys and values are stored. */
  function FedCount(q: SeqV): nat {
    match q.state
    case Waiting => 0
    case Prefilling => q.cursor
    case Running => if |q.tokens| > 0 then |q.tokens| - 1 else 0
    case Finished => 0
  }

  /** The most blocks a request can come to hold: the last token it generates is
      never fed back. */
  function NeedOf(size: nat, promptLen: nat, maxNew: nat): nat
    requires size > 0 && promptLen > 0
  {
    CeilDiv(promptLen + (if maxNew > 1 then maxNew else 1) - 1, size)
  }

  ghost predicate Shape(m: Model, size: nat, q: SeqV)
    requires size > 0
  {
    && q.promptLen > 0 && TokensOk(m, q.tokens) && |q.tokens| <= q.promptLen + q.maxNew <= m.maxPos
    && q.promptLen <= |q.tokens|
    && |q.table| <= NeedOf(size, q.promptLen, q.maxNew)
    && match q.state
       case Waiting => q.cursor == 0 && q.table == []
       case Prefilling => q.cursor < q.promptLen && |q.table| == CeilDiv(q.cursor, size)
       case Running => |q.tokens| > q.promptLen && |q.table| == CeilDiv(|q.tokens| - 1, size)
       case Finished => q.reason == Stop || q.reason == Length || q.reason == Capacity
  }

  ghost predicate SeqOk(m: Model, size: nat, r: Request, q: SeqV)
    requires m.Valid() && size > 0
  {
    RequestOk(m, r.prompt, r.maxNew) && Tracks(m, r, q) && Shape(m, size, q)
  }

  // ---- What a result means ----

  /** A result that is not "capacity" is exactly what generation alone returns, and a
      "capacity" result is a prefix of it. */
  ghost predicate Faithful(m: Model, r: Request, x: ResultV)
    requires m.Valid() && |r.prompt| > 0
  {
    && x.promptLen == |r.prompt| && r.prompt <= x.tokens
    && if x.reason == Capacity then x.tokens <= GreedyOf(m, r).tokens
       else Outcome(x.tokens, x.reason) == GreedyOf(m, r)
  }

  lemma FinishedIsFaithful(m: Model, size: nat, r: Request, q: SeqV)
    requires m.Valid() && size > 0 && SeqOk(m, size, r, q) && q.state == Finished
    ensures Faithful(m, r, Snapshot(q))
  {
    if q.reason == Capacity {
      assert q.tokens <= Greedy(m, F32, q.tokens, r.maxNew - (|q.tokens| - |r.prompt|)).tokens;
    }
  }

  // ---- One sample ----

  /** What sampling does not touch. */
  ghost predicate SampledKeeps(q: SeqV, q': SeqV) {
    && q'.id == q.id && q'.promptLen == q.promptLen && q'.maxNew == q.maxNew && q'.cursor == q.cursor
      && q'.table == q.table
    && |q.tokens| <= |q'.tokens| <= |q.tokens| + 1
  }

  lemma SampledTracks(m: Model, r: Request, q: SeqV)
    requires m.Valid() && |r.prompt| > 0 && TokensOk(m, q.tokens)
    requires q.promptLen == |r.prompt| && q.maxNew == r.maxNew && r.prompt <= q.tokens
    requires 0 <= q.Generated() < q.maxNew && OnTrack(m, r, q)
    ensures Tracks(m, r, Sampled(m, q)) && TokensOk(m, Sampled(m, q).tokens)
    ensures Sampled(m, q).state == Running || Sampled(m, q).state == Finished
    ensures Sampled(m, q).state == Finished ==> Sampled(m, q).reason != Capacity
    ensures Sampled(m, q).state == Running ==> |Sampled(m, q).tokens| == |q.tokens| + 1
    ensures SampledKeeps(q, Sampled(m, q))
  {
  }

  // ---- Blocks ----

  /** Writing position `n` of a table that covers `n` positions. */
  lemma TakeCovers(free: seq<nat>, table: seq<nat>, n: nat, size: nat)
    requires size > 0 && |table| == CeilDiv(n, size)
    ensures var t := TakeBlock(free, table, n, size);
      && SameBlocks(free, table, t.free, t.table)
      && (t.ok ==> |t.table| == CeilDiv(n + 1, size))
      && (!t.ok ==> |free| == 0 && CeilDiv(n + 1, size) == |table| + 1)
  {
    TableGrows(n, size, free, table);
    TableGrows(n, size, [0], table);
    TakeFromFront(free, table, n, size);
    var t := TakeBlock(free, table, n, size);
    assert |t.table + t.free| == |table + free|;
  }

  /** Blocks are neither made nor lost by a turn. */
  ghost predicate SameBlocks(free: seq<nat>, table: seq<nat>, free': seq<nat>, table': seq<nat>) {
    && multiset(table' + free') == multiset(table + free)
    && |free'| + |table'| == |free| + |table|
  }

  // ---- Turns ----

  /** The prefill forwards of one turn: the cursor moves by exactly the budget spent,
      and stops at the end of the prompt, of the budget or of the pool. */
  ghost predicate RunOutcome(size: nat, q: SeqV, free: seq<nat>, budget: nat, q': SeqV, free': seq<nat>, budget': nat)
    requires size > 0
  {
    && SameBlocks(free, q.table, free', q'.table)
    && q.cursor <= q'.cursor <= q.promptLen && q'.cursor - q.cursor == budget - budget'
    && |q'.table| == CeilDiv(q'.cursor, size)
    && (if q'.state == Finished then
          q'.cursor < q.promptLen && budget' > 0 && |free'| == 0 && CeilDiv(q'.cursor + 1, size) == |q'.table| + 1
        else
          q'.state == Prefilling && (budget' == 0 || q'.cursor == q.promptLen))
  }

  lemma {:induction false} PrefillRunFacts(size: nat, q: SeqV, free: seq<nat>, budget: nat)
    requires size > 0 && q.state == Prefilling && q.cursor <= q.promptLen && |q.table| == CeilDiv(q.cursor, size)
    ensures var (q', free', budget') := PrefillRun(size, q, free, budget);
      RunOutcome(size, q, free, budget, q', free', budget')
    decreases budget
  {
    hide CeilDiv, TakeBlock, SameBlocks, RunOutcome;
    RunStops(size, q, free, budget);
    if budget == 0 || q.cursor >= q.promptLen {
    } else {
      TakeCovers(free, q.table, q.cursor, size);
      var t := TakeBlock(free, q.table, q.cursor, size);
      if t.ok {
        var next := q.(cursor := q.cursor + 1, table := t.table);
        PrefillRunFacts(size, next, t.free, budget - 1);
        var (q', free', budget') := PrefillRun(size, next, t.free, budget - 1);
        RunOutcomeStep(size, q, free, budget, next, t.free, q', free', budget');
      }
    }
  }

  /** A run that does not begin, and one that is refused its first block. */
  lemma RunStops(size: nat, q: SeqV, free: seq<nat>, budget: nat)
    requires size > 0 && q.state == Prefilling && q.cursor <= q.promptLen && |q.table| == CeilDiv(q.cursor, size)
    ensures budget == 0 || q.cursor == q.promptLen ==> RunOutcome(size, q, free, budget, q, free, budget)
    ensures budget > 0 && q.cursor < q.promptLen && |free| == 0 && CeilDiv(q.cursor + 1, size) == |q.table| + 1 ==>
      RunOutcome(size, q, free, budget, q.Finish(Capacity), free, budget)
  {
    hide CeilDiv;
  }

  lemma RunOutcomeStep(size: nat, q: SeqV, free: seq<nat>, budget: nat, next: SeqV, freeNext: seq<nat>, q': SeqV,
      free': seq<nat>, budget': nat)
    requires size > 0 && budget > 0 && next == q.(cursor := q.cursor + 1, table := next.table)
    requires SameBlocks(free, q.table, freeNext, next.table)
    requires RunOutcome(size, next, freeNext, budget - 1, q', free', budget')
    ensures RunOutcome(size, q, free, budget, q', free', budget')
  {
    hide CeilDiv;
  }

  /** A turn in the prefill pass keeps the sequence right; it spends budget exactly on
      the positions it feeds, and with budget left over it never stays in prefill. */
  lemma PrefillTurnOk(m: Model, size: nat, r: Request, q: SeqV, free: seq<nat>, budget: nat)
    requires m.Valid() && size > 0 && SeqOk(m, size, r, q) && q.state == Prefilling
    ensures var (q', free', budget') := PrefillTurn(m, size, q, free, budget);
      && SeqOk(m, size, r, q') && q'.id == q.id && q'.state != Waiting
      && SameBlocks(free, q.table, free', q'.table)
      && q.cursor <= q'.cursor && q'.cursor - q.cursor == budget - budget'
      && (budget' > 0 ==> q'.state != Prefilling)
      && (q'.state == Finished && q'.reason == Capacity ==>
        |free'| == 0 && |q'.table| < NeedOf(size, q.promptLen, q.maxNew))
  {
    hide CeilDiv, TakeBlock, PrefillRun, Greedy, TokensOk;
    PrefillRunFacts(size, q, free, budget);
    PrefillTokens(size, q, free, budget);
    var (q', free', budget') := PrefillRun(size, q, free, budget);
    BlocksGrow(q'.cursor, q.promptLen + (if q.maxNew > 1 then q.maxNew else 1) - 1, size);
    if q'.state == Finished {
      BlocksGrow(q'.cursor + 1, q.promptLen + (if q.maxNew > 1 then q.maxNew else 1) - 1, size);
    } else if q'.cursor == q.promptLen && q.maxNew > 0 {
      SampledTracks(m, r, q');
    } else {
      NothingAsked(m, r.prompt);
    }
  }

  lemma NothingAsked(m: Model, ts: seq<int>)
    requires m.Valid() && |ts| > 0
    ensures Greedy(m, F32, ts, 0) == Outcome(ts, Length)
  {
  }

  lemma DecodeTurnOk(m: Model, size: nat, r: Request, q: SeqV, free: seq<nat>)
    requires m.Valid() && size > 0 && SeqOk(m, size, r, q) && (q.state == Running || q.state == Finished)
    ensures var (q', free') := DecodeTurn(m, size, q, free);
      && SeqOk(m, size, r, q') && q'.id == q.id && (q'.state == Running || q'.state == Finished)
      && SameBlocks(free, q.table, free', q'.table)
      && (q.state == Running && q'.state == Running ==> |q'.tokens| == |q.tokens| + 1)
      && (q.state == Running && q'.state == Finished && q'.reason == Capacity ==>
            |free'| == 0 && |q'.table| < NeedOf(size, q.promptLen, q.maxNew))
  {
    hide CeilDiv, TakeBlock, GreedyOf, Greedy, TokensOk, Sampled;
    if q.state == Running {
      var n := |q.tokens| - 1;
      TakeCovers(free, q.table, n, size);
      BlocksGrow(n + 1, q.promptLen + (if q.maxNew > 1 then q.maxNew else 1) - 1, size);
      var t := TakeBlock(free, q.table, n, size);
      assert SameBlocks(free, q.table, t.free, t.table);
      if t.ok { SampledTracks(m, r, q.(table := t.table)); }
    }
  }

  /** The need of a request is what it takes: a sequence that decodes its last token but
      one into the cache holds exactly so many blocks. */
  lemma NeedIsReached(m: Model, size: nat, r: Request, q: SeqV, free: seq<nat>)
    requires m.Valid() && size > 0 && SeqOk(m, size, r, q) && q.state == Running
    requires |q.tokens| == q.promptLen + q.maxNew - 1 && DecodeTurn(m, size, q, free).0.reason != Capacity
    requires DecodeTurn(m, size, q, free).0.state == Finished
    ensures |DecodeTurn(m, size, q, free).0.table| == NeedOf(size, q.promptLen, q.maxNew)
  {
    hide CeilDiv, TakeBlock, GreedyOf, Greedy, TokensOk, NextToken;
    TakeCovers(free, q.table, |q.tokens| - 1, size);
  }
}
