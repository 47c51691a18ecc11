/** The batch schedulers on values: what each operation does to the sequences, the
    free list and the results. */
module SchedSpec {
  import opened Numeric
  import opened Meaning
  import opened PagedStore
  import opened Generation

  datatype SeqState = Waiting | Prefilling | Running | Finished

  /** One request in flight.  `reason` means something only once it is finished. */
  datatype SeqV = SeqV(
    id: nat,
    tokens: seq<int>,
    promptLen: nat,
    cursor: nat,
    maxNew: nat,
    state: SeqState,
    reason: Reason,
    table: seq<nat>)
  {
    function Generated(): int { |tokens| - promptLen }

    function Finish(r: Reason): SeqV { this.(state := Finished, reason := r) }
  }

  datatype ResultV = ResultV(id: nat, promptLen: nat, tokens: seq<int>, reason: Reason)

  function Snapshot(q: SeqV): ResultV { ResultV(q.id, q.promptLen, q.tokens, q.reason) }

  function Snapshots(qs: seq<SeqV>): (rs: seq<ResultV>)
    ensures |rs| == |qs| && forall i | 0 <= i < |qs| :: rs[i] == Snapshot(qs[i])
  {
    seq(|qs|, i requires 0 <= i < |qs| => Snapshot(qs[i]))
  }

  /** What is fixed while a scheduler lives. */
  datatype Config = Config(m: Model, size: nat, blocks: nat, pool: set<nat>, maxConcurrent: nat) {
    ghost predicate Valid() { m.Valid() && size > 0 && maxConcurrent > 0 && forall b | b in pool :: b < blocks }
  }

  // ---- One sequence ----

  /** Prefill forwards of one sequence until its prompt or the budget runs out, or
      the pool does.  A failed forward spends no budget. */
  function PrefillRun(size: nat, q: SeqV, free: seq<nat>, budget: nat): (r: (SeqV, seq<nat>, nat))
    requires size > 0
    ensures r.2 <= budget
    decreases budget
  {
    if budget == 0 || q.cursor >= q.promptLen then (q, free, budget)
    else
      var t := TakeBlock(free, q.table, q.cursor, size);
      if !t.ok then (q.Finish(Capacity), free, budget)
      else PrefillRun(size, q.(cursor := q.cursor + 1, table := t.table), t.free, budget - 1)
  }

  /** One successful prefill forward: a request and the prompt position fed. */
  datatype Feed = Feed(id: nat, pos: nat)

  /** The forwards of such a run that went through, in order. */
  function PrefillTrace(size: nat, q: SeqV, free: seq<nat>, budget: nat): seq<Feed>
    requires size > 0
    decreases budget
  {
    if budget == 0 || q.cursor >= q.promptLen then []
    else
      var t := TakeBlock(free, q.table, q.cursor, size);
      if !t.ok then []
      else [Feed(q.id, q.cursor)] + PrefillTrace(size, q.(cursor := q.cursor + 1, table := t.table), t.free, budget - 1)
  }

  /** One greedy sample from the logits of the tokens so far, with the stop and
      length checks that follow it. */
  ghost function Sampled(m: Model, q: SeqV): SeqV
    requires m.Valid() && |q.tokens| > 0
  {
    var next := NextToken(m, F32, q.tokens);
    if next in m.eos then q.Finish(Stop)
    else
      var q' := q.(tokens := q.tokens + [next]);
      if q'.Generated() >= q.maxNew then q'.Finish(Length) else q'.(state := Running)
  }

  /** The end of a prompt: nothing is sampled when no token was asked for. */
  ghost function AfterPrompt(m: Model, q: SeqV): SeqV
    requires m.Valid() && |q.tokens| > 0
  {
    if q.maxNew == 0 then q.Finish(Length) else Sampled(m, q)
  }

  /** One sequence's turn in the prefill pass. */
  ghost function PrefillTurn(m: Model, size: nat, q: SeqV, free: seq<nat>, budget: nat): (r: (SeqV, seq<nat>, nat))
    requires m.Valid() && size > 0 && |q.tokens| > 0
    ensures r.2 <= budget
  {
    var (q', free', budget') := PrefillRun(size, q, free, budget);
    PrefillTokens(size, q, free, budget);
    if q'.state == Finished || q'.cursor != q'.promptLen then (q', free', budget')
    else (AfterPrompt(m, q'), free', budget')
  }

  lemma {:induction false} PrefillTokens(size: nat, q: SeqV, free: seq<nat>, budget: nat)
    requires size > 0
    ensures var q' := PrefillRun(size, q, free, budget).0;
      && q'.id == q.id && q'.tokens == q.tokens && q'.promptLen == q.promptLen && q'.maxNew == q.maxNew
      && (q'.state == q.state || (q'.state == Finished && q'.reason == Capacity))
    decreases budget
  {
    if budget > 0 && q.cursor < q.promptLen {
      var t := TakeBlock(free, q.table, q.cursor, size);
      if t.ok {
        PrefillTokens(size, q.(cursor := q.cursor + 1, table := t.table), t.free, budget - 1);
      }
    }
  }

  /** One sequence's turn in the decode pass; only running ones move. */
  ghost function DecodeTurn(m: Model, size: nat, q: SeqV, free: seq<nat>): (SeqV, seq<nat>)
    requires m.Valid() && size > 0 && |q.tokens| > 0
  {
    if q.state != Running then (q, free)
    else
      var t := TakeBlock(free, q.table, |q.tokens| - 1, size);
      if !t.ok then (q.Finish(Capacity), free)
      else (Sampled(m, q.(table := t.table)), t.free)
  }

  ghost predicate HaveTokens(qs: seq<SeqV>) {
    forall i | 0 <= i < |qs| :: |qs[i].tokens| > 0
  }

  // ---- Passes over a list ----

  datatype Advanced = Advanced(kept: seq<SeqV>, moved: seq<SeqV>, free: seq<nat>, budget: nat, fed: seq<Feed>)

  /** The prefill pass: turns in list order until the budget is gone; sequences that
      start running leave the list in the order they do.  `fed` is what went through
      the engine, in order. */
  ghost function Advance(m: Model, size: nat, qs: seq<SeqV>, free: seq<nat>, budget: nat): (a: Advanced)
    requires m.Valid() && size > 0 && HaveTokens(qs)
    ensures a.budget <= budget
    decreases |qs|
  {
    if |qs| == 0 || budget == 0 then Advanced(qs, [], free, budget, [])
    else
      var (q, free', budget') := PrefillTurn(m, size, qs[0], free, budget);
      var rest := Advance(m, size, qs[1..], free', budget');
      var fed := PrefillTrace(size, qs[0], free, budget) + rest.fed;
      if q.state == Running then rest.(moved := [q] + rest.moved, fed := fed)
      else rest.(kept := [q] + rest.kept, fed := fed)
  }

  ghost function DecodePass(m: Model, size: nat, qs: seq<SeqV>, free: seq<nat>): (r: (seq<SeqV>, seq<nat>))
    requires m.Valid() && size > 0 && HaveTokens(qs)
    ensures |r.0| == |qs|
    decreases |qs|
  {
    if |qs| == 0 then (qs, free)
    else
      var (q, free') := DecodeTurn(m, size, qs[0], free);
      var (rest, free'') := DecodePass(m, size, qs[1..], free');
      ([q] + rest, free'')
  }

  /** Blocks of finished sequences go to the back of the free list, in list order. */
  function Release(free: seq<nat>, done: seq<SeqV>): seq<nat>
    decreases |done|
  {
    if |done| == 0 then free else Release(free + done[0].table, done[1..])
  }

  /** Any split of the list into unfinished and finished: the order inside each part
      is not promised. */
  ghost predicate Split(qs: seq<SeqV>, kept: seq<SeqV>, done: seq<SeqV>) {
    && multiset(qs) == multiset(kept) + multiset(done)
    && (forall q | q in kept :: q.state != Finished)
    && (forall q | q in done :: q.state == Finished)
  }

  // ---- The continuous scheduler ----

  datatype Request = Request(prompt: seq<int>, maxNew: nat)

  /** `requests`, `done` and `fed` are history: everything ever enqueued, everything ever
      finished, and every prefill forward that went through; `results` is what
      `clear_results` has left of what finished. */
  datatype SchedV = SchedV(
    waiting: seq<SeqV>,
    prefilling: seq<SeqV>,
    running: seq<SeqV>,
    results: seq<ResultV>,
    free: seq<nat>,
    budget: nat,
    requests: seq<Request>,
    done: seq<SeqV>,
    fed: seq<Feed>)
  {
    function Live(): seq<SeqV> { prefilling + running }

    predicate Idle() { |waiting| == 0 && |prefilling| == 0 && |running| == 0 }
  }

  function NewSeq(id: nat, r: Request): SeqV {
    SeqV(id, r.prompt, |r.prompt|, 0, r.maxNew, Waiting, Length, [])
  }

  ghost predicate Init(c: Config, s: SchedV) {
    && s.Idle() && s.results == [] && s.requests == [] && s.done == [] && s.budget > 0
    && NoDuplicates(s.free) && (forall b: nat :: b in s.free <==> b in c.pool)
    && s.fed == []
  }

  function Enqueue(s: SchedV, r: Request): SchedV {
    s.(waiting := s.waiting + [NewSeq(|s.requests|, r)], requests := s.requests + [r])
  }

  ghost predicate FinalizePrefilling(s: SchedV, s': SchedV) {
    exists kept, done :: Split(s.prefilling, kept, done) && s' == Drop(s.(prefilling := kept), done)
  }

  ghost predicate FinalizeRunning(s: SchedV, s': SchedV) {
    exists kept, done :: Split(s.running, kept, done) && s' == Drop(s.(running := kept), done)
  }

  function Drop(s: SchedV, done: seq<SeqV>): SchedV {
    s.(results := s.results + Snapshots(done), done := s.done + done, free := Release(s.free, done))
  }

  /** Admission in arrival order while there is room. */
  function Admit(c: Config, s: SchedV): SchedV
    decreases |s.waiting|
  {
    if |s.waiting| == 0 || |s.running| + |s.prefilling| >= c.maxConcurrent then s
    else Admit(c, s.(waiting := s.waiting[1..], prefilling := s.prefilling + [s.waiting[0].(state := Prefilling)]))
  }

  ghost function AdvanceAll(c: Config, s: SchedV): SchedV
    requires c.Valid() && HaveTokens(s.prefilling)
  {
    var a := Advance(c.m, c.size, s.prefilling, s.free, s.budget);
    s.(prefilling := a.kept, running := s.running + a.moved, free := a.free, fed := s.fed + a.fed)
  }

  ghost function DecodeAll(c: Config, s: SchedV): SchedV
    requires c.Valid() && HaveTokens(s.running)
  {
    var (running, free) := DecodePass(c.m, c.size, s.running, s.free);
    s.(running := running, free := free)
  }

  /** One scheduler iteration. */
  ghost predicate Step(c: Config, s: SchedV, s': SchedV)
    requires c.Valid()
  {
    exists s1, s2 ::
      && FinalizePrefilling(s, s1) && FinalizeRunning(s1, s2)
      && HaveTokens(Admit(c, s2).prefilling)
      && HaveTokens(AdvanceAll(c, Admit(c, s2)).running)
      && s' == DecodeAll(c, AdvanceAll(c, Admit(c, s2)))
  }

  /** Anything a caller, or `run_until_idle`, can make the scheduler do. */
  ghost predicate Next(c: Config, s: SchedV, s': SchedV)
    requires c.Valid()
  {
    || Step(c, s, s')
    || FinalizePrefilling(s, s')
    || FinalizeRunning(s, s')
    || (exists r: Request :: RequestOk(c.m, r.prompt, r.maxNew) && s' == Enqueue(s, r))
    || (exists b: nat :: b > 0 && s' == s.(budget := b))
    || s' == s.(results := [])
  }

  /** A whole run, from construction. */
  ghost predicate IsRun(c: Config, run: seq<SchedV>)
    requires c.Valid()
  {
    && |run| > 0 && Init(c, run[0])
    && forall i | 0 < i < |run| :: Next(c, run[i - 1], run[i])
  }
}
