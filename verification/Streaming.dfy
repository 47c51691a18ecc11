/** Streaming generation: callbacks run with the engine's mutex released, so anybody
    may use the engine in between. */
module Streaming {
  import opened Numeric
  import opened Meaning
  import opened KvCache
  import opened Recall
  import opened EngineCore
  import opened Generation

  /** What the caller sees, with whether the call held the engine's mutex at that moment. */
  datatype Event = Token(t: int, held: bool) | Done(reason: Reason, held: bool)

  /** Everything outside the call: which polls of the cancel token say yes, which steps
      throw (0 loads the model, 1 allocates the cache, 2 and on are the forward steps),
      which token callbacks and which reports throw, and which callbacks were given at all. */
  datatype Env = Env(cancel: nat -> bool, fault: nat -> bool, throws: nat -> bool, doneThrows: nat -> bool,
      onToken: bool, onDone: bool)

  function TokenEvents(ts: seq<int>): (es: seq<Event>)
    ensures |es| == |ts| && forall i | 0 <= i < |ts| :: es[i] == Token(ts[i], false)
  {
    seq(|ts|, i requires 0 <= i < |ts| => Token(ts[i], false))
  }

  lemma NoEvents()
    ensures TokenEvents([]) == []
  {
  }

  lemma EventsGrow(ts: seq<int>, t: int)
    ensures TokenEvents(ts + [t]) == TokenEvents(ts) + [Token(t, false)]
  {
  }

  /** The tokens generation adds to the prompt. */
  ghost function Added(m: Model, dt: Dtype, prompt: seq<int>, maxNew: nat): seq<int>
    requires m.Valid() && |prompt| > 0
  {
    Greedy(m, dt, prompt, maxNew).tokens[|prompt|..]
  }

  /** Other calls on the engine, while the mutex is free: the shared scratch ends up
      holding anything. */
  method Interfere(e: Engine)
    modifies e
  {
    e.h, e.qBuf, e.kBuf, e.vBuf, e.attnOut := *, *, *, *, *;
    e.gather, e.b := *, *;
  }

  /** One of the first `n` answers of a script is yes. */
  ghost predicate Fired(script: nat -> bool, n: nat) {
    exists j: nat :: j < n && script(j)
  }

  lemma FiredNext(script: nat -> bool, n: nat)
    ensures Fired(script, n + 1) <==> Fired(script, n) || script(n)
  {
    if Fired(script, n + 1) {
      var j: nat :| j < n + 1 && script(j);
      assert j < n ==> Fired(script, n);
    }
    if script(n) { assert n < n + 1; }
  }

  /** Generation from the prompt is generation from what has been chosen so far. */
  ghost predicate Underway(m: Model, dt: Dtype, prompt: seq<int>, maxNew: nat, chosen: seq<int>)
    requires m.Valid()
  {
    && RequestOk(m, prompt, maxNew) && |chosen| <= maxNew
    && Greedy(m, dt, prompt, maxNew) == Greedy(m, dt, prompt + chosen, maxNew - |chosen|)
  }

  /** What a run has chosen is the beginning of what generation adds. */
  lemma ChosenSoFar(m: Model, dt: Dtype, prompt: seq<int>, maxNew: nat, chosen: seq<int>)
    requires m.Valid() && Underway(m, dt, prompt, maxNew, chosen)
    ensures |prompt| > 0 && chosen <= Added(m, dt, prompt, maxNew)
    ensures |chosen| == maxNew ==>
      chosen == Added(m, dt, prompt, maxNew) && Greedy(m, dt, prompt, maxNew).reason == Length
    ensures |chosen| < maxNew && NextToken(m, dt, prompt + chosen) in m.eos ==>
      chosen == Added(m, dt, prompt, maxNew) && Greedy(m, dt, prompt, maxNew).reason == Stop
  {
    hide Hidden, Logits;
    var all := Greedy(m, dt, prompt + chosen, maxNew - |chosen|).tokens;
    assert prompt + chosen <= all;
    assert all[|prompt|..][..|chosen|] == (prompt + chosen)[|prompt|..];
  }

  lemma NothingChosen(m: Model, dt: Dtype, prompt: seq<int>, maxNew: nat)
    requires m.Valid() && RequestOk(m, prompt, maxNew)
    ensures Underway(m, dt, prompt, maxNew, []) && prompt + [] == prompt && |prompt| > 0
  {
    assert prompt + [] == prompt;
  }

  lemma GreedyGoesOn(m: Model, dt: Dtype, prompt: seq<int>, maxNew: nat, chosen: seq<int>, next: nat)
    requires m.Valid() && Underway(m, dt, prompt, maxNew, chosen) && |chosen| < maxNew
    requires next == NextToken(m, dt, prompt + chosen) && next !in m.eos
    ensures Underway(m, dt, prompt, maxNew, chosen + [next])
    ensures (prompt + chosen) + [next] == prompt + (chosen + [next])
  {
    hide Hidden, Logits;
    assert (prompt + chosen) + [next] == prompt + (chosen + [next]);
  }

  // ---- When a call ends, without counting ----

  /** Nothing has happened in the first `p` polls, `s` steps and `c` token callbacks. */
  ghost predicate Clear(env: Env, p: nat, s: nat, c: nat) {
    !Fired(env.cancel, p) && !Fired(env.fault, s) && (env.onToken ==> !Fired(env.throws, c))
  }

  function Past(j: nat, n: nat): nat { if j > n then j - n else 0 }

  /** The polls of a call that is left alone: one before each position of the prompt, one
      before each token, and one more if it ends before the cap. */
  function Polls(promptLen: nat, added: nat, maxNew: nat): nat {
    promptLen + added + if added < maxNew then 1 else 0
  }

  /** Its steps: loading, allocating, the prompt, and the tokens except one at the cap. */
  function Steps(promptLen: nat, added: nat, maxNew: nat): nat {
    2 + promptLen + if 0 < added == maxNew then added - 1 else added
  }

  /** Poll `j` is the first thing to happen.  Before it come the steps up to its position
      and the callbacks of the tokens chosen so far. */
  ghost predicate CancelAt(env: Env, promptLen: nat, j: nat) {
    env.cancel(j) && Clear(env, j, 2 + j, Past(j, promptLen))
  }

  /** Step `j` is the first thing to happen. */
  ghost predicate FaultAt(env: Env, promptLen: nat, j: nat) {
    env.fault(j) && Clear(env, Past(j, 1), j, Past(j, promptLen + 1))
  }

  /** The callback of token `k` is. */
  ghost predicate ThrowAt(env: Env, promptLen: nat, k: nat) {
    env.onToken && env.throws(k) && Clear(env, promptLen + k + 1, 2 + promptLen + k, k)
  }

  /** How an accepted request ends: at the first poll that says yes, the first step or the
      first callback that throws, each with the tokens chosen by then, and otherwise as
      generation does. */
  ghost predicate EndsAs(m: Model, dt: Dtype, env: Env, prompt: seq<int>, maxNew: nat, reason: Reason, chosen: seq<int>)
    requires m.Valid() && |prompt| > 0
  {
    var added, n := Added(m, dt, prompt, maxNew), |prompt|;
    || (reason == Reason.Cancelled && exists j: nat :: CancelEnds(env, n, added, maxNew, chosen, j))
    || (reason == Failed && exists j: nat :: FaultEnds(env, n, added, maxNew, chosen, j))
    || (reason == Failed && exists k: nat :: ThrowEnds(env, n, added, chosen, k))
    || (reason == Greedy(m, dt, prompt, maxNew).reason && chosen == added
        && Clear(env, Polls(n, |added|, maxNew), Steps(n, |added|, maxNew), |added|))
  }

  ghost predicate CancelEnds(env: Env, promptLen: nat, added: seq<int>, maxNew: nat, chosen: seq<int>, j: nat) {
    j < Polls(promptLen, |added|, maxNew) && CancelAt(env, promptLen, j) && chosen == added[..Past(j, promptLen)]
  }

  ghost predicate FaultEnds(env: Env, promptLen: nat, added: seq<int>, maxNew: nat, chosen: seq<int>, j: nat) {
    j < Steps(promptLen, |added|, maxNew) && FaultAt(env, promptLen, j) && chosen == added[..Past(j, promptLen + 1)]
  }

  ghost predicate ThrowEnds(env: Env, promptLen: nat, added: seq<int>, chosen: seq<int>, k: nat) {
    k < |added| && ThrowAt(env, promptLen, k) && chosen == added[..k + 1]
  }

  /** How any request ends, and whether the handler reports it: a bad token and a failed
      load are caught before the other checks, which report on their own. */
  ghost predicate Ending(m: Model, dt: Dtype, env: Env, prompt: seq<int>, maxNew: int, reason: Reason, caught: bool,
      chosen: seq<int>)
    requires m.Valid()
  {
    if !TokensOk(m, prompt) || env.fault(0) then reason == Failed && caught && chosen == []
    else if !RequestOk(m, prompt, maxNew) then reason == Failed && !caught && chosen == []
    else EndsAs(m, dt, env, prompt, maxNew, reason, chosen) && caught == (reason == Failed)
  }

  lemma ClearNext(env: Env, p: nat, s: nat, c: nat)
    requires Clear(env, p, s, c)
    ensures !env.cancel(p) ==> Clear(env, p + 1, s, c)
    ensures !env.fault(s) ==> Clear(env, p, s + 1, c)
    ensures !env.onToken || !env.throws(c) ==> Clear(env, p, s, c + 1)
  {
    hide Fired;
    FiredNext(env.cancel, p);
    FiredNext(env.fault, s);
    FiredNext(env.throws, c);
  }

  lemma NothingYet(env: Env)
    ensures Clear(env, 0, 0, 0)
  {
  }

  /** A poll of the prefill says yes. */
  lemma CancelBefore(m: Model, dt: Dtype, env: Env, prompt: seq<int>, maxNew: nat, j: nat)
    requires m.Valid() && |prompt| > 0 && j < |prompt| && env.cancel(j) && Clear(env, j, 2 + j, 0)
    ensures EndsAs(m, dt, env, prompt, maxNew, Reason.Cancelled, [])
  {
    hide Clear, Greedy;
    assert CancelEnds(env, |prompt|, Added(m, dt, prompt, maxNew), maxNew, [], j);
  }

  /** A step up to the end of the prefill throws. */
  lemma FaultBefore(m: Model, dt: Dtype, env: Env, prompt: seq<int>, maxNew: nat, j: nat)
    requires m.Valid() && |prompt| > 0 && j < 2 + |prompt| && env.fault(j) && Clear(env, Past(j, 1), j, 0)
    ensures EndsAs(m, dt, env, prompt, maxNew, Failed, [])
  {
    hide Clear, Greedy;
    assert FaultEnds(env, |prompt|, Added(m, dt, prompt, maxNew), maxNew, [], j);
  }

  lemma CancelDuring(m: Model, dt: Dtype, env: Env, prompt: seq<int>, maxNew: nat, chosen: seq<int>)
    requires m.Valid() && Underway(m, dt, prompt, maxNew, chosen) && |chosen| < maxNew
    requires env.cancel(|prompt| + |chosen|)
    requires Clear(env, |prompt| + |chosen|, 2 + |prompt| + |chosen|, |chosen|)
    ensures EndsAs(m, dt, env, prompt, maxNew, Reason.Cancelled, chosen)
  {
    hide Clear, Greedy, Underway;
    ChosenSoFar(m, dt, prompt, maxNew, chosen);
    assert CancelEnds(env, |prompt|, Added(m, dt, prompt, maxNew), maxNew, chosen, |prompt| + |chosen|);
  }

  /** The callback of the last chosen token throws. */
  lemma ThrowDuring(m: Model, dt: Dtype, env: Env, prompt: seq<int>, maxNew: nat, chosen: seq<int>)
    requires m.Valid() && Underway(m, dt, prompt, maxNew, chosen) && |chosen| > 0
    requires env.onToken && env.throws(|chosen| - 1)
    requires Clear(env, |prompt| + |chosen|, 1 + |prompt| + |chosen|, |chosen| - 1)
    ensures EndsAs(m, dt, env, prompt, maxNew, Failed, chosen)
  {
    hide Clear, Greedy, Underway;
    ChosenSoFar(m, dt, prompt, maxNew, chosen);
    assert ThrowEnds(env, |prompt|, Added(m, dt, prompt, maxNew), chosen, |chosen| - 1);
  }

  /** The forward step of the last chosen token throws. */
  lemma FaultDuring(m: Model, dt: Dtype, env: Env, prompt: seq<int>, maxNew: nat, chosen: seq<int>)
    requires m.Valid() && Underway(m, dt, prompt, maxNew, chosen) && 0 < |chosen| < maxNew
    requires env.fault(1 + |prompt| + |chosen|)
    requires Clear(env, |prompt| + |chosen|, 1 + |prompt| + |chosen|, |chosen|)
    ensures EndsAs(m, dt, env, prompt, maxNew, Failed, chosen)
  {
    hide Clear, Greedy, Underway;
    ChosenSoFar(m, dt, prompt, maxNew, chosen);
    assert FaultEnds(env, |prompt|, Added(m, dt, prompt, maxNew), maxNew, chosen, 1 + |prompt| + |chosen|);
  }

  /** Left alone it ends with all of it: at an end-of-text token, or at the cap. */
  lemma RanOut(m: Model, dt: Dtype, env: Env, prompt: seq<int>, maxNew: nat, reason: Reason, chosen: seq<int>)
    requires m.Valid() && Underway(m, dt, prompt, maxNew, chosen)
    requires if |chosen| == maxNew then reason == Length
             else reason == Stop && NextToken(m, dt, prompt + chosen) in m.eos
    requires Clear(env, Polls(|prompt|, |chosen|, maxNew), Steps(|prompt|, |chosen|, maxNew), |chosen|)
    ensures EndsAs(m, dt, env, prompt, maxNew, reason, chosen)
  {
    hide Clear, Greedy, Underway, NextToken;
    ChosenSoFar(m, dt, prompt, maxNew, chosen);
  }

  /** The call in progress: the mutex, what the caller has seen, and how often the
      environment has been asked. */
  class Stream {
    const e: Engine
    const env: Env
    var owns: bool
    var events: seq<Event>
    var polls: nat
    var steps: nat
    var calls: nat
    var reports: nat

    constructor (e: Engine, env: Env)
      ensures this.e == e && this.env == env && !owns && events == [] && polls == steps == calls == reports == 0
    {
      this.e, this.env, owns, events, polls, steps, calls, reports := e, env, false, [], 0, 0, 0, 0;
    }

    /** The environment has been asked so often, and has said no every time. */
    ghost predicate At(p: nat, s: nat, c: nat)
      reads this
    {
      polls == p && steps == s && calls == (if env.onToken then c else 0) && Clear(env, p, s, c)
    }

    method Cancelled(ghost p: nat, ghost s: nat, ghost c: nat) returns (yes: bool)
      requires At(p, s, c)
      modifies this`polls
      ensures yes == env.cancel(p) && (!yes ==> At(p + 1, s, c))
    {
      ClearNext(env, p, s, c);
      yes := env.cancel(polls);
      polls := polls + 1;
    }

    /** Something that may throw: loading, allocating, a forward step. */
    method Throws(ghost p: nat, ghost s: nat, ghost c: nat) returns (yes: bool)
      requires At(p, s, c) && owns
      modifies this`steps
      ensures yes == env.fault(s) && (!yes ==> At(p, s + 1, c))
    {
      ClearNext(env, p, s, c);
      yes := env.fault(steps);
      steps := steps + 1;
    }

    /** Hands a token over with the mutex free; the callback may throw, and meanwhile
        anybody may use the engine. */
    method Deliver(t: int, ghost p: nat, ghost s: nat, ghost c: nat) returns (threw: bool)
      requires At(p, s, c) && owns
      modifies this, e
      ensures reports == old(reports)
      ensures events == old(events) + if env.onToken then [Token(t, false)] else []
      ensures threw == (env.onToken && env.throws(c)) && (!threw ==> At(p, s, c + 1) && owns)
    {
      ClearNext(env, p, s, c);
      threw := false;
      if env.onToken {
        owns := false;
        events := events + [Token(t, owns)];
        Interfere(e);
        threw := env.throws(calls);
        calls := calls + 1;
        if !threw { owns := true; }
      }
    }

    /** The body of the try block, up to its report: the reason to be reported, and
        whether it is the handler that reports it. */
    method Attempt(prompt: seq<int>, maxNew: int) returns (reason: Reason, caught: bool, ghost chosen: seq<int>)
      requires e.m.Valid() && At(0, 0, 0) && events == [] && !owns
      modifies this, e
      ensures reports == old(reports) && events == if env.onToken then TokenEvents(chosen) else []
      ensures Ending(e.m, KvDtype(e.storage), env, prompt, maxNew, reason, caught, chosen)
    {
      hide Fired, Hidden, EndsAs, Clear;
      chosen := [];
      NoEvents();
      if !TokensOk(e.m, prompt) { return Failed, true, []; }
      owns := true;
      var threw := Throws(0, 0, 0);
      if threw { return Failed, true, []; }
      if |prompt| == 0 { return Failed, false, []; }
      if maxNew < 0 { return Failed, false, []; }
      if |prompt| + maxNew > e.m.maxPos { return Failed, false, []; }
      threw := Throws(0, 1, 0);
      if threw {
        FaultBefore(e.m, KvDtype(e.storage), env, prompt, maxNew, 1);
        return Failed, true, [];
      }
      var kv := NewCache(e, |prompt| + maxNew);
      var stop, logits := FeedPrompt(kv, prompt, maxNew);
      if stop.Some? { return stop.value, stop.value == Failed, []; }
      reason, chosen := EmitTokens(kv, prompt, maxNew, logits);
      caught := reason == Failed;
    }

    /** One forward step, unless something throws. */
    method StepOn(token: int, pos: nat, kv: ContiguousKVCache, wantLogits: bool, ghost before: seq<int>, ghost p: nat,
        ghost s: nat, ghost c: nat)
      returns (threw: bool, logits: Row)
      requires e.m.Valid() && At(p, s, c) && owns && |before| == pos < kv.maxSeqLen
      requires kv.Valid() && Fits(e.m, kv) && Recalls(e.m, kv, before, e.m.layers)
      modifies this`steps, e, kv, kv.kCells, kv.vCells
      ensures kv.Valid() && threw == env.fault(s)
      ensures !threw ==> At(p, s + 1, c) && Recalls(e.m, kv, before + [token], e.m.layers)
      ensures !threw && wantLogits ==> logits == Logits(e.m, kv.dtype, before + [token])
    {
      hide KvCache.Mirrors, Model.Valid, Holds, Hidden, Clear;
      logits := [];
      threw := Throws(p, s, c);
      if threw { return; }
      logits := e.ForwardStep(token, pos, kv, wantLogits, before);
    }

    /** Prefill, polling for cancellation before every step. */
    method FeedPrompt(kv: ContiguousKVCache, prompt: seq<int>, ghost maxNew: nat)
      returns (stop: Option<Reason>, logits: Row)
      requires e.m.Valid() && At(0, 2, 0) && owns && 0 < |prompt| <= kv.maxSeqLen && RequestOk(e.m, prompt, maxNew)
      requires kv.Valid() && Fits(e.m, kv) && Recalls(e.m, kv, [], e.m.layers)
      modifies this`polls, this`steps, e, kv, kv.kCells, kv.vCells
      ensures kv.Valid()
      ensures stop.None? ==> At(|prompt|, 2 + |prompt|, 0) && Recalls(e.m, kv, prompt, e.m.layers)
      ensures stop.None? ==> logits == Logits(e.m, kv.dtype, prompt)
      ensures stop.Some? ==> EndsAs(e.m, KvDtype(e.storage), env, prompt, maxNew, stop.value, [])
    {
      hide KvCache.Mirrors, Model.Valid, Holds, Hidden, Fired, Clear, EndsAs;
      logits := [];
      var i := 0;
      assert prompt[..0] == [];
      while i < |prompt|
        invariant 0 <= i <= |prompt| && At(i, 2 + i, 0)
        invariant kv.Valid() && Recalls(e.m, kv, prompt[..i], e.m.layers)
        invariant i == |prompt| ==> logits == Logits(e.m, kv.dtype, prompt)
      {
        var yes := Cancelled(i, 2 + i, 0);
        if yes {
          CancelBefore(e.m, KvDtype(e.storage), env, prompt, maxNew, i);
          return Some(Reason.Cancelled), [];
        }
        assert prompt[..i] + [prompt[i]] == prompt[..i + 1];
        var threw, row := StepOn(prompt[i], i, kv, i + 1 == |prompt|, prompt[..i], i + 1, 2 + i, 0);
        if threw {
          FaultBefore(e.m, KvDtype(e.storage), env, prompt, maxNew, 2 + i);
          return Some(Failed), [];
        }
        if i + 1 == |prompt| {
          assert prompt[..i + 1] == prompt;
          logits := row;
        }
        i := i + 1;
      }
      assert prompt[..i] == prompt;
      stop := None;
    }

    /** Inside the decode loop: what was chosen has been emitted, and the logits and the
        cache are those of the prompt and the chosen tokens while there is more to come.
        The cache is this call's own, so what others do to the engine does not matter. */
    ghost predicate Going(kv: ContiguousKVCache, prompt: seq<int>, maxNew: nat, chosen: seq<int>, logits: Row)
      requires e.m.Valid() && |prompt| > 0
      reads this, kv, kv.kCells, kv.vCells
    {
      && At(|prompt| + |chosen|, Steps(|prompt|, |chosen|, maxNew), |chosen|)
      && owns && kv.Valid() && Fits(e.m, kv) && kv.dtype == KvDtype(e.storage)
      && events == (if env.onToken then TokenEvents(chosen) else [])
      && (|chosen| < maxNew ==>
        Recalls(e.m, kv, prompt + chosen, e.m.layers) && logits == Logits(e.m, kv.dtype, prompt + chosen))
    }

    /** One round: a poll, a sample, the callback, and the next forward step unless this
        was the last token. */
    method Round(kv: ContiguousKVCache, prompt: seq<int>, maxNew: nat, generated: nat, logits: Row,
        ghost chosen: seq<int>)
      returns (stop: Option<Reason>, logits': Row, ghost chosen': seq<int>)
      requires e.m.Valid() && |prompt| > 0 && Going(kv, prompt, maxNew, chosen, logits)
      requires Underway(e.m, KvDtype(e.storage), prompt, maxNew, chosen)
      requires generated == |chosen| < maxNew && |prompt| + maxNew <= kv.maxSeqLen
      modifies this, e, kv, kv.kCells, kv.vCells
      ensures reports == old(reports)
      ensures stop.None? ==> |chosen'| == generated + 1 && Going(kv, prompt, maxNew, chosen', logits')
      ensures stop.None? ==> Underway(e.m, KvDtype(e.storage), prompt, maxNew, chosen')
      ensures stop.Some? ==> events == if env.onToken then TokenEvents(chosen') else []
      ensures stop.Some? ==> EndsAs(e.m, KvDtype(e.storage), env, prompt, maxNew, stop.value, chosen')
    {
      hide KvCache.Mirrors, Holds, Hidden, Clear, Model.Valid, TokenEvents, Underway, EndsAs;
      logits', chosen' := logits, chosen;
      ghost var dt, n, k := KvDtype(e.storage), |prompt|, generated;
      var yes := Cancelled(n + k, 2 + n + k, k);
      if yes {
        CancelDuring(e.m, dt, env, prompt, maxNew, chosen);
        return Some(Reason.Cancelled), logits, chosen;
      }
      LogitsFull(e.m, kv.dtype, prompt + chosen);
      var next := Argmax(e.m, logits);
      if next in e.m.eos {
        RanOut(e.m, dt, env, prompt, maxNew, Stop, chosen);
        return Some(Stop), logits, chosen;
      }
      GreedyGoesOn(e.m, kv.dtype, prompt, maxNew, chosen, next);
      EventsGrow(chosen, next);
      chosen' := chosen + [next];
      var threw := Deliver(next, n + k + 1, 2 + n + k, k);
      if threw {
        ThrowDuring(e.m, dt, env, prompt, maxNew, chosen');
        return Some(Failed), logits, chosen';
      }
      if generated + 1 < maxNew {
        threw, logits' := StepOn(next, |prompt| + generated, kv, true, prompt + chosen, n + k + 1, 2 + n + k, k + 1);
        if threw {
          FaultDuring(e.m, dt, env, prompt, maxNew, chosen');
          return Some(Failed), logits', chosen';
        }
      }
      stop := None;
    }

    /** The decode loop. */
    method EmitTokens(kv: ContiguousKVCache, prompt: seq<int>, maxNew: nat, first: Row)
      returns (reason: Reason, ghost chosen: seq<int>)
      requires e.m.Valid() && At(|prompt|, 2 + |prompt|, 0) && owns && events == [] && RequestOk(e.m, prompt, maxNew)
      requires |prompt| + maxNew <= kv.maxSeqLen
      requires kv.Valid() && Fits(e.m, kv) && Recalls(e.m, kv, prompt, e.m.layers) && kv.dtype == KvDtype(e.storage)
      requires first == Logits(e.m, kv.dtype, prompt)
      modifies this, e, kv, kv.kCells, kv.vCells
      ensures reports == old(reports) && events == if env.onToken then TokenEvents(chosen) else []
      ensures EndsAs(e.m, KvDtype(e.storage), env, prompt, maxNew, reason, chosen)
    {
      hide KvCache.Mirrors, Holds, Hidden, Clear, Model.Valid, TokenEvents, Underway, EndsAs;
      var logits := first;
      var generated := 0;
      chosen := [];
      NothingChosen(e.m, kv.dtype, prompt, maxNew);
      NoEvents();
      while generated < maxNew
        invariant generated == |chosen| <= maxNew && reports == old(reports)
        invariant Going(kv, prompt, maxNew, chosen, logits) && Underway(e.m, KvDtype(e.storage), prompt, maxNew, chosen)
      {
        var stop;
        stop, logits, chosen := Round(kv, prompt, maxNew, generated, logits, chosen);
        if stop.Some? { return stop.value, chosen; }
        generated := generated + 1;
      }
      reason := Length;
      RanOut(e.m, KvDtype(e.storage), env, prompt, maxNew, Length, chosen);
    }

    /** Releases the mutex if it is held, then reports once; the report may throw. */
    method Finish(reason: Reason) returns (threw: bool)
      modifies this`owns, this`events, this`reports
      ensures !owns && events == old(events) + if env.onDone then [Done(reason, false)] else []
      ensures threw == (env.onDone && env.doneThrows(old(reports)))
      ensures reports == old(reports) + if env.onDone then 1 else 0
    {
      owns, threw := false, false;
      if env.onDone {
        events := events + [Done(reason, owns)];
        threw := env.doneThrows(reports);
        reports := reports + 1;
      }
    }
  }

  /** The reports a call makes.  A report that throws inside the try block is followed
      by one more, from the handler; one made by the handler is the last. */
  function Reports(env: Env, reason: Reason, caught: bool): seq<Event> {
    if !env.onDone then []
    else if !caught && env.doneThrows(0) then [Done(reason, false), Done(Failed, false)]
    else [Done(reason, false)]
  }

  /** Streaming generation under interference.  The caller sees the chosen tokens, then
      the report; the mutex is free in every callback and at the end; and whatever the
      environment does the tokens are the first ones `generate` would add, all of them
      unless the call was cancelled, was refused, or something threw.  The call itself
      throws exactly when the handler's report does. */
  method GenerateStreaming(e: Engine, prompt: seq<int>, maxNew: int, env: Env)
    returns (s: Stream, reason: Reason, caught: bool, escaped: bool, ghost chosen: seq<int>)
    requires e.m.Valid()
    modifies e
    ensures fresh(s) && s.e == e && s.env == env && !s.owns
    ensures s.events == (if env.onToken then TokenEvents(chosen) else []) + Reports(env, reason, caught)
    ensures Ending(e.m, KvDtype(e.storage), env, prompt, maxNew, reason, caught, chosen)
    ensures escaped == (env.onDone && env.doneThrows(0) && (caught || env.doneThrows(1)))
  {
    hide Clear;
    s := new Stream(e, env);
    NothingYet(env);
    reason, caught, chosen := s.Attempt(prompt, maxNew);
    var threw := s.Finish(reason);
    escaped := threw;
    if !caught && threw { escaped := s.Finish(Failed); }
  }

  /** `on_done` fires exactly once if and only if the first report does not throw or
      something had thrown before it. */
  lemma OneReport(env: Env, reason: Reason, caught: bool)
    requires env.onDone
    ensures |Reports(env, reason, caught)| == 1 <==> caught || !env.doneThrows(0)
    ensures Reports(env, reason, caught)[0] == Done(reason, false)
    ensures |Reports(env, reason, caught)| > 1 ==> Reports(env, reason, caught)[1..] == [Done(Failed, false)]
  {
  }

  // ---- What that means ----

  /** Left alone, streaming is generation. */
  lemma UndisturbedIsGenerate(m: Model, dt: Dtype, env: Env, prompt: seq<int>, maxNew: nat, reason: Reason,
      chosen: seq<int>)
    requires m.Valid() && |prompt| > 0 && EndsAs(m, dt, env, prompt, maxNew, reason, chosen)
    requires forall j: nat :: !env.cancel(j) && !env.fault(j) && !env.throws(j)
    ensures Outcome(prompt + chosen, reason) == Greedy(m, dt, prompt, maxNew)
  {
    hide Hidden;
    var o := Greedy(m, dt, prompt, maxNew);
    assert prompt + o.tokens[|prompt|..] == o.tokens;
  }

  /** The tokens are always the first ones generation would add. */
  lemma ChosenIsPrefix(m: Model, dt: Dtype, env: Env, prompt: seq<int>, maxNew: nat, reason: Reason, chosen: seq<int>)
    requires m.Valid() && |prompt| > 0 && EndsAs(m, dt, env, prompt, maxNew, reason, chosen)
    ensures chosen <= Added(m, dt, prompt, maxNew)
  {
    hide Greedy, Clear;
  }

  lemma NotFired(script: nat -> bool, n: nat, j: nat)
    requires !Fired(script, n) && script(j)
    ensures j >= n
  {
  }

  /** A cancel is heeded at the next poll: one that is there before the prompt is through
      lets no token out, and one that is there at the poll before token `k` lets out no
      more than `k`. */
  lemma CancelIsHeeded(m: Model, dt: Dtype, env: Env, prompt: seq<int>, maxNew: nat, reason: Reason, chosen: seq<int>,
      j: nat)
    requires m.Valid() && |prompt| > 0 && EndsAs(m, dt, env, prompt, maxNew, reason, chosen) && env.cancel(j)
    ensures j < |prompt| ==> chosen == []
    ensures j >= |prompt| ==> |chosen| <= j - |prompt|
  {
    hide Greedy, Fired;
    var added, n := Added(m, dt, prompt, maxNew), |prompt|;
    if reason == Reason.Cancelled && exists i: nat :: CancelEnds(env, n, added, maxNew, chosen, i) {
      var i: nat :| CancelEnds(env, n, added, maxNew, chosen, i);
      NotFired(env.cancel, i, j);
    } else if reason == Failed && exists i: nat :: FaultEnds(env, n, added, maxNew, chosen, i) {
      var i: nat :| FaultEnds(env, n, added, maxNew, chosen, i);
      NotFired(env.cancel, Past(i, 1), j);
    } else if reason == Failed && exists k: nat :: ThrowEnds(env, n, added, chosen, k) {
      var k: nat :| ThrowEnds(env, n, added, chosen, k);
      NotFired(env.cancel, n + k + 1, j);
    } else {
      NotFired(env.cancel, Polls(n, |added|, maxNew), j);
    }
  }

  /** If nothing throws, the call is cancelled exactly when one of the polls that generation
      takes time for says yes. */
  lemma CancelledExactly(m: Model, dt: Dtype, env: Env, prompt: seq<int>, maxNew: nat, reason: Reason, chosen: seq<int>)
    requires m.Valid() && |prompt| > 0 && EndsAs(m, dt, env, prompt, maxNew, reason, chosen)
    requires forall j: nat :: !env.fault(j) && !env.throws(j)
    ensures var n := |Added(m, dt, prompt, maxNew)|;
      reason == Reason.Cancelled <==>
        exists j: nat :: j < |prompt| + n + (if n < maxNew then 1 else 0) && env.cancel(j)
  {
    hide Hidden;
  }

  /** If nobody cancels and no callback throws, it fails exactly when one of the steps that
      generation takes does. */
  lemma FailedExactly(m: Model, dt: Dtype, env: Env, prompt: seq<int>, maxNew: nat, reason: Reason, chosen: seq<int>)
    requires m.Valid() && |prompt| > 0 && EndsAs(m, dt, env, prompt, maxNew, reason, chosen)
    requires forall j: nat :: !env.cancel(j) && !env.throws(j)
    ensures var n := |Added(m, dt, prompt, maxNew)|;
      reason == Failed <==>
        exists j: nat :: j < 2 + |prompt| + (if 0 < n == maxNew then n - 1 else n) && env.fault(j)
  {
    hide Hidden;
  }

  /** There is one way for a call to end: the environment decides reason and tokens. */
  lemma EndingIsUnique(m: Model, dt: Dtype, env: Env, prompt: seq<int>, maxNew: nat, reason: Reason, chosen: seq<int>,
      reason': Reason, chosen': seq<int>)
    requires m.Valid() && |prompt| > 0
    requires EndsAs(m, dt, env, prompt, maxNew, reason, chosen) && EndsAs(m, dt, env, prompt, maxNew, reason', chosen')
    ensures reason == reason' && chosen == chosen'
  {
    hide Greedy;
  }
}
