/** What one step gets done: who is swept up, who is let in, whose prompt is fed first, and
    that everybody running decodes. */
module SchedProgress {
  import opened Meaning
  import opened SchedSpec
  import opened SeqProofs
  import opened Sums
  import opened SchedProofs
  import opened SchedTheorems
  import SchedFeeds

  function Min(a: nat, b: nat): nat { if a <= b then a else b }

  // ---- Admission ----

  /** How many of the queue there is room for. */
  function Room(c: Config, s: SchedV): nat {
    var live := |s.prefilling| + |s.running|;
    if live >= c.maxConcurrent then 0 else Min(|s.waiting|, c.maxConcurrent - live)
  }

  /** The first `k` of the queue start prefilling behind those that already do; nothing
      else changes. */
  ghost predicate LetsIn(s: SchedV, s': SchedV, k: nat) {
    && k <= |s.waiting| && s'.waiting == s.waiting[k..]
    && |s'.prefilling| == |s.prefilling| + k && s'.prefilling[..|s.prefilling|] == s.prefilling
    && (forall i | 0 <= i < k :: s'.prefilling[|s.prefilling| + i] == s.waiting[i].(state := Prefilling))
    && s'.running == s.running && s'.free == s.free && s'.requests == s.requests && s'.done == s.done
    && s'.results == s.results && s'.budget == s.budget && s'.fed == s.fed
  }

  /** Admission lets in as many as there is room for: the queue is empty afterwards or the
      cap is reached. */
  lemma {:induction false} AdmitFills(c: Config, s: SchedV)
    ensures LetsIn(s, Admit(c, s), Room(c, s))
    decreases |s.waiting|
  {
    if |s.waiting| == 0 || |s.running| + |s.prefilling| >= c.maxConcurrent {
      assert s.waiting[0..] == s.waiting && s.prefilling[..|s.prefilling|] == s.prefilling;
    } else {
      var q := s.waiting[0].(state := Prefilling);
      var t := s.(waiting := s.waiting[1..], prefilling := s.prefilling + [q]);
      AdmitFills(c, t);
      LetsInOneMore(s, t, Admit(c, s), Room(c, t));
    }
  }

  lemma LetsInOneMore(s: SchedV, t: SchedV, s': SchedV, k: nat)
    requires |s.waiting| > 0 && LetsIn(t, s', k)
    requires t == s.(waiting := s.waiting[1..], prefilling := s.prefilling + [s.waiting[0].(state := Prefilling)])
    ensures LetsIn(s, s', k + 1)
  {
    assert s.waiting[1..][k..] == s.waiting[k + 1..];
    assert s'.prefilling[..|s.prefilling|] == s'.prefilling[..|t.prefilling|][..|s.prefilling|];
    forall i | 0 <= i < k + 1 ensures s'.prefilling[|s.prefilling| + i] == s.waiting[i].(state := Prefilling) {
      if i == 0 {
        assert s'.prefilling[|s.prefilling|] == s'.prefilling[..|t.prefilling|][|s.prefilling|];
      } else {
        assert s'.prefilling[|t.prefilling| + (i - 1)] == t.waiting[i - 1].(state := Prefilling);
      }
    }
  }

  // ---- Decoding ----

  /** One decode turn: one more token, unless it ended at an end-of-text token or for want
      of a block. */
  ghost predicate TookTurn(q: SeqV, q': SeqV) {
    && q'.id == q.id && q'.promptLen == q.promptLen && q'.maxNew == q.maxNew && q'.cursor == q.cursor
    && q.tokens <= q'.tokens
    && (|q'.tokens| == |q.tokens| + 1 || |q'.tokens| == |q.tokens|)
    && (|q'.tokens| == |q.tokens| ==> q'.state == Finished && (q'.reason == Stop || q'.reason == Capacity))
    && (|q'.tokens| == |q.tokens| + 1 ==>
        if |q'.tokens| - q'.promptLen >= q'.maxNew then q'.state == Finished && q'.reason == Length
        else q'.state == Running)
  }

  lemma TurnTaken(m: Model, size: nat, q: SeqV, free: seq<nat>)
    requires m.Valid() && size > 0 && |q.tokens| > 0
    ensures var q' := DecodeTurn(m, size, q, free).0;
      if q.state == Running then TookTurn(q, q') else q' == q
  {
    hide NextToken;
  }

  /** In one pass every running sequence takes exactly one turn. */
  lemma {:induction false} PassTakesTurns(m: Model, size: nat, qs: seq<SeqV>, free: seq<nat>)
    requires m.Valid() && size > 0 && HaveTokens(qs)
    ensures var qs' := DecodePass(m, size, qs, free).0;
      |qs'| == |qs| && forall i | 0 <= i < |qs| ::
        if qs[i].state == Running then TookTurn(qs[i], qs'[i]) else qs'[i] == qs[i]
    decreases |qs|
  {
    if |qs| == 0 {
    } else {
      hide DecodeTurn, TookTurn;
      TurnTaken(m, size, qs[0], free);
      PassTakesTurns(m, size, qs[1..], DecodeTurn(m, size, qs[0], free).1);
    }
  }

  // ---- Prefill order ----

  lemma {:induction false} AdvanceIds(c: Config, rs: seq<Request>, qs: seq<SeqV>, free: seq<nat>, budget: nat, id: nat)
    requires c.Valid() && AllOk(c, rs, qs) && AllIn(qs, {Prefilling}) && HaveTokens(qs)
    requires forall q | q in qs :: q.id != id
    ensures forall q | q in Advance(c.m, c.size, qs, free, budget).kept :: q.id != id
    decreases |qs|
  {
    if |qs| == 0 || budget == 0 {
    } else {
      hide PrefillTurn, SeqOk, PrefillTrace;
      OkSplit(c, rs, qs, {Prefilling});
      SchedFeeds.AdvanceHead(c.m, c.size, qs, free, budget);
      PrefillTurnOk(c.m, c.size, rs[qs[0].id], qs[0], free, budget);
      var (q, mid, left) := PrefillTurn(c.m, c.size, qs[0], free, budget);
      AdvanceIds(c, rs, qs[1..], mid, left, id);
    }
  }

  /** Some sequence of the list with this id still has prompt to feed. */
  ghost predicate StillPrefilling(qs: seq<SeqV>, id: nat) {
    exists q :: q in qs && q.id == id && q.state == Prefilling
  }

  ghost predicate NotFed(fed: seq<Feed>, id: nat) {
    SchedFeeds.PositionsOf(fed, id) == []
  }

  /** The pass serves its list from the front: while a sequence still has prompt left to
      feed, nobody behind it is fed. */
  lemma {:induction false} AdvanceServesFront(c: Config, rs: seq<Request>, qs: seq<SeqV>, free: seq<nat>, budget: nat,
      i: nat, j: nat)
    requires c.Valid() && AllOk(c, rs, qs) && AllIn(qs, {Prefilling}) && HaveTokens(qs) && SchedFeeds.Distinct(qs)
    requires i < j < |qs|
    ensures StillPrefilling(Advance(c.m, c.size, qs, free, budget).kept, qs[i].id) ==>
      NotFed(Advance(c.m, c.size, qs, free, budget).fed, qs[j].id)
    decreases |qs|
  {
    hide Advance, PrefillTurn, AllOk, AllIn, HaveTokens, StillPrefilling, NotFed, SchedFeeds.Distinct, SeqOk;
    if budget == 0 {
      NothingFed(c.m, c.size, qs, free);
    } else {
      OkSplit(c, rs, qs, {Prefilling});
      HeadIsApart(qs);
      var (q, mid, left) := PrefillTurn(c.m, c.size, qs[0], free, budget);
      assert qs[j] == qs[1..][j - 1] && qs[j] in qs[1..];
      if i == 0 {
        FrontFirst(c, rs, qs, free, budget, qs[j].id);
      } else {
        assert qs[i] == qs[1..][i - 1] && qs[i] in qs[1..];
        AdvanceServesFront(c, rs, qs[1..], mid, left, i - 1, j - 1);
        HeadState(c, rs, qs, free, budget);
        BehindNext(c, qs, free, budget, qs[i].id, qs[j].id);
      }
    }
  }

  /** While the head has prompt left, nobody else is fed. */
  lemma FrontFirst(c: Config, rs: seq<Request>, qs: seq<SeqV>, free: seq<nat>, budget: nat, id: nat)
    requires c.Valid() && AllOk(c, rs, qs) && AllIn(qs, {Prefilling}) && HaveTokens(qs) && SchedFeeds.Distinct(qs)
    requires |qs| > 0 && budget > 0 && id != qs[0].id
    ensures StillPrefilling(Advance(c.m, c.size, qs, free, budget).kept, qs[0].id) ==>
      NotFed(Advance(c.m, c.size, qs, free, budget).fed, id)
  {
    hide PrefillTurn, PrefillTrace, SeqOk, Advance, AllOk, AllIn, HaveTokens, StillPrefilling, NotFed,
      SchedFeeds.Distinct;
    OkSplit(c, rs, qs, {Prefilling});
    HeadIsApart(qs);
    SchedFeeds.AdvanceHead(c.m, c.size, qs, free, budget);
    HeadState(c, rs, qs, free, budget);
    var (q, mid, left) := PrefillTurn(c.m, c.size, qs[0], free, budget);
    var kept, rest := Advance(c.m, c.size, qs, free, budget).kept, Advance(c.m, c.size, qs[1..], mid, left);
    HeadFeedsItself(c, qs, free, budget, id, rest.fed);
    if StillPrefilling(kept, qs[0].id) {
      AdvanceIds(c, rs, qs[1..], mid, left, qs[0].id);
      FrontStill(q, kept, rest.kept, qs[0].id);
      NothingFed(c.m, c.size, qs[1..], mid);
    }
  }

  /** The head's turn feeds the head alone, so behind it the tail's pass decides. */
  lemma BehindNext(c: Config, qs: seq<SeqV>, free: seq<nat>, budget: nat, id: nat, other: nat)
    requires c.Valid() && HaveTokens(qs) && |qs| > 0 && |qs[0].tokens| > 0 && HaveTokens(qs[1..]) && budget > 0
    requires id != qs[0].id && other != qs[0].id && PrefillTurn(c.m, c.size, qs[0], free, budget).0.id == qs[0].id
    requires var (q, mid, left) := PrefillTurn(c.m, c.size, qs[0], free, budget);
      StillPrefilling(Advance(c.m, c.size, qs[1..], mid, left).kept, id) ==>
        NotFed(Advance(c.m, c.size, qs[1..], mid, left).fed, other)
    ensures StillPrefilling(Advance(c.m, c.size, qs, free, budget).kept, id) ==>
      NotFed(Advance(c.m, c.size, qs, free, budget).fed, other)
  {
    hide PrefillTurn, PrefillTrace, Advance, HaveTokens, StillPrefilling, NotFed;
    SchedFeeds.AdvanceHead(c.m, c.size, qs, free, budget);
    var (q, mid, left) := PrefillTurn(c.m, c.size, qs[0], free, budget);
    var kept, rest := Advance(c.m, c.size, qs, free, budget).kept, Advance(c.m, c.size, qs[1..], mid, left);
    HeadFeedsItself(c, qs, free, budget, other, rest.fed);
    if StillPrefilling(kept, id) { BehindStill(q, kept, rest.kept, id); }
  }

  lemma HeadIsApart(qs: seq<SeqV>)
    requires |qs| > 0 && SchedFeeds.Distinct(qs)
    ensures SchedFeeds.Distinct(qs[1..]) && forall q | q in qs[1..] :: q.id != qs[0].id
  {
  }

  lemma HeadState(c: Config, rs: seq<Request>, qs: seq<SeqV>, free: seq<nat>, budget: nat)
    requires c.Valid() && AllOk(c, rs, qs) && AllIn(qs, {Prefilling}) && |qs| > 0 && |qs[0].tokens| > 0
    ensures var (q, _, left) := PrefillTurn(c.m, c.size, qs[0], free, budget);
      q.id == qs[0].id && (q.state == Prefilling ==> left == 0)
  {
    hide PrefillTurn, SeqOk;
    assert qs[0] in qs;
    PrefillTurnOk(c.m, c.size, rs[qs[0].id], qs[0], free, budget);
  }

  lemma FrontStill(q: SeqV, kept: seq<SeqV>, rest: seq<SeqV>, id: nat)
    requires (kept == rest || kept == [q] + rest) && StillPrefilling(kept, id) && forall p | p in rest :: p.id != id
    ensures q.state == Prefilling
  {
  }

  lemma BehindStill(q: SeqV, kept: seq<SeqV>, rest: seq<SeqV>, id: nat)
    requires (kept == rest || kept == [q] + rest) && StillPrefilling(kept, id) && q.id != id
    ensures StillPrefilling(rest, id)
  {
  }

  lemma NothingFed(m: Model, size: nat, qs: seq<SeqV>, free: seq<nat>)
    requires m.Valid() && size > 0 && HaveTokens(qs)
    ensures Advance(m, size, qs, free, 0).fed == [] && forall id: nat :: NotFed([], id)
  {
  }

  lemma HeadFeedsItself(c: Config, qs: seq<SeqV>, free: seq<nat>, budget: nat, id: nat, rest: seq<Feed>)
    requires c.Valid() && |qs| > 0 && qs[0].id != id
    ensures NotFed(PrefillTrace(c.size, qs[0], free, budget) + rest, id) <==> NotFed(rest, id)
  {
    var t := PrefillTrace(c.size, qs[0], free, budget);
    SchedFeeds.TraceIs(c.size, qs[0], free, budget);
    SchedFeeds.PositionsConsecutive(t, qs[0].id, qs[0].cursor, id);
    SchedFeeds.PositionsAppend(t, rest, id);
  }

  /** These sequences are some of the list, in the order of the list. */
  ghost predicate Picked(xs: seq<SeqV>, qs: seq<SeqV>, at: seq<nat>) {
    && |at| == |xs| && (forall i | 0 <= i < |at| :: at[i] < |qs| && xs[i].id == qs[at[i]].id)
    && (forall i, j | 0 <= i < j < |at| :: at[i] < at[j])
  }

  lemma PickedLater(xs: seq<SeqV>, qs: seq<SeqV>, at: seq<nat>) returns (at': seq<nat>)
    requires |qs| > 0 && Picked(xs, qs[1..], at)
    ensures Picked(xs, qs, at') && forall i | 0 <= i < |at'| :: at'[i] > 0
  {
    at' := seq(|at|, i requires 0 <= i < |at| => at[i] + 1);
  }

  lemma PickedFirst(x: SeqV, xs: seq<SeqV>, qs: seq<SeqV>, at: seq<nat>)
    requires |qs| > 0 && x.id == qs[0].id && Picked(xs, qs, at) && forall i | 0 <= i < |at| :: at[i] > 0
    ensures Picked([x] + xs, qs, [0] + at)
  {
  }

  /** The prefill pass keeps the order of its list, in what stays and in what moves on. */
  lemma {:induction false} AdvanceKeepsOrder(c: Config, rs: seq<Request>, qs: seq<SeqV>, free: seq<nat>, budget: nat)
    returns (kept: seq<nat>, moved: seq<nat>)
    requires c.Valid() && AllOk(c, rs, qs) && AllIn(qs, {Prefilling}) && HaveTokens(qs)
    ensures var a := Advance(c.m, c.size, qs, free, budget); Picked(a.kept, qs, kept) && Picked(a.moved, qs, moved)
    decreases |qs|
  {
    if |qs| == 0 || budget == 0 {
      kept, moved := seq(|qs|, i => i), [];
    } else {
      hide PrefillTurn, PrefillTrace, SeqOk, Advance, AllOk, AllIn, HaveTokens, Picked;
      OkSplit(c, rs, qs, {Prefilling});
      SchedFeeds.AdvanceHead(c.m, c.size, qs, free, budget);
      HeadState(c, rs, qs, free, budget);
      var (q, mid, left) := PrefillTurn(c.m, c.size, qs[0], free, budget);
      var rest := Advance(c.m, c.size, qs[1..], mid, left);
      kept, moved := AdvanceKeepsOrder(c, rs, qs[1..], mid, left);
      kept := PickedLater(rest.kept, qs, kept);
      moved := PickedLater(rest.moved, qs, moved);
      if q.state == Running {
        PickedFirst(q, rest.moved, qs, moved);
        moved := [0] + moved;
      } else {
        PickedFirst(q, rest.kept, qs, kept);
        kept := [0] + kept;
      }
    }
  }

  // ---- A step ----

  ghost function Unfinished(): SeqV -> nat {
    (q: SeqV) => if q.state != Finished then 1 else 0
  }

  lemma {:induction false} CountAll(qs: seq<SeqV>, n: nat)
    requires forall q | q in qs :: Unfinished()(q) == n
    ensures Sum(qs, Unfinished()) == |qs| * n
    decreases |qs|
  {
    if |qs| == 0 {
    } else {
      assert qs[0] in qs && forall q | q in qs[1..] :: q in qs;
      CountAll(qs[1..], n);
      assert |qs| * n == n + |qs[1..]| * n;
    }
  }

  /** What a sweep keeps are the unfinished, and what it takes are the finished. */
  lemma SplitCounts(qs: seq<SeqV>, kept: seq<SeqV>, done: seq<SeqV>)
    requires Split(qs, kept, done)
    ensures |kept| == Sum(qs, Unfinished())
    ensures forall q | q in qs :: if q.state == Finished then q in done else q in kept
    ensures forall q | q in kept || q in done :: q in qs
  {
    SplitSums(qs, kept, done, Unfinished());
    CountAll(kept, 1);
    CountAll(done, 0);
    forall q | q in qs || q in kept || q in done ensures (q in qs <==> q in kept || q in done) {
      assert q in multiset(qs) <==> q in multiset(kept) + multiset(done);
    }
  }

  /** Both sweeps: the lists keep their unfinished, everything finished is done. */
  ghost predicate Swept(s: SchedV, t: SchedV) {
    && t.waiting == s.waiting && t.requests == s.requests && t.budget == s.budget && t.fed == s.fed
    && |t.prefilling| == Sum(s.prefilling, Unfinished()) && |t.running| == Sum(s.running, Unfinished())
    && s.done <= t.done
    && (forall q | q in s.prefilling :: if q.state == Finished then q in t.done else q in t.prefilling)
    && (forall q | q in s.running :: if q.state == Finished then q in t.done else q in t.running)
    && (forall q | q in t.prefilling :: q in s.prefilling)
    && (forall q | q in t.running :: q in s.running)
  }

  lemma SweepsSweep(s: SchedV, s1: SchedV, s2: SchedV)
    requires FinalizePrefilling(s, s1) && FinalizeRunning(s1, s2)
    ensures Swept(s, s2)
  {
    hide Split, Snapshots, Release;
    var kept, done :| Split(s.prefilling, kept, done) && s1 == Drop(s.(prefilling := kept), done);
    var kept', done' :| Split(s1.running, kept', done') && s2 == Drop(s1.(running := kept'), done');
    SplitCounts(s.prefilling, kept, done);
    SplitCounts(s.running, kept', done');
  }

  lemma AdvanceAllLives(c: Config, s: SchedV, id: nat)
    requires c.Valid() && Inv(c, s) && AllIn(s.prefilling, {Prefilling}) && HaveTokens(s.prefilling)
    ensures var s' := AdvanceAll(c, s);
      && LiveSum(s', HasId(id)) == LiveSum(s, HasId(id))
      && |s'.prefilling| + |s'.running| == |s.prefilling| + |s.running|
      && s'.waiting == s.waiting && s'.done == s.done && s.running <= s'.running
  {
    hide Advance, AllOk, AllIn, Conserved, OncePerId, HaveTokens;
    AdvanceKeeps(c, s.requests, s.prefilling, s.free, s.budget, 0, id);
    SumAppend(s.running, Advance(c.m, c.size, s.prefilling, s.free, s.budget).moved, HasId(id));
  }

  lemma DecodeAllLives(c: Config, s: SchedV, id: nat)
    requires c.Valid() && Inv(c, s) && HaveTokens(s.running)
    ensures var s' := DecodeAll(c, s);
      && LiveSum(s', HasId(id)) == LiveSum(s, HasId(id))
      && |s'.prefilling| + |s'.running| == |s.prefilling| + |s.running|
      && s'.waiting == s.waiting && s'.done == s.done && s'.prefilling == s.prefilling
  {
    hide DecodePass, AllOk, AllIn, Conserved, OncePerId, HaveTokens;
    DecodeKeeps(c, s.requests, s.running, s.free, 0, id);
  }

  /** A sequence of the list took its turn. */
  ghost predicate Turned(q: SeqV, qs: seq<SeqV>) {
    exists q' :: q' in qs && TookTurn(q, q')
  }

  /** One step, all told: everything finished is done; the first of the queue have been
      let in, up to the cap; whoever was live and unfinished still is; whoever was running
      has decoded once; and whoever started to run has decoded once as well. */
  ghost predicate Progressed(c: Config, s: SchedV, s': SchedV) {
    var live := Sum(s.prefilling, Unfinished()) + Sum(s.running, Unfinished());
    && live <= c.maxConcurrent
    && var k := Min(|s.waiting|, c.maxConcurrent - live);
    && s'.waiting == s.waiting[k..] && |s'.prefilling| + |s'.running| == live + k
    && (|s'.waiting| == 0 || |s'.prefilling| + |s'.running| == c.maxConcurrent)
    && (forall i | 0 <= i < k :: LiveSum(s', HasId(s.waiting[i].id)) == 1)
    && (forall q | q in s.Live() && q.state != Finished :: LiveSum(s', HasId(q.id)) == 1)
    && (forall q | q in s.Live() && q.state == Finished :: q in s'.done)
    && (forall q | q in s.running && q.state == Running :: Turned(q, s'.running))
    && TwoTokens(s') && NewcomersLast(s, s')
  }

  /** Whoever starts to run in a step runs behind those who ran before. */
  ghost predicate NewcomersLast(s: SchedV, s': SchedV) {
    forall i | 0 <= i < |s'.running| ::
      Ran(s, s'.running[i].id) <==> i < Sum(s.running, Unfinished())
  }

  ghost predicate Ran(s: SchedV, id: nat) {
    exists q :: q in s.running && q.state != Finished && q.id == id
  }

  /** A running sequence has its first token from the prompt and one from a decode. */
  ghost predicate TwoTokens(s: SchedV) {
    forall q | q in s.running && q.state == Running :: q.Generated() >= 2
  }

  /** The states inside a step: after the sweeps, after admission, after the prefill pass. */
  lemma StepInside(c: Config, s: SchedV, s': SchedV) returns (s2: SchedV, s3: SchedV, s4: SchedV)
    requires c.Valid() && Inv(c, s) && Step(c, s, s')
    ensures Swept(s, s2) && Inv(c, s2) && LetsIn(s2, s3, Room(c, s2))
    ensures Inv(c, s3) && AllIn(s3.prefilling, {Prefilling}) && HaveTokens(s3.prefilling) && s4 == AdvanceAll(c, s3)
    ensures Inv(c, s4) && HaveTokens(s4.running) && s' == DecodeAll(c, s4) && Inv(c, s')
    ensures AllIn(s3.running, {Running})
  {
    hide Inv, FinalizePrefilling, FinalizeRunning, Admit, AdvanceAll, DecodeAll, HaveTokens, AllIn, Swept, LetsIn;
    var s1;
    s1, s2 :|
      && FinalizePrefilling(s, s1) && FinalizeRunning(s1, s2)
      && HaveTokens(Admit(c, s2).prefilling)
      && HaveTokens(AdvanceAll(c, Admit(c, s2)).running)
      && s' == DecodeAll(c, AdvanceAll(c, Admit(c, s2)));
    SweepsSweep(s, s1, s2);
    FinalizePrefillingKeeps(c, s, s1);
    FinalizeRunningKeeps(c, s1, s2);
    AdmitKeeps(c, s2);
    AdmitFills(c, s2);
    s3 := Admit(c, s2);
    AdvanceAllKeeps(c, s3);
    s4 := AdvanceAll(c, s3);
    DecodeAllKeeps(c, s4);
  }

  lemma AtMostOne(c: Config, s: SchedV, id: nat)
    requires c.Valid() && Inv(c, s)
    ensures LiveSum(s, HasId(id)) <= 1 && |s.prefilling| + |s.running| <= c.maxConcurrent
  {
    hide Sorted, Conserved, Fifo, ResultsAreLatest;
    assert AllSum(s, HasId(id)) <= 1;
  }

  lemma LiveHas(s: SchedV, q: SeqV)
    requires q in s.prefilling || q in s.running
    ensures LiveSum(s, HasId(q.id)) >= 1
  {
    if q in s.prefilling { SchedFeeds.SumHas(s.prefilling, q); } else { SchedFeeds.SumHas(s.running, q); }
  }

  /** Who is live after a step: the unfinished of before and the first of the queue. */
  lemma StaysLive(c: Config, s3: SchedV, s4: SchedV, s': SchedV, q: SeqV)
    requires c.Valid() && Inv(c, s3) && AllIn(s3.prefilling, {Prefilling}) && HaveTokens(s3.prefilling)
    requires s4 == AdvanceAll(c, s3) && Inv(c, s4) && HaveTokens(s4.running) && s' == DecodeAll(c, s4) && Inv(c, s')
    requires q in s3.prefilling || q in s3.running
    ensures LiveSum(s', HasId(q.id)) == 1
  {
    hide Inv, AdvanceAll, DecodeAll, HaveTokens, AllIn, LiveSum;
    LiveHas(s3, q);
    AdvanceAllLives(c, s3, q.id);
    DecodeAllLives(c, s4, q.id);
    AtMostOne(c, s', q.id);
  }

  /** Whoever runs when the decode pass begins takes a turn. */
  lemma RunnersTurn(c: Config, s4: SchedV, s': SchedV)
    requires c.Valid() && Inv(c, s4) && HaveTokens(s4.running) && s' == DecodeAll(c, s4)
    ensures forall q | q in s4.running && q.state == Running :: Turned(q, s'.running)
    ensures forall q' | q' in s'.running && q'.state == Running ::
      exists q :: q in s4.running && q.state == Running && TookTurn(q, q')
  {
    hide DecodePass, Inv, HaveTokens, TookTurn;
    PassTakesTurns(c.m, c.size, s4.running, s4.free);
    forall q | q in s4.running && q.state == Running ensures Turned(q, s'.running) {
      var i :| 0 <= i < |s4.running| && s4.running[i] == q;
      assert TookTurn(q, s'.running[i]);
    }
    forall q' | q' in s'.running && q'.state == Running
      ensures exists q :: q in s4.running && q.state == Running && TookTurn(q, q') {
      var i :| 0 <= i < |s'.running| && s'.running[i] == q';
      assert s4.running[i].state == Running ==> TookTurn(s4.running[i], q');
    }
  }

  lemma NewcomersAreLast(c: Config, s: SchedV, s2: SchedV, s3: SchedV, s4: SchedV, s': SchedV)
    requires c.Valid() && Swept(s, s2) && s3.running == s2.running && Inv(c, s3) && AllIn(s3.running, {Running})
    requires AllIn(s3.prefilling, {Prefilling}) && HaveTokens(s3.prefilling) && s4 == AdvanceAll(c, s3)
    requires HaveTokens(s4.running) && s' == DecodeAll(c, s4)
    ensures NewcomersLast(s, s')
  {
    hide Inv, Advance, DecodePass, HaveTokens, TookTurn, Sum, AllIn;
    var n := |s3.running|;
    PassTakesTurns(c.m, c.size, s4.running, s4.free);
    forall i | 0 <= i < |s'.running| ensures Ran(s, s'.running[i].id) <==> i < n {
      SameId(s4.running[i], s'.running[i]);
      if i < n {
        assert s4.running[i] == s3.running[i] && s3.running[i] in s3.running;
        RunningState(s3, i);
      } else {
        Newcomer(c, s3, i);
        NotThere(s, s2, s3, s4.running[i].id);
      }
    }
  }

  lemma SameId(q: SeqV, q': SeqV)
    requires if q.state == Running then TookTurn(q, q') else q' == q
    ensures q'.id == q.id
  {
  }

  lemma RunningState(s: SchedV, i: nat)
    requires AllIn(s.running, {Running}) && i < |s.running|
    ensures s.running[i].state == Running
  {
    assert s.running[i] in s.running;
  }

  lemma NotThere(s: SchedV, s2: SchedV, s3: SchedV, id: nat)
    requires Swept(s, s2) && s3.running == s2.running && forall q | q in s3.running :: q.id != id
    ensures !Ran(s, id)
  {
  }

  /** A newcomer comes from the prefilling list, so it is none of those that ran. */
  lemma Newcomer(c: Config, s: SchedV, i: nat)
    requires c.Valid() && Inv(c, s) && AllIn(s.prefilling, {Prefilling}) && HaveTokens(s.prefilling)
    requires |s.running| <= i < |AdvanceAll(c, s).running|
    ensures forall q | q in s.running :: q.id != AdvanceAll(c, s).running[i].id
  {
    hide Advance, HaveTokens, AllIn, Conserved, AllOk;
    var kept, moved := AdvanceKeepsOrder(c, s.requests, s.prefilling, s.free, s.budget);
    var a := Advance(c.m, c.size, s.prefilling, s.free, s.budget);
    var p := s.prefilling[moved[i - |s.running|]];
    assert AdvanceAll(c, s).running[i] == a.moved[i - |s.running|];
    forall q | q in s.running ensures q.id != p.id { SchedFeeds.ApartIds(s, p, q); }
  }

  lemma HasFirstToken(c: Config, s: SchedV, q: SeqV)
    requires c.Valid() && Inv(c, s) && q in s.running && q.state == Running
    ensures q.Generated() >= 1
  {
    hide Conserved, OncePerId, Fifo, ResultsAreLatest, Tracks;
  }

  lemma GainedOne(q: SeqV, q': SeqV)
    requires TookTurn(q, q') && q'.state == Running && q.Generated() >= 1
    ensures q'.Generated() >= 2
  {
  }

  lemma AfterTurns(c: Config, s4: SchedV, s': SchedV)
    requires c.Valid() && Inv(c, s4) && HaveTokens(s4.running) && s' == DecodeAll(c, s4)
    ensures TwoTokens(s')
  {
    hide DecodeAll, Inv, HaveTokens, TookTurn, Turned;
    RunnersTurn(c, s4, s');
    forall q' | q' in s'.running && q'.state == Running ensures q'.Generated() >= 2 {
      var q :| q in s4.running && q.state == Running && TookTurn(q, q');
      HasFirstToken(c, s4, q);
      GainedOne(q, q');
    }
  }

  /** Every step does all of that. */
  lemma StepProgresses(c: Config, s: SchedV, s': SchedV)
    requires c.Valid() && Inv(c, s) && Step(c, s, s')
    ensures Progressed(c, s, s')
  {
    hide Inv, Step, AdvanceAll, DecodeAll, HaveTokens, AllIn, LiveSum, Turned, TwoTokens, NewcomersLast, Sum;
    var s2, s3, s4 := StepInside(c, s, s');
    AtMostOne(c, s2, 0);
    AdvanceAllLives(c, s3, 0);
    DecodeAllLives(c, s4, 0);
    RunnersTurn(c, s4, s');
    AfterTurns(c, s4, s');
    NewcomersAreLast(c, s, s2, s3, s4, s');
    var k := Room(c, s2);
    forall i | 0 <= i < k ensures LiveSum(s', HasId(s.waiting[i].id)) == 1 {
      StaysLive(c, s3, s4, s', s3.prefilling[|s2.prefilling| + i]);
    }
    forall q | q in s.Live() && q.state != Finished ensures LiveSum(s', HasId(q.id)) == 1 {
      assert q in s.prefilling || q in s.running;
      assert q in s2.prefilling ==> q in s3.prefilling[..|s2.prefilling|];
      StaysLive(c, s3, s4, s', q);
    }
    forall q | q in s.Live() && q.state == Finished ensures q in s'.done {
      assert q in s.prefilling || q in s.running;
    }
  }

  // ---- Runs ----

  /** Every step of every run; in particular the queue is empty after it or the cap is
      reached. */
  lemma StepOfRunProgresses(c: Config, run: seq<SchedV>, i: nat)
    requires c.Valid() && IsRun(c, run) && i + 1 < |run| && Step(c, run[i], run[i + 1])
    ensures Progressed(c, run[i], run[i + 1])
    ensures |run[i + 1].waiting| == 0 || |run[i + 1].prefilling| + |run[i + 1].running| == c.maxConcurrent
  {
    hide Inv, Next, Init, Step, LiveSum, Turned, TwoTokens, Sum;
    var front := run[..i + 1];
    assert IsRun(c, front) by {
      forall j | 0 < j < |front| ensures Next(c, front[j - 1], front[j]) {
        assert Next(c, run[j - 1], run[j]);
      }
    }
    RunKeeps(c, front);
    StepProgresses(c, run[i], run[i + 1]);
  }

  /** At any moment of any run a running sequence has generated at least two tokens. */
  lemma {:induction false} RunHasTwoTokens(c: Config, run: seq<SchedV>)
    requires c.Valid() && IsRun(c, run)
    ensures TwoTokens(run[|run| - 1])
    decreases |run|
  {
    hide Inv, Step, FinalizePrefilling, FinalizeRunning, Progressed;
    if |run| == 1 {
    } else {
      var n := |run| - 1;
      var s, s' := run[n - 1], run[n];
      RunHasTwoTokens(c, run[..n]);
      assert Next(c, s, s');
      if Step(c, s, s') {
        StepOfRunProgresses(c, run, n - 1);
        ProgressMeans(c, s, s');
      } else if FinalizePrefilling(s, s') || FinalizeRunning(s, s') {
        SweepShrinks(s, s');
      }
    }
  }

  lemma ProgressMeans(c: Config, s: SchedV, s': SchedV)
    requires Progressed(c, s, s')
    ensures TwoTokens(s')
  {
  }

  lemma SweepShrinks(s: SchedV, s': SchedV)
    requires FinalizePrefilling(s, s') || FinalizeRunning(s, s')
    ensures forall q | q in s'.running :: q in s.running
  {
    hide Split;
    if FinalizeRunning(s, s') {
      var kept, done :| Split(s.running, kept, done) && s' == Drop(s.(running := kept), done);
      SplitCounts(s.running, kept, done);
    }
  }
}
