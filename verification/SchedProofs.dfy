/** What every run of the continuous scheduler keeps, and what follows. */
module SchedProofs {
  import opened Meaning
  import opened Generation
  import opened SchedSpec
  import opened SeqProofs
  import opened Sums
  import EngineCore

  // ---- The invariant ----

  ghost predicate AllOk(c: Config, rs: seq<Request>, qs: seq<SeqV>)
    requires c.Valid()
  {
    forall q | q in qs :: q.id < |rs| && SeqOk(c.m, c.size, rs[q.id], q)
  }

  ghost predicate AllIn(qs: seq<SeqV>, states: set<SeqState>) {
    forall q | q in qs :: q.state in states
  }

  ghost function LiveSum(s: SchedV, f: SeqV -> nat): nat {
    Sum(s.prefilling, f) + Sum(s.running, f)
  }

  ghost function AllSum(s: SchedV, f: SeqV -> nat): nat {
    Sum(s.waiting, f) + LiveSum(s, f) + Sum(s.done, f)
  }

  /** Every block is in the free list or in the table of one live sequence: none is
      shared, lost or free twice. */
  ghost predicate Conserved(c: Config, s: SchedV) {
    && (forall b: nat :: multiset(s.free)[b] + LiveSum(s, CountOf(b)) == if b in c.pool then 1 else 0)
    && |s.free| + LiveSum(s, TableLen()) == |c.pool|
  }

  /** Every request is waiting, live or done, in one place and once. */
  ghost predicate OncePerId(s: SchedV) {
    forall id: nat :: AllSum(s, HasId(id)) == if id < |s.requests| then 1 else 0
  }

  ghost predicate Fifo(s: SchedV) {
    && |s.waiting| <= |s.requests|
    && forall i | 0 <= i < |s.waiting| :: s.waiting[i].id == |s.requests| - |s.waiting| + i
  }

  ghost predicate ResultsAreLatest(s: SchedV) {
    |s.results| <= |s.done| && s.results == Snapshots(s.done[|s.done| - |s.results|..])
  }

  ghost predicate Sorted(c: Config, s: SchedV)
    requires c.Valid()
  {
    && AllOk(c, s.requests, s.waiting) && AllIn(s.waiting, {Waiting})
    && AllOk(c, s.requests, s.prefilling) && AllIn(s.prefilling, {Prefilling, Finished})
    && AllOk(c, s.requests, s.running) && AllIn(s.running, {Running, Finished})
    && AllOk(c, s.requests, s.done) && AllIn(s.done, {Finished})
  }

  ghost predicate Inv(c: Config, s: SchedV)
    requires c.Valid()
  {
    && s.budget > 0 && |s.prefilling| + |s.running| <= c.maxConcurrent
    && Sorted(c, s) && Conserved(c, s) && OncePerId(s) && Fifo(s) && ResultsAreLatest(s)
  }

  // ---- Prefill and decode passes over a list ----

  /** What a pass keeps, for one block `b` and one id. */
  ghost predicate PassKeeps(qs: seq<SeqV>, free: seq<nat>, a: seq<SeqV>, a': seq<SeqV>, free': seq<nat>, b: nat,
      id: nat) {
    && |a| + |a'| == |qs|
    && multiset(free')[b] + Sum(a, CountOf(b)) + Sum(a', CountOf(b)) == multiset(free)[b] + Sum(qs, CountOf(b))
    && |free'| + Sum(a, TableLen()) + Sum(a', TableLen()) == |free| + Sum(qs, TableLen())
    && Sum(a, HasId(id)) + Sum(a', HasId(id)) == Sum(qs, HasId(id))
  }

  lemma SumCons(q: SeqV, qs: seq<SeqV>, f: SeqV -> nat)
    ensures Sum([q] + qs, f) == f(q) + Sum(qs, f)
  {
    assert ([q] + qs)[1..] == qs;
  }

  lemma BlocksOf(free: seq<nat>, q: SeqV, free': seq<nat>, q': SeqV, b: nat)
    requires SameBlocks(free, q.table, free', q'.table)
    ensures multiset(free')[b] + CountOf(b)(q') == multiset(free)[b] + CountOf(b)(q)
    ensures |free'| + TableLen()(q') == |free| + TableLen()(q)
  {
    assert multiset(q'.table + free')[b] == multiset(q'.table)[b] + multiset(free')[b];
    assert multiset(q.table + free)[b] == multiset(q.table)[b] + multiset(free)[b];
  }

  /** One turn in front of a pass. */
  lemma PassCons(q: SeqV, qs: seq<SeqV>, free: seq<nat>, q': SeqV, mid: seq<nat>, a: seq<SeqV>, a': seq<SeqV>,
      free': seq<nat>, b: nat, id: nat)
    requires q'.id == q.id && SameBlocks(free, q.table, mid, q'.table)
    requires PassKeeps(qs, mid, a, a', free', b, id)
    ensures PassKeeps([q] + qs, free, [q'] + a, a', free', b, id)
    ensures PassKeeps([q] + qs, free, a, [q'] + a', free', b, id)
  {
    BlocksOf(free, q, mid, q', b);
    SumCons(q, qs, CountOf(b));
    SumCons(q, qs, TableLen());
    SumCons(q, qs, HasId(id));
    SumCons(q', a, CountOf(b));
    SumCons(q', a, TableLen());
    SumCons(q', a, HasId(id));
    SumCons(q', a', CountOf(b));
    SumCons(q', a', TableLen());
    SumCons(q', a', HasId(id));
  }

  lemma AllHaveTokens(c: Config, rs: seq<Request>, qs: seq<SeqV>)
    requires c.Valid() && AllOk(c, rs, qs)
    ensures HaveTokens(qs)
  {
    forall i | 0 <= i < |qs| ensures |qs[i].tokens| > 0 {
      assert qs[i] in qs;
    }
  }

  lemma OkCons(c: Config, rs: seq<Request>, q: SeqV, qs: seq<SeqV>, states: set<SeqState>)
    requires c.Valid() && AllOk(c, rs, qs) && AllIn(qs, states)
    requires q.id < |rs| && SeqOk(c.m, c.size, rs[q.id], q) && q.state in states
    ensures AllOk(c, rs, [q] + qs) && AllIn([q] + qs, states)
  {
    hide SeqOk;
  }

  lemma OkSplit(c: Config, rs: seq<Request>, qs: seq<SeqV>, states: set<SeqState>)
    requires c.Valid() && AllOk(c, rs, qs) && AllIn(qs, states) && |qs| > 0 && HaveTokens(qs)
    ensures qs[0].id < |rs| && SeqOk(c.m, c.size, rs[qs[0].id], qs[0]) && qs[0].state in states
    ensures AllOk(c, rs, qs[1..]) && AllIn(qs[1..], states) && qs == [qs[0]] + qs[1..]
    ensures |qs[0].tokens| > 0 && HaveTokens(qs[1..])
  {
    hide SeqOk;
    assert qs[0] in qs;
  }

  /** Nothing happens. */
  lemma NoPass(c: Config, rs: seq<Request>, qs: seq<SeqV>, free: seq<nat>, b: nat, id: nat)
    requires c.Valid()
    ensures PassKeeps(qs, free, qs, [], free, b, id) && AllOk(c, rs, []) && AllIn([], {Running})
  {
  }

  /** A prefill pass: every sequence stays right, blocks are conserved, and the budget
      spent is exactly the number of prompt positions fed; budget is left over only
      if no sequence is left in prefill. */
  lemma {:induction false} AdvanceKeeps(c: Config, rs: seq<Request>, qs: seq<SeqV>, free: seq<nat>, budget: nat, b: nat,
      id: nat)
    requires c.Valid() && AllOk(c, rs, qs) && AllIn(qs, {Prefilling}) && HaveTokens(qs)
    ensures var a := Advance(c.m, c.size, qs, free, budget);
      && AllOk(c, rs, a.kept) && AllIn(a.kept, {Prefilling, Finished})
      && AllOk(c, rs, a.moved) && AllIn(a.moved, {Running})
      && PassKeeps(qs, free, a.kept, a.moved, a.free, b, id)
    decreases |qs|
  {
    hide SeqOk, PassKeeps, SameBlocks, PrefillTurn, AllOk, AllIn, HaveTokens;
    if |qs| == 0 || budget == 0 {
      NoPass(c, rs, qs, free, b, id);
      AllInWider(qs, {Prefilling}, {Prefilling, Finished});
    } else {
      OkSplit(c, rs, qs, {Prefilling});
      var (q, mid, budget') := PrefillTurn(c.m, c.size, qs[0], free, budget);
      PrefillTurnOk(c.m, c.size, rs[qs[0].id], qs[0], free, budget);
      AdvanceKeeps(c, rs, qs[1..], mid, budget', b, id);
      var rest := Advance(c.m, c.size, qs[1..], mid, budget');
      PassCons(qs[0], qs[1..], free, q, mid, rest.kept, rest.moved, rest.free, b, id);
      if q.state == Running {
        OkCons(c, rs, q, rest.moved, {Running});
      } else {
        OkCons(c, rs, q, rest.kept, {Prefilling, Finished});
      }
    }
  }

  lemma {:induction false} DecodeKeeps(c: Config, rs: seq<Request>, qs: seq<SeqV>, free: seq<nat>, b: nat, id: nat)
    requires c.Valid() && AllOk(c, rs, qs) && AllIn(qs, {Running, Finished}) && HaveTokens(qs)
    ensures var (qs', free') := DecodePass(c.m, c.size, qs, free);
      && AllOk(c, rs, qs') && AllIn(qs', {Running, Finished})
      && PassKeeps(qs, free, qs', [], free', b, id)
    decreases |qs|
  {
    hide SeqOk, PassKeeps, SameBlocks, DecodeTurn, AllOk, AllIn, HaveTokens;
    if |qs| == 0 {
      NoPass(c, rs, qs, free, b, id);
    } else {
      OkSplit(c, rs, qs, {Running, Finished});
      var (q, mid) := DecodeTurn(c.m, c.size, qs[0], free);
      DecodeTurnOk(c.m, c.size, rs[qs[0].id], qs[0], free);
      DecodeKeeps(c, rs, qs[1..], mid, b, id);
      var (rest, free') := DecodePass(c.m, c.size, qs[1..], mid);
      PassCons(qs[0], qs[1..], free, q, mid, rest, [], free', b, id);
      OkCons(c, rs, q, rest, {Running, Finished});
    }
  }

  /** The budget a prefill pass spends is exactly how far it takes the cursors, and
      budget is left over only if no sequence is left in prefill. */
  lemma {:induction false} AdvanceSpends(c: Config, rs: seq<Request>, qs: seq<SeqV>, free: seq<nat>, budget: nat)
    requires c.Valid() && AllOk(c, rs, qs) && AllIn(qs, {Prefilling}) && HaveTokens(qs)
    ensures var a := Advance(c.m, c.size, qs, free, budget);
      && Sum(a.kept, CursorOf()) + Sum(a.moved, CursorOf()) == Sum(qs, CursorOf()) + (budget - a.budget)
      && (a.budget > 0 ==> AllIn(a.kept, {Finished}))
    decreases |qs|
  {
    hide SeqOk, SameBlocks, PrefillTurn, AllOk, AllIn, HaveTokens;
    if |qs| == 0 || budget == 0 {
      NobodyIn(qs, {Finished});
    } else {
      OkSplit(c, rs, qs, {Prefilling});
      var (q, mid, budget') := PrefillTurn(c.m, c.size, qs[0], free, budget);
      PrefillTurnOk(c.m, c.size, rs[qs[0].id], qs[0], free, budget);
      AdvanceSpends(c, rs, qs[1..], mid, budget');
      var rest := Advance(c.m, c.size, qs[1..], mid, budget');
      SumCons(qs[0], qs[1..], CursorOf());
      SumCons(q, rest.kept, CursorOf());
      SumCons(q, rest.moved, CursorOf());
      if q.state != Running && rest.budget > 0 { FinishedCons(q, rest.kept); }
    }
  }

  lemma NobodyIn(qs: seq<SeqV>, states: set<SeqState>)
    ensures |qs| == 0 ==> AllIn(qs, states)
  {
  }

  /** A pass with something to do and budget to do it makes progress. */
  lemma {:induction false} AdvanceLighter(c: Config, rs: seq<Request>, qs: seq<SeqV>, free: seq<nat>, budget: nat)
    requires c.Valid() && AllOk(c, rs, qs) && AllIn(qs, {Prefilling}) && HaveTokens(qs)
    ensures var a := Advance(c.m, c.size, qs, free, budget);
      && Sum(a.kept, WeightOf()) + Sum(a.moved, WeightOf()) <= Sum(qs, WeightOf())
      && (|qs| > 0 && budget > 0 ==> Sum(a.kept, WeightOf()) + Sum(a.moved, WeightOf()) < Sum(qs, WeightOf()))
    decreases |qs|
  {
    hide SeqOk, SameBlocks, PrefillTurn, AllOk, AllIn, HaveTokens, Weight;
    if |qs| == 0 || budget == 0 {
    } else {
      OkSplit(c, rs, qs, {Prefilling});
      var (q, mid, budget') := PrefillTurn(c.m, c.size, qs[0], free, budget);
      PrefillTurnLighter(c.m, c.size, rs[qs[0].id], qs[0], free, budget);
      AdvanceLighter(c, rs, qs[1..], mid, budget');
      var rest := Advance(c.m, c.size, qs[1..], mid, budget');
      SumCons(qs[0], qs[1..], WeightOf());
      SumCons(q, rest.kept, WeightOf());
      SumCons(q, rest.moved, WeightOf());
    }
  }

  lemma FinishedCons(q: SeqV, qs: seq<SeqV>)
    requires q.state == Finished && AllIn(qs, {Finished})
    ensures AllIn([q] + qs, {Finished})
  {
  }

  lemma PrefillTurnLighter(m: Model, size: nat, r: Request, q: SeqV, free: seq<nat>, budget: nat)
    requires m.Valid() && size > 0 && SeqOk(m, size, r, q) && q.state == Prefilling && budget > 0
    ensures Weight(PrefillTurn(m, size, q, free, budget).0) < Weight(q)
  {
    hide PrefillTurn, OnTrack, Greedy;
    PrefillTurnOk(m, size, r, q, free, budget);
  }

  lemma DecodeTurnLighter(m: Model, size: nat, r: Request, q: SeqV, free: seq<nat>)
    requires m.Valid() && size > 0 && SeqOk(m, size, r, q) && (q.state == Running || q.state == Finished)
    ensures Weight(DecodeTurn(m, size, q, free).0) <= Weight(q)
    ensures q.state == Running ==> Weight(DecodeTurn(m, size, q, free).0) < Weight(q)
  {
    hide OnTrack, Greedy, Sampled;
    DecodeTurnOk(m, size, r, q, free);
  }

  lemma {:induction false} DecodeLighter(c: Config, rs: seq<Request>, qs: seq<SeqV>, free: seq<nat>)
    requires c.Valid() && AllOk(c, rs, qs) && AllIn(qs, {Running, Finished}) && HaveTokens(qs)
    ensures Sum(DecodePass(c.m, c.size, qs, free).0, WeightOf()) <= Sum(qs, WeightOf())
    ensures |qs| > 0 && qs[0].state == Running ==>
      Sum(DecodePass(c.m, c.size, qs, free).0, WeightOf()) < Sum(qs, WeightOf())
    decreases |qs|
  {
    hide SeqOk, SameBlocks, DecodeTurn, AllOk, AllIn, HaveTokens, Weight;
    if |qs| == 0 {
    } else {
      OkSplit(c, rs, qs, {Running, Finished});
      var (q, mid) := DecodeTurn(c.m, c.size, qs[0], free);
      DecodeTurnLighter(c.m, c.size, rs[qs[0].id], qs[0], free);
      DecodeLighter(c, rs, qs[1..], mid);
      SumCons(qs[0], qs[1..], WeightOf());
      SumCons(q, DecodePass(c.m, c.size, qs[1..], mid).0, WeightOf());
    }
  }

  // ---- Each part of a step keeps the invariant ----

  lemma {:induction false} ReleaseCounts(free: seq<nat>, done: seq<SeqV>, b: nat)
    ensures multiset(Release(free, done))[b] == multiset(free)[b] + Sum(done, CountOf(b))
    ensures |Release(free, done)| == |free| + Sum(done, TableLen())
    decreases |done|
  {
    if |done| > 0 {
      ReleaseCounts(free + done[0].table, done[1..], b);
      assert multiset(free + done[0].table)[b] == multiset(free)[b] + multiset(done[0].table)[b];
    }
  }

  lemma SplitSums(qs: seq<SeqV>, kept: seq<SeqV>, done: seq<SeqV>, f: SeqV -> nat)
    requires Split(qs, kept, done)
    ensures Sum(qs, f) == Sum(kept, f) + Sum(done, f)
  {
    assert multiset(kept + done) == multiset(qs);
    SumPermutation(qs, kept + done, f);
    SumAppend(kept, done, f);
  }

  lemma SplitMembers(c: Config, rs: seq<Request>, qs: seq<SeqV>, kept: seq<SeqV>, done: seq<SeqV>, running: SeqState)
    requires c.Valid() && Split(qs, kept, done) && AllOk(c, rs, qs) && AllIn(qs, {running, Finished})
    requires running != Finished
    ensures AllOk(c, rs, kept) && AllIn(kept, {running}) && AllIn(kept, {running, Finished})
    ensures AllOk(c, rs, done) && AllIn(done, {Finished})
    ensures |kept| + |done| == |qs|
  {
    hide SeqOk;
    assert forall q | q in kept :: q in multiset(qs);
    assert forall q | q in done :: q in multiset(qs);
    assert |multiset(qs)| == |multiset(kept)| + |multiset(done)|;
  }

  lemma AllOkAppend(c: Config, rs: seq<Request>, a: seq<SeqV>, b: seq<SeqV>, states: set<SeqState>)
    requires c.Valid() && AllOk(c, rs, a) && AllOk(c, rs, b) && AllIn(a, states) && AllIn(b, states)
    ensures AllOk(c, rs, a + b) && AllIn(a + b, states)
  {
    hide SeqOk;
  }

  /** `done` has been taken out of a live list of `s`, giving `t`. */
  ghost predicate TakenOut(s: SchedV, t: SchedV, done: seq<SeqV>) {
    && t.waiting == s.waiting && t.free == s.free && t.requests == s.requests && t.done == s.done
      && t.results == s.results
    && forall f: SeqV -> nat :: LiveSum(s, f) == LiveSum(t, f) + Sum(done, f)
  }

  /** Finished sequences leave a list: their blocks go back, their results are appended. */
  lemma DropKeeps(c: Config, s: SchedV, t: SchedV, done: seq<SeqV>)
    requires Conserved(c, s) && OncePerId(s) && ResultsAreLatest(s) && TakenOut(s, t, done)
    ensures Conserved(c, Drop(t, done)) && OncePerId(Drop(t, done)) && ResultsAreLatest(Drop(t, done))
  {
    hide Conserved, OncePerId, LiveSum, Release;
    DropConserves(c, s, t, done);
    DropKeepsIds(s, t, done);
    var n := |s.done| - |s.results|;
    assert (s.done + done)[n..] == s.done[n..] + done;
  }

  lemma DropConserves(c: Config, s: SchedV, t: SchedV, done: seq<SeqV>)
    requires Conserved(c, s) && TakenOut(s, t, done)
    ensures Conserved(c, Drop(t, done))
  {
    forall b: nat ensures multiset(Drop(t, done).free)[b] + LiveSum(t, CountOf(b)) == if b in c.pool then 1 else 0 {
      ReleaseCounts(s.free, done, b);
      assert multiset(s.free)[b] + LiveSum(s, CountOf(b)) == if b in c.pool then 1 else 0;
    }
    ReleaseCounts(s.free, done, 0);
  }

  lemma DropKeepsIds(s: SchedV, t: SchedV, done: seq<SeqV>)
    requires OncePerId(s) && TakenOut(s, t, done)
    ensures OncePerId(Drop(t, done))
  {
    forall id: nat ensures AllSum(Drop(t, done), HasId(id)) == if id < |s.requests| then 1 else 0 {
      SumAppend(s.done, done, HasId(id));
      assert AllSum(s, HasId(id)) == if id < |s.requests| then 1 else 0;
    }
  }

  lemma FinalizePrefillingKeeps(c: Config, s: SchedV, s': SchedV)
    requires c.Valid() && Inv(c, s) && FinalizePrefilling(s, s')
    ensures Inv(c, s') && AllIn(s'.prefilling, {Prefilling}) && s'.running == s.running && s'.waiting == s.waiting
    ensures s'.requests == s.requests
    ensures |s'.prefilling| <= |s.prefilling|
    ensures Sum(s.prefilling, WeightOf()) == Sum(s'.prefilling, WeightOf()) + (|s.prefilling| - |s'.prefilling|)
  {
    hide SeqOk, AllOk, AllIn, Conserved, OncePerId, ResultsAreLatest, Split, Snapshots, Release;
    var kept, done :| Split(s.prefilling, kept, done) && s' == Drop(s.(prefilling := kept), done);
    var t := s.(prefilling := kept);
    forall f: SeqV -> nat ensures LiveSum(s, f) == LiveSum(t, f) + Sum(done, f) {
      SplitSums(s.prefilling, kept, done, f);
    }
    SplitMembers(c, s.requests, s.prefilling, kept, done, Prefilling);
    AllOkAppend(c, s.requests, s.done, done, {Finished});
    DropKeeps(c, s, t, done);
    SplitSums(s.prefilling, kept, done, WeightOf());
    FinishedWeight(done);
  }

  lemma FinalizeRunningKeeps(c: Config, s: SchedV, s': SchedV)
    requires c.Valid() && Inv(c, s) && FinalizeRunning(s, s')
    ensures Inv(c, s') && AllIn(s'.running, {Running}) && s'.prefilling == s.prefilling && s'.waiting == s.waiting
    ensures s'.requests == s.requests
    ensures |s'.running| <= |s.running|
    ensures Sum(s.running, WeightOf()) == Sum(s'.running, WeightOf()) + (|s.running| - |s'.running|)
  {
    hide SeqOk, AllOk, AllIn, Conserved, OncePerId, ResultsAreLatest, Split, Snapshots, Release;
    var kept, done :| Split(s.running, kept, done) && s' == Drop(s.(running := kept), done);
    var t := s.(running := kept);
    forall f: SeqV -> nat ensures LiveSum(s, f) == LiveSum(t, f) + Sum(done, f) {
      SplitSums(s.running, kept, done, f);
    }
    SplitMembers(c, s.requests, s.running, kept, done, Running);
    AllOkAppend(c, s.requests, s.done, done, {Finished});
    DropKeeps(c, s, t, done);
    SplitSums(s.running, kept, done, WeightOf());
    FinishedWeight(done);
  }

  lemma {:induction false} FinishedWeight(done: seq<SeqV>)
    requires AllIn(done, {Finished})
    ensures Sum(done, WeightOf()) == |done|
    decreases |done|
  {
    if |done| > 0 {
      assert done[0] in done && forall q | q in done[1..] :: q in done;
      FinishedWeight(done[1..]);
    }
  }

  /** Admission moves the head of the queue, and only while there is room. */
  lemma {:induction false} AdmitKeeps(c: Config, s: SchedV)
    requires c.Valid() && Inv(c, s) && AllIn(s.prefilling, {Prefilling})
    ensures var s' := Admit(c, s);
      && Inv(c, s') && AllIn(s'.prefilling, {Prefilling}) && s'.running == s.running && s'.requests == s.requests
      && s'.budget == s.budget && s'.done == s.done
      && (|s.waiting| > 0 && |s.prefilling| + |s.running| == 0 ==> |s'.prefilling| > 0)
      && |s'.prefilling| >= |s.prefilling| && |s'.waiting| <= |s.waiting|
      && AllSum(s', WeightOf()) + (|s.waiting| - |s'.waiting|) == AllSum(s, WeightOf())
    decreases |s.waiting|
  {
    if |s.waiting| > 0 && |s.running| + |s.prefilling| < c.maxConcurrent {
      AdmitOneKeeps(c, s);
      AdmitKeeps(c, s.(waiting := s.waiting[1..], prefilling := s.prefilling + [s.waiting[0].(state := Prefilling)]));
    }
  }

  lemma AdmitOneKeeps(c: Config, s: SchedV)
    requires c.Valid() && Inv(c, s) && AllIn(s.prefilling, {Prefilling})
    requires |s.waiting| > 0 && |s.running| + |s.prefilling| < c.maxConcurrent
    ensures var s' := s.(waiting := s.waiting[1..], prefilling := s.prefilling + [s.waiting[0].(state := Prefilling)]);
      && Inv(c, s') && AllIn(s'.prefilling, {Prefilling})
      && AllSum(s', WeightOf()) + 1 == AllSum(s, WeightOf())
  {
    hide Conserved, OncePerId, SeqOk, Weight, Snapshots, AllOk, AllIn, Sum, CountOf, TableLen, HasId;
    var s' := s.(waiting := s.waiting[1..], prefilling := s.prefilling + [s.waiting[0].(state := Prefilling)]);
    AdmitOneLists(c, s.requests, s.waiting, s.prefilling);
    AdmitOneSums(s, s');
    ConservedBySums(c, s, s');
  }

  /** The head of the queue joins the list. */
  lemma AdmitOneLists(c: Config, rs: seq<Request>, waiting: seq<SeqV>, prefilling: seq<SeqV>)
    requires c.Valid() && |waiting| > 0 && AllOk(c, rs, waiting) && AllIn(waiting, {Waiting})
    requires AllOk(c, rs, prefilling) && AllIn(prefilling, {Prefilling})
    ensures AllOk(c, rs, waiting[1..]) && AllIn(waiting[1..], {Waiting})
    ensures var list := prefilling + [waiting[0].(state := Prefilling)];
      AllOk(c, rs, list) && AllIn(list, {Prefilling}) && AllIn(list, {Prefilling, Finished})
    ensures waiting[0].table == [] && Weight(waiting[0]) == Weight(waiting[0].(state := Prefilling)) + 1
  {
    hide SeqOk, Weight;
    assert waiting[0] in waiting;
    AdmitOk(c, rs, waiting[0]);
  }

  lemma AdmitOk(c: Config, rs: seq<Request>, q: SeqV)
    requires c.Valid() && q.id < |rs| && SeqOk(c.m, c.size, rs[q.id], q) && q.state == Waiting
    ensures SeqOk(c.m, c.size, rs[q.id], q.(state := Prefilling)) && q.table == []
    ensures Weight(q) == Weight(q.(state := Prefilling)) + 1
  {
    hide Greedy;
    EngineCore.Divides(c.size - 1, 0, c.size - 1, c.size);
  }

  lemma AdmitOneSums(s: SchedV, s': SchedV)
    requires |s.waiting| > 0 && s.waiting[0].table == []
    requires s' == s.(waiting := s.waiting[1..], prefilling := s.prefilling + [s.waiting[0].(state := Prefilling)])
    ensures forall b: nat :: LiveSum(s', CountOf(b)) == LiveSum(s, CountOf(b))
    ensures LiveSum(s', TableLen()) == LiveSum(s, TableLen())
    ensures forall id: nat :: AllSum(s', HasId(id)) == AllSum(s, HasId(id))
    ensures AllSum(s', WeightOf()) + Weight(s.waiting[0])
      == AllSum(s, WeightOf()) + Weight(s.waiting[0].(state := Prefilling))
  {
    var w := s.waiting[0].(state := Prefilling);
    forall f: SeqV -> nat ensures Sum(s'.prefilling, f) == Sum(s.prefilling, f) + f(w) {
      SumAppend(s.prefilling, [w], f);
      SumOne(w, f);
    }
  }

  lemma ConservedBySums(c: Config, s: SchedV, s': SchedV)
    requires Conserved(c, s) && OncePerId(s) && s'.free == s.free && s'.requests == s.requests
    requires forall b: nat :: LiveSum(s', CountOf(b)) == LiveSum(s, CountOf(b))
    requires LiveSum(s', TableLen()) == LiveSum(s, TableLen())
    requires forall id: nat :: AllSum(s', HasId(id)) == AllSum(s, HasId(id))
    ensures Conserved(c, s') && OncePerId(s')
  {
  }

  lemma AdvanceAllKeeps(c: Config, s: SchedV)
    requires c.Valid() && Inv(c, s) && AllIn(s.prefilling, {Prefilling})
    ensures HaveTokens(s.prefilling)
    ensures var s' := AdvanceAll(c, s);
      && Inv(c, s') && s'.waiting == s.waiting && s'.requests == s.requests && s'.budget == s.budget
      && LiveSum(s', WeightOf()) <= LiveSum(s, WeightOf())
      && (|s.prefilling| > 0 ==> LiveSum(s', WeightOf()) < LiveSum(s, WeightOf()))
  {
    hide SeqOk, AllOk, AllIn, Conserved, OncePerId, Snapshots, Advance, Weight;
    AllHaveTokens(c, s.requests, s.prefilling);
    var a := Advance(c.m, c.size, s.prefilling, s.free, s.budget);
    var s' := AdvanceAll(c, s);
    AdvanceKeeps(c, s.requests, s.prefilling, s.free, s.budget, 0, 0);
    AdvanceLighter(c, s.requests, s.prefilling, s.free, s.budget);
    AllInWider(a.moved, {Running}, {Running, Finished});
    AllOkAppend(c, s.requests, s.running, a.moved, {Running, Finished});
    forall b: nat, id: nat ensures PassKeeps(s.prefilling, s.free, a.kept, a.moved, a.free, b, id) {
      AdvanceKeeps(c, s.requests, s.prefilling, s.free, s.budget, b, id);
    }
    forall f: SeqV -> nat ensures Sum(s'.running, f) == Sum(s.running, f) + Sum(a.moved, f) {
      SumAppend(s.running, a.moved, f);
    }
    PassConserves(c, s, s', s.prefilling, a.kept, a.moved);
  }

  lemma AllInWider(qs: seq<SeqV>, a: set<SeqState>, b: set<SeqState>)
    requires AllIn(qs, a) && a <= b
    ensures AllIn(qs, b)
  {
  }

  /** A pass over the list `qs` of `s` that split it into `x` and `y`. */
  lemma PassConserves(c: Config, s: SchedV, s': SchedV, qs: seq<SeqV>, x: seq<SeqV>, y: seq<SeqV>)
    requires Conserved(c, s) && OncePerId(s) && s'.requests == s.requests && s'.waiting == s.waiting
    requires s'.done == s.done
    requires forall b: nat, id: nat :: PassKeeps(qs, s.free, x, y, s'.free, b, id)
    requires forall f: SeqV -> nat :: LiveSum(s', f) + Sum(qs, f) == LiveSum(s, f) + Sum(x, f) + Sum(y, f)
    ensures Conserved(c, s') && OncePerId(s')
  {
    forall b: nat ensures multiset(s'.free)[b] + LiveSum(s', CountOf(b)) == if b in c.pool then 1 else 0 {
      assert PassKeeps(qs, s.free, x, y, s'.free, b, 0);
      assert multiset(s.free)[b] + LiveSum(s, CountOf(b)) == if b in c.pool then 1 else 0;
    }
    forall id: nat ensures AllSum(s', HasId(id)) == if id < |s'.requests| then 1 else 0 {
      assert PassKeeps(qs, s.free, x, y, s'.free, 0, id);
      assert AllSum(s, HasId(id)) == if id < |s.requests| then 1 else 0;
    }
    assert PassKeeps(qs, s.free, x, y, s'.free, 0, 0);
  }

  lemma DecodeAllKeeps(c: Config, s: SchedV)
    requires c.Valid() && Inv(c, s)
    ensures HaveTokens(s.running)
    ensures var s' := DecodeAll(c, s);
      && Inv(c, s') && s'.waiting == s.waiting && s'.requests == s.requests && s'.budget == s.budget
      && s'.prefilling == s.prefilling
      && LiveSum(s', WeightOf()) <= LiveSum(s, WeightOf())
      && (|s.running| > 0 && s.running[0].state == Running ==> LiveSum(s', WeightOf()) < LiveSum(s, WeightOf()))
  {
    hide SeqOk, AllOk, AllIn, Conserved, OncePerId, Snapshots, DecodePass, Weight, PassKeeps;
    AllHaveTokens(c, s.requests, s.running);
    var (running, free) := DecodePass(c.m, c.size, s.running, s.free);
    var s' := DecodeAll(c, s);
    DecodeKeeps(c, s.requests, s.running, s.free, 0, 0);
    DecodeLighter(c, s.requests, s.running, s.free);
    forall b: nat, id: nat ensures PassKeeps(s.running, s.free, running, [], free, b, id) {
      DecodeKeeps(c, s.requests, s.running, s.free, b, id);
    }
    PassConserves(c, s, s', s.running, running, []);
  }

  lemma EnqueueKeeps(c: Config, s: SchedV, r: Request)
    requires c.Valid() && Inv(c, s) && RequestOk(c.m, r.prompt, r.maxNew)
    ensures Inv(c, Enqueue(s, r))
  {
    hide Conserved, OncePerId, ResultsAreLatest;
    var s' := Enqueue(s, r);
    var q := NewSeq(|s.requests|, r);
    EnqueueOk(c, s, r);
    AllOkGrows(c, s.requests, r, s.waiting);
    AllOkGrows(c, s.requests, r, s.prefilling);
    AllOkGrows(c, s.requests, r, s.running);
    AllOkGrows(c, s.requests, r, s.done);
    OkCons(c, s'.requests, q, [], {Waiting});
    AllOkAppend(c, s'.requests, s.waiting, [q], {Waiting});
    EnqueueOnce(c, s, r);
  }

  lemma EnqueueOk(c: Config, s: SchedV, r: Request)
    requires c.Valid() && RequestOk(c.m, r.prompt, r.maxNew)
    ensures SeqOk(c.m, c.size, r, NewSeq(|s.requests|, r))
  {
    hide Greedy;
  }

  lemma AllOkGrows(c: Config, rs: seq<Request>, r: Request, qs: seq<SeqV>)
    requires c.Valid() && AllOk(c, rs, qs)
    ensures AllOk(c, rs + [r], qs)
  {
    hide SeqOk;
  }

  lemma EnqueueOnce(c: Config, s: SchedV, r: Request)
    requires OncePerId(s) && Conserved(c, s) && ResultsAreLatest(s)
    ensures OncePerId(Enqueue(s, r)) && Conserved(c, Enqueue(s, r)) && ResultsAreLatest(Enqueue(s, r))
  {
    var s', q := Enqueue(s, r), NewSeq(|s.requests|, r);
    forall id: nat ensures AllSum(s', HasId(id)) == if id < |s'.requests| then 1 else 0 {
      assert AllSum(s, HasId(id)) == if id < |s.requests| then 1 else 0;
      SumAppend(s.waiting, [q], HasId(id));
      SumOne(q, HasId(id));
    }
    forall b: nat ensures multiset(s'.free)[b] + LiveSum(s', CountOf(b)) == if b in c.pool then 1 else 0 {
      assert multiset(s.free)[b] + LiveSum(s, CountOf(b)) == if b in c.pool then 1 else 0;
    }
  }
}
