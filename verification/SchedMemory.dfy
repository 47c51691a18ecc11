/** When memory is enough: a run whose pool can hold every live sequence at its
    largest never ends a sequence with "capacity". */
module SchedMemory {
  import opened Meaning
  import opened SchedSpec
  import opened SeqProofs
  import opened Sums
  import opened SchedProofs
  import opened SchedTheorems

  /** The most blocks a sequence can come to hold. */
  ghost function Need(size: nat): SeqV -> nat
    requires size > 0
  {
    (q: SeqV) => if q.promptLen > 0 then NeedOf(size, q.promptLen, q.maxNew) else 0
  }

  ghost predicate NoCapacity(qs: seq<SeqV>) {
    forall q | q in qs :: !(q.state == Finished && q.reason == Capacity)
  }

  /** Free blocks and held blocks together cover the needs of the list. */
  ghost predicate Room(size: nat, qs: seq<SeqV>, free: seq<nat>)
    requires size > 0
  {
    |free| + Sum(qs, TableLen()) >= Sum(qs, Need(size))
  }

  /** Nobody holds more than it needs. */
  lemma {:induction false} HeldWithinNeed(c: Config, rs: seq<Request>, qs: seq<SeqV>)
    requires c.Valid() && AllOk(c, rs, qs)
    ensures Sum(qs, TableLen()) <= Sum(qs, Need(c.size))
  {
    forall q | q in qs ensures TableLen()(q) <= Need(c.size)(q) {
      NeedCovers(c, rs, q);
    }
    SumBelow(qs, TableLen(), Need(c.size));
  }

  lemma NeedCovers(c: Config, rs: seq<Request>, q: SeqV)
    requires c.Valid() && q.id < |rs| && SeqOk(c.m, c.size, rs[q.id], q)
    ensures q.promptLen > 0 && |q.table| <= Need(c.size)(q) == NeedOf(c.size, q.promptLen, q.maxNew)
  {
  }

  /** A turn that does not starve leaves room for the rest of the list, and a turn
      taken with room for everybody cannot starve. */
  lemma TurnHasRoom(size: nat, q: SeqV, qs: seq<SeqV>, free: seq<nat>, q': SeqV, free': seq<nat>)
    requires size > 0 && q.promptLen > 0 && q'.promptLen == q.promptLen && q'.maxNew == q.maxNew
    requires Room(size, [q] + qs, free) && Sum(qs, TableLen()) <= Sum(qs, Need(size))
    requires SameBlocks(free, q.table, free', q'.table)
    requires |q'.table| <= NeedOf(size, q.promptLen, q.maxNew)
    ensures Room(size, qs, free')
    ensures |free'| == 0 ==> |q'.table| == NeedOf(size, q.promptLen, q.maxNew)
  {
    SumCons(q, qs, TableLen());
    SumCons(q, qs, Need(size));
  }

  lemma NoCapacityCons(q: SeqV, qs: seq<SeqV>)
    requires NoCapacity(qs) && !(q.state == Finished && q.reason == Capacity)
    ensures NoCapacity([q] + qs)
  {
  }

  lemma {:induction false} AdvanceNeverStarves(c: Config, rs: seq<Request>, qs: seq<SeqV>, free: seq<nat>, budget: nat)
    requires c.Valid() && AllOk(c, rs, qs) && AllIn(qs, {Prefilling}) && HaveTokens(qs) && Room(c.size, qs, free)
    ensures var a := Advance(c.m, c.size, qs, free, budget); NoCapacity(a.kept) && NoCapacity(a.moved)
    decreases |qs|
  {
    hide SeqOk, SameBlocks, PrefillTurn, AllOk, AllIn, HaveTokens, Room, NeedOf, Need;
    if |qs| == 0 || budget == 0 {
      NotFinishedYet(qs);
    } else {
      OkSplit(c, rs, qs, {Prefilling});
      var (q, mid, budget') := PrefillTurn(c.m, c.size, qs[0], free, budget);
      PrefillTurnOk(c.m, c.size, rs[qs[0].id], qs[0], free, budget);
      NeedCovers(c, rs, qs[0]);
      NeedCovers(c, rs, q);
      SameRequest(c, rs[qs[0].id], qs[0], q);
      HeldWithinNeed(c, rs, qs[1..]);
      TurnHasRoom(c.size, qs[0], qs[1..], free, q, mid);
      AdvanceNeverStarves(c, rs, qs[1..], mid, budget');
      var rest := Advance(c.m, c.size, qs[1..], mid, budget');
      NoCapacityCons(q, if q.state == Running then rest.moved else rest.kept);
    }
  }

  lemma NotFinishedYet(qs: seq<SeqV>)
    requires AllIn(qs, {Prefilling})
    ensures NoCapacity(qs)
  {
  }

  lemma SameRequest(c: Config, r: Request, q: SeqV, q': SeqV)
    requires c.Valid() && SeqOk(c.m, c.size, r, q) && SeqOk(c.m, c.size, r, q')
    ensures q'.promptLen == q.promptLen && q'.maxNew == q.maxNew
  {
  }

  lemma {:induction false} DecodeNeverStarves(c: Config, rs: seq<Request>, qs: seq<SeqV>, free: seq<nat>)
    requires c.Valid() && AllOk(c, rs, qs) && AllIn(qs, {Running, Finished}) && HaveTokens(qs)
    requires Room(c.size, qs, free) && NoCapacity(qs)
    ensures NoCapacity(DecodePass(c.m, c.size, qs, free).0)
    decreases |qs|
  {
    hide SeqOk, SameBlocks, DecodeTurn, AllOk, AllIn, HaveTokens, Room, NeedOf, Need;
    if |qs| == 0 {
    } else {
      OkSplit(c, rs, qs, {Running, Finished});
      var (q, mid) := DecodeTurn(c.m, c.size, qs[0], free);
      DecodeTurnOk(c.m, c.size, rs[qs[0].id], qs[0], free);
      FinishedStays(c.m, c.size, qs[0], free);
      NeedCovers(c, rs, qs[0]);
      NeedCovers(c, rs, q);
      SameRequest(c, rs[qs[0].id], qs[0], q);
      HeldWithinNeed(c, rs, qs[1..]);
      TurnHasRoom(c.size, qs[0], qs[1..], free, q, mid);
      assert qs[0] in qs && forall x | x in qs[1..] :: x in qs;
      DecodeNeverStarves(c, rs, qs[1..], mid);
      NoCapacityCons(q, DecodePass(c.m, c.size, qs[1..], mid).0);
    }
  }

  lemma FinishedStays(m: Model, size: nat, q: SeqV, free: seq<nat>)
    requires m.Valid() && size > 0 && |q.tokens| > 0
    ensures q.state != Running ==> DecodeTurn(m, size, q, free) == (q, free)
  {
  }

  // ---- The continuous scheduler ----

  /** The pool can hold `maxConcurrent` sequences of the largest need. */
  ghost predicate Enough(c: Config, rs: seq<Request>, most: nat)
    requires c.Valid()
  {
    && |c.pool| >= c.maxConcurrent * most
    && forall r | r in rs :: |r.prompt| > 0 && NeedOf(c.size, |r.prompt|, r.maxNew) <= most
  }

  lemma NeedAtMost(c: Config, rs: seq<Request>, most: nat, qs: seq<SeqV>)
    requires c.Valid() && Enough(c, rs, most) && AllOk(c, rs, qs)
    ensures Sum(qs, Need(c.size)) <= |qs| * most
  {
    hide NeedOf;
    forall q | q in qs ensures Need(c.size)(q) <= most {
      assert rs[q.id] in rs;
      PromptOf(c, rs, q);
    }
    SumAtMost(qs, Need(c.size), most);
  }

  lemma PromptOf(c: Config, rs: seq<Request>, q: SeqV)
    requires c.Valid() && q.id < |rs| && SeqOk(c.m, c.size, rs[q.id], q)
    ensures q.promptLen == |rs[q.id].prompt| > 0 && q.maxNew == rs[q.id].maxNew
  {
  }

  /** With enough memory either live list can be served to the end. */
  lemma LiveListsHaveRoom(c: Config, s: SchedV, most: nat)
    requires c.Valid() && Inv(c, s) && Enough(c, s.requests, most)
    ensures Room(c.size, s.prefilling, s.free) && Room(c.size, s.running, s.free)
  {
    hide SeqOk, AllOk, AllIn, OncePerId, Fifo, ResultsAreLatest, NeedOf, Need, Sum, CountOf, TableLen;
    NeedAtMost(c, s.requests, most, s.prefilling);
    NeedAtMost(c, s.requests, most, s.running);
    HeldWithinNeed(c, s.requests, s.prefilling);
    HeldWithinNeed(c, s.requests, s.running);
    CapTimes(|s.prefilling|, |s.running|, c.maxConcurrent, most);
  }

  lemma CapTimes(a: nat, b: nat, cap: nat, most: nat)
    requires a + b <= cap
    ensures a * most + b * most <= cap * most
  {
    assert cap * most == a * most + b * most + (cap - a - b) * most;
  }

  ghost predicate NeverStarved(s: SchedV) {
    NoCapacity(s.prefilling) && NoCapacity(s.running) && NoCapacity(s.done)
  }

  lemma SweepNeverStarved(qs: seq<SeqV>, kept: seq<SeqV>, done: seq<SeqV>)
    requires Split(qs, kept, done) && NoCapacity(qs)
    ensures NoCapacity(kept) && NoCapacity(done)
  {
    assert forall q | q in kept :: q in multiset(qs);
    assert forall q | q in done :: q in multiset(qs);
  }

  lemma PrefillingSwept(s: SchedV, s': SchedV)
    requires FinalizePrefilling(s, s') && NeverStarved(s)
    ensures NeverStarved(s')
  {
    var kept, done :| Split(s.prefilling, kept, done) && s' == Drop(s.(prefilling := kept), done);
    SweepNeverStarved(s.prefilling, kept, done);
  }

  lemma RunningSwept(s: SchedV, s': SchedV)
    requires FinalizeRunning(s, s') && NeverStarved(s)
    ensures NeverStarved(s')
  {
    var kept, done :| Split(s.running, kept, done) && s' == Drop(s.(running := kept), done);
    SweepNeverStarved(s.running, kept, done);
  }

  lemma {:induction false} AdmitNeverStarved(c: Config, s: SchedV)
    requires NeverStarved(s)
    ensures NeverStarved(Admit(c, s))
    decreases |s.waiting|
  {
    if |s.waiting| > 0 && |s.running| + |s.prefilling| < c.maxConcurrent {
      AdmitNeverStarved(c, s.(waiting := s.waiting[1..], prefilling :=
        s.prefilling + [s.waiting[0].(state := Prefilling)]));
    }
  }

  lemma StepNeverStarves(c: Config, s: SchedV, s': SchedV, most: nat)
    requires c.Valid() && Inv(c, s) && Step(c, s, s') && Enough(c, s.requests, most) && NeverStarved(s)
    ensures NeverStarved(s')
  {
    hide Inv, FinalizePrefilling, FinalizeRunning, Admit, HaveTokens, AllIn, NeverStarved, Enough;
    var s1, s2 :|
      && FinalizePrefilling(s, s1) && FinalizeRunning(s1, s2)
      && HaveTokens(Admit(c, s2).prefilling)
      && HaveTokens(AdvanceAll(c, Admit(c, s2)).running)
      && s' == DecodeAll(c, AdvanceAll(c, Admit(c, s2)));
    FinalizePrefillingKeeps(c, s, s1);
    PrefillingSwept(s, s1);
    FinalizeRunningKeeps(c, s1, s2);
    RunningSwept(s1, s2);
    AdmitKeeps(c, s2);
    AdmitNeverStarved(c, s2);
    var s3 := Admit(c, s2);
    AdvanceAllNeverStarves(c, s3, most);
    AdvanceAllKeeps(c, s3);
    DecodeAllNeverStarves(c, AdvanceAll(c, s3), most);
  }

  lemma AdvanceAllNeverStarves(c: Config, s: SchedV, most: nat)
    requires c.Valid() && Inv(c, s) && Enough(c, s.requests, most) && NeverStarved(s)
    requires AllIn(s.prefilling, {Prefilling}) && HaveTokens(s.prefilling)
    ensures NeverStarved(AdvanceAll(c, s))
  {
    hide AllOk, AllIn, Conserved, OncePerId, Room, HaveTokens;
    LiveListsHaveRoom(c, s, most);
    AdvanceNeverStarves(c, s.requests, s.prefilling, s.free, s.budget);
  }

  lemma DecodeAllNeverStarves(c: Config, s: SchedV, most: nat)
    requires c.Valid() && Inv(c, s) && Enough(c, s.requests, most) && NeverStarved(s) && HaveTokens(s.running)
    ensures NeverStarved(DecodeAll(c, s))
  {
    hide AllOk, AllIn, Conserved, OncePerId, Room, HaveTokens;
    LiveListsHaveRoom(c, s, most);
    DecodeNeverStarves(c, s.requests, s.running, s.free);
  }

  lemma NextNeverStarves(c: Config, s: SchedV, s': SchedV, most: nat)
    requires c.Valid() && Inv(c, s) && Next(c, s, s') && Enough(c, s.requests, most) && NeverStarved(s)
    ensures NeverStarved(s')
  {
    hide Inv, Step, FinalizePrefilling, FinalizeRunning, NoCapacity, Enough;
    if Step(c, s, s') {
      StepNeverStarves(c, s, s', most);
    } else if FinalizePrefilling(s, s') {
      PrefillingSwept(s, s');
    } else if FinalizeRunning(s, s') {
      RunningSwept(s, s');
    }
  }

  lemma {:induction false} RunNeverStarves(c: Config, run: seq<SchedV>, most: nat)
    requires c.Valid() && IsRun(c, run) && Enough(c, run[|run| - 1].requests, most)
    ensures NeverStarved(run[|run| - 1])
    decreases |run|
  {
    hide Inv, Next, NoCapacity, NeedOf;
    if |run| > 1 {
      var front, s := run[..|run| - 1], run[|run| - 2];
      assert Next(c, s, run[|run| - 1]);
      RunKeeps(c, front);
      NextKeeps(c, s, run[|run| - 1]);
      assert forall r | r in s.requests :: r in run[|run| - 1].requests;
      RunNeverStarves(c, front, most);
      NextNeverStarves(c, s, run[|run| - 1], most);
    } else {
      EmptyNeverStarved(c, run[0]);
    }
  }

  lemma EmptyNeverStarved(c: Config, s: SchedV)
    requires c.Valid() && Init(c, s)
    ensures NeverStarved(s)
  {
  }

  /** A continuous scheduler alone on a pool of at least `maxConcurrent` times the
      largest need gives every request exactly what `generate` gives it. */
  lemma EnoughMemoryMeansGenerate(c: Config, run: seq<SchedV>, most: nat)
    requires c.Valid() && IsRun(c, run) && Enough(c, run[|run| - 1].requests, most)
    ensures var s := run[|run| - 1];
      forall x | x in s.results ::
        && x.id < |s.requests| && |s.requests[x.id].prompt| > 0
        && Outcome(x.tokens, x.reason) == GreedyOf(c.m, s.requests[x.id])
  {
    hide Next, Init, Faithful;
    RunKeeps(c, run);
    RunNeverStarves(c, run, most);
    var s := run[|run| - 1];
    forall x | x in s.results
      ensures x.id < |s.requests| && |s.requests[x.id].prompt| > 0
      ensures Outcome(x.tokens, x.reason) == GreedyOf(c.m, s.requests[x.id])
    {
      var i :| 0 <= i < |s.results| && s.results[i] == x;
      ResultIsFaithful(c, s, i);
      NotStarvedIsExact(c, s, i);
    }
  }

  lemma NotStarvedIsExact(c: Config, s: SchedV, i: nat)
    requires c.Valid() && Inv(c, s) && NeverStarved(s) && i < |s.results|
    requires s.results[i].id < |s.requests| && |s.requests[s.results[i].id].prompt| > 0
    requires Faithful(c.m, s.requests[s.results[i].id], s.results[i])
    ensures var x := s.results[i]; Outcome(x.tokens, x.reason) == GreedyOf(c.m, s.requests[x.id])
  {
    hide SeqOk, Conserved, OncePerId, Fifo, AllOk;
    var q := s.done[|s.done| - |s.results| + i];
    assert q in s.done && s.results[i] == Snapshot(q);
  }
}
