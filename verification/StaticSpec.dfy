/** The static scheduler on values: prefill everything in order, then decode in
    lockstep rounds until nothing runs. */
module StaticSpec {
  import opened Meaning
  import opened PagedStore
  import opened SchedSpec
  import opened SeqProofs
  import opened Sums
  import opened SchedProofs
  import opened SchedMemory
  import EngineCore

  /** A whole prompt in one turn.  The cursor is not used: it keeps its value. */
  ghost function PrefillWhole(m: Model, size: nat, q: SeqV, free: seq<nat>): (SeqV, seq<nat>)
    requires m.Valid() && size > 0 && |q.tokens| > 0
  {
    var (q', free', _) := PrefillTurn(m, size, q.(state := Prefilling), free, q.promptLen);
    (q'.(cursor := q.cursor), free')
  }

  ghost function PrefillPass(m: Model, size: nat, qs: seq<SeqV>, free: seq<nat>): (r: (seq<SeqV>, seq<nat>))
    requires m.Valid() && size > 0 && HaveTokens(qs)
    ensures |r.0| == |qs|
    decreases |qs|
  {
    if |qs| == 0 then (qs, free)
    else
      var (q, free') := PrefillWhole(m, size, qs[0], free);
      var (rest, free'') := PrefillPass(m, size, qs[1..], free');
      ([q] + rest, free'')
  }

  /** Once a prompt is fed the cursor says nothing. */
  lemma CursorFree(m: Model, size: nat, r: Request, q: SeqV, cursor: nat)
    requires m.Valid() && size > 0 && SeqOk(m, size, r, q) && (q.state == Running || q.state == Finished)
    ensures SeqOk(m, size, r, q.(cursor := cursor))
  {
  }

  lemma StartsPrefill(m: Model, size: nat, r: Request, q: SeqV)
    requires m.Valid() && size > 0 && SeqOk(m, size, r, q) && q.state == Waiting
    ensures SeqOk(m, size, r, q.(state := Prefilling)) && q.cursor == 0 && |q.tokens| > 0
  {
    EngineCore.Divides(size - 1, 0, size - 1, size);
  }

  lemma StillPrefilling(m: Model, size: nat, r: Request, q: SeqV)
    requires m.Valid() && size > 0 && SeqOk(m, size, r, q)
    ensures q.promptLen == |r.prompt| && q.maxNew == r.maxNew && (q.state == Prefilling ==> q.cursor < q.promptLen)
  {
  }

  /** A prompt fed in one turn ends running or finished. */
  lemma PrefillWholeOk(m: Model, size: nat, r: Request, q: SeqV, free: seq<nat>)
    requires m.Valid() && size > 0 && SeqOk(m, size, r, q) && q.state == Waiting
    ensures var (q', free') := PrefillWhole(m, size, q, free);
      && SeqOk(m, size, r, q') && q'.id == q.id && (q'.state == Running || q'.state == Finished)
      && SameBlocks(free, q.table, free', q'.table)
      && (q'.state == Finished && q'.reason == Capacity ==>
        |free'| == 0 && |q'.table| < NeedOf(size, q.promptLen, q.maxNew))
  {
    hide PrefillTurn, SameBlocks, SeqOk;
    var p := q.(state := Prefilling);
    StartsPrefill(m, size, r, q);
    PrefillTurnOk(m, size, r, p, free, p.promptLen);
    var q' := PrefillTurn(m, size, p, free, p.promptLen).0;
    StillPrefilling(m, size, r, q');
    StillPrefilling(m, size, r, q);
    CursorFree(m, size, r, q', q.cursor);
  }

  lemma {:induction false} PrefillPassKeeps(c: Config, rs: seq<Request>, qs: seq<SeqV>, free: seq<nat>, b: nat, id: nat)
    requires c.Valid() && AllOk(c, rs, qs) && AllIn(qs, {Waiting}) && HaveTokens(qs)
    ensures var (qs', free') := PrefillPass(c.m, c.size, qs, free);
      && AllOk(c, rs, qs') && AllIn(qs', {Running, Finished})
      && PassKeeps(qs, free, qs', [], free', b, id)
    decreases |qs|
  {
    hide SeqOk, PassKeeps, SameBlocks, PrefillWhole, AllOk, AllIn, HaveTokens;
    if |qs| == 0 {
      NoPass(c, rs, qs, free, b, id);
      NobodyIn(qs, {Running, Finished});
    } else {
      OkSplit(c, rs, qs, {Waiting});
      var (q, mid) := PrefillWhole(c.m, c.size, qs[0], free);
      PrefillWholeOk(c.m, c.size, rs[qs[0].id], qs[0], free);
      PrefillPassKeeps(c, rs, qs[1..], mid, b, id);
      var (rest, free') := PrefillPass(c.m, c.size, qs[1..], mid);
      PassCons(qs[0], qs[1..], free, q, mid, rest, [], free', b, id);
      OkCons(c, rs, q, rest, {Running, Finished});
    }
  }

  lemma {:induction false} PrefillSameIds(c: Config, rs: seq<Request>, qs: seq<SeqV>, free: seq<nat>)
    requires c.Valid() && AllOk(c, rs, qs) && AllIn(qs, {Waiting}) && HaveTokens(qs)
    ensures SameIds(qs, PrefillPass(c.m, c.size, qs, free).0)
    decreases |qs|
  {
    hide SeqOk, SameBlocks, PrefillWhole, AllOk, AllIn, HaveTokens;
    if |qs| == 0 {
    } else {
      OkSplit(c, rs, qs, {Waiting});
      PrefillWholeOk(c.m, c.size, rs[qs[0].id], qs[0], free);
      PrefillSameIds(c, rs, qs[1..], PrefillWhole(c.m, c.size, qs[0], free).1);
    }
  }

  /** Sequence by sequence the same request. */
  ghost predicate SameIds(qs: seq<SeqV>, qs': seq<SeqV>) {
    |qs| == |qs'| && forall i | 0 <= i < |qs| :: qs'[i].id == qs[i].id
  }

  lemma {:induction false} DecodeSameIds(m: Model, size: nat, qs: seq<SeqV>, free: seq<nat>)
    requires m.Valid() && size > 0 && HaveTokens(qs)
    ensures SameIds(qs, DecodePass(m, size, qs, free).0)
    decreases |qs|
  {
    hide Sampled, TakeBlock;
    if |qs| == 0 {
    } else {
      var (q, mid) := DecodeTurn(m, size, qs[0], free);
      DecodeTurnId(m, size, qs[0], free);
      DecodeSameIds(m, size, qs[1..], mid);
    }
  }

  lemma DecodeTurnId(m: Model, size: nat, q: SeqV, free: seq<nat>)
    requires m.Valid() && size > 0 && |q.tokens| > 0
    ensures DecodeTurn(m, size, q, free).0.id == q.id
  {
  }

  /** A round in which anything runs makes the rest of the work smaller. */
  lemma {:induction false} RoundLighter(c: Config, rs: seq<Request>, qs: seq<SeqV>, free: seq<nat>)
    requires c.Valid() && AllOk(c, rs, qs) && AllIn(qs, {Running, Finished}) && HaveTokens(qs)
    ensures Sum(DecodePass(c.m, c.size, qs, free).0, WeightOf()) <= Sum(qs, WeightOf())
    ensures (exists q :: q in qs && q.state == Running) ==>
      Sum(DecodePass(c.m, c.size, qs, free).0, WeightOf()) < Sum(qs, WeightOf())
    decreases |qs|
  {
    hide SeqOk, SameBlocks, DecodeTurn, AllOk, AllIn, HaveTokens, Weight;
    if |qs| == 0 {
    } else {
      OkSplit(c, rs, qs, {Running, Finished});
      var (q, mid) := DecodeTurn(c.m, c.size, qs[0], free);
      DecodeTurnLighter(c.m, c.size, rs[qs[0].id], qs[0], free);
      RoundLighter(c, rs, qs[1..], mid);
      SumCons(qs[0], qs[1..], WeightOf());
      SumCons(q, DecodePass(c.m, c.size, qs[1..], mid).0, WeightOf());
    }
  }

  // ---- Enough memory ----

  lemma {:induction false} PrefillNeverStarves(c: Config, rs: seq<Request>, qs: seq<SeqV>, free: seq<nat>)
    requires c.Valid() && AllOk(c, rs, qs) && AllIn(qs, {Waiting}) && HaveTokens(qs) && Room(c.size, qs, free)
    ensures NoCapacity(PrefillPass(c.m, c.size, qs, free).0)
    decreases |qs|
  {
    hide SeqOk, SameBlocks, PrefillWhole, AllOk, AllIn, HaveTokens, Room, NeedOf, Need;
    if |qs| == 0 {
    } else {
      OkSplit(c, rs, qs, {Waiting});
      var (q, mid) := PrefillWhole(c.m, c.size, qs[0], free);
      PrefillWholeOk(c.m, c.size, rs[qs[0].id], qs[0], free);
      NeedCovers(c, rs, qs[0]);
      NeedCovers(c, rs, q);
      SameRequest(c, rs[qs[0].id], qs[0], q);
      HeldWithinNeed(c, rs, qs[1..]);
      TurnHasRoom(c.size, qs[0], qs[1..], free, q, mid);
      PrefillNeverStarves(c, rs, qs[1..], mid);
      NoCapacityCons(q, PrefillPass(c.m, c.size, qs[1..], mid).0);
    }
  }

  lemma {:induction false} SumSame(qs: seq<SeqV>, qs': seq<SeqV>, f: SeqV -> nat)
    requires |qs| == |qs'| && forall i | 0 <= i < |qs| :: f(qs[i]) == f(qs'[i])
    ensures Sum(qs, f) == Sum(qs', f)
    decreases |qs|
  {
    if |qs| > 0 {
      assert forall i | 0 <= i < |qs[1..]| :: qs[1..][i] == qs[i + 1] && qs'[1..][i] == qs'[i + 1];
      SumSame(qs[1..], qs'[1..], f);
    }
  }

  /** A pass conserves blocks and needs, so there is as much room after it as before. */
  lemma RoomStays(c: Config, rs: seq<Request>, qs: seq<SeqV>, free: seq<nat>, qs': seq<SeqV>, free': seq<nat>)
    requires c.Valid() && AllOk(c, rs, qs) && AllOk(c, rs, qs') && SameIds(qs, qs')
    requires PassKeeps(qs, free, qs', [], free', 0, 0) && Room(c.size, qs, free)
    ensures Room(c.size, qs', free')
  {
    hide SeqOk, NeedOf, Need;
    forall i | 0 <= i < |qs| ensures Need(c.size)(qs[i]) == Need(c.size)(qs'[i]) {
      assert qs[i] in qs && qs'[i] in qs';
      NeedCovers(c, rs, qs[i]);
      NeedCovers(c, rs, qs'[i]);
      SameRequest(c, rs[qs[i].id], qs[i], qs'[i]);
    }
    SumSame(qs, qs', Need(c.size));
  }
}
