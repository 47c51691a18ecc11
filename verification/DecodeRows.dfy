/** What a batched decode step leaves stored: the tokens every live sequence counts on. */
module DecodeRows {
  import opened Numeric
  import opened Meaning
  import opened PagedStore
  import opened Recall
  import opened BatchStore
  import opened EngineCore
  import opened SchedSpec
  import opened SeqProofs
  import opened Sums
  import opened LiveRows
  import opened SchedProofs
  import opened BatchTurns

  /** What each picked sequence has stored, and the token it is about to store. */
  ghost function Histories(qs: seq<SeqV>, idx: seq<nat>): (hist: seq<seq<int>>)
    requires Picks(qs, idx)
    ensures |hist| == |idx| && forall k | 0 <= k < |idx| :: hist[k] == qs[idx[k]].tokens[..|qs[idx[k]].tokens| - 1]
  {
    seq(|idx|, k requires 0 <= k < |idx| => qs[idx[k]].tokens[..|qs[idx[k]].tokens| - 1])
  }

  ghost function LastTokens(qs: seq<SeqV>, idx: seq<nat>): (ts: seq<int>)
    requires Picks(qs, idx)
    ensures |ts| == |idx| && forall k | 0 <= k < |idx| :: ts[k] == qs[idx[k]].tokens[|qs[idx[k]].tokens| - 1]
  {
    seq(|idx|, k requires 0 <= k < |idx| => qs[idx[k]].tokens[|qs[idx[k]].tokens| - 1])
  }

  lemma LiveAlone(c: Config, s: SchedV)
    requires c.Valid() && Inv(c, s)
    ensures OneEach(s.prefilling + (s.running + s.waiting)) && OneEach(s.running + (s.prefilling + s.waiting))
    ensures Exclusive(c.blocks, s.free, s.prefilling + s.running)
    ensures Exclusive(c.blocks, s.free, s.prefilling) && Exclusive(c.blocks, s.free, s.running)
  {
    hide Sorted, Fifo, ResultsAreLatest;
    forall id: nat
      ensures Sum(s.prefilling + (s.running + s.waiting), HasId(id)) <= 1
      ensures Sum(s.running + (s.prefilling + s.waiting), HasId(id)) <= 1 {
      SumAppend(s.prefilling, s.running + s.waiting, HasId(id));
      SumAppend(s.running, s.waiting, HasId(id));
      SumAppend(s.running, s.prefilling + s.waiting, HasId(id));
      SumAppend(s.prefilling, s.waiting, HasId(id));
      assert AllSum(s, HasId(id)) <= 1;
    }
    forall b: nat
      ensures multiset(s.free)[b] + Sum(s.prefilling + s.running, CountOf(b)) <= if b < c.blocks then 1 else 0 {
      SumAppend(s.prefilling, s.running, CountOf(b));
      assert multiset(s.free)[b] + LiveSum(s, CountOf(b)) == if b in c.pool then 1 else 0;
    }
    ExclusivePart(c.blocks, s.free, s.prefilling, s.running);
  }

  lemma ExclusivePart(blocks: nat, free: seq<nat>, a: seq<SeqV>, b: seq<SeqV>)
    requires Exclusive(blocks, free, a + b)
    ensures Exclusive(blocks, free, a) && Exclusive(blocks, free, b)
  {
    forall k: nat ensures multiset(free)[k] + Sum(a, CountOf(k)) + Sum(b, CountOf(k)) <= if k < blocks then 1 else 0 {
      SumAppend(a, b, CountOf(k));
      assert multiset(free)[k] + Sum(a + b, CountOf(k)) <= if k < blocks then 1 else 0;
    }
  }

  /** Every picked sequence holds its history in blocks of its own. */
  ghost predicate RowsWaiting(m: Model, g: Geometry, rows: Rows, free: seq<nat>, qs: seq<SeqV>, idx: seq<nat>)
    requires Picks(qs, idx)
  {
    && g.blockSize > 0 && Disjoint(g, free, PickedTables(qs, idx))
    && forall k | 0 <= k < |idx| ::
        && |PickedTables(qs, idx)[k]| == CeilDiv(|Histories(qs, idx)[k]|, g.blockSize)
        && PagedHolds(m, rows, PickedTables(qs, idx)[k], g.blockSize, Histories(qs, idx)[k], m.layers)
        && 0 <= LastTokens(qs, idx)[k] < m.vocab
  }

  /** What is running is ready for a batch. */
  lemma PickedReady(c: Config, g: Geometry, rows: Rows, rs: seq<Request>, qs: seq<SeqV>, idx: seq<nat>, free: seq<nat>)
    requires c.Valid() && c.size == g.blockSize && c.blocks == g.numBlocks && Picks(qs, idx) && |idx| > 0
    requires AllOk(c, rs, qs) && AllHeld(c.m, rows, c.size, qs) && Exclusive(c.blocks, free, qs)
    ensures RowsWaiting(c.m, g, rows, free, qs, idx)
  {
    hide PagedHolds, Exclusive, Apart, Owns, CeilDiv, SeqOk;
    var tables := PickedTables(qs, idx);
    forall k | 0 <= k < |idx|
      ensures Owns(g, free, tables[k])
      ensures |tables[k]| == CeilDiv(|Histories(qs, idx)[k]|, c.size) && 0 <= LastTokens(qs, idx)[k] < c.m.vocab
      ensures PagedHolds(c.m, rows, tables[k], c.size, Histories(qs, idx)[k], c.m.layers)
    {
      OwnsAt(g, free, qs, idx[k]);
      assert qs[idx[k]] in qs;
      RunningShape(c, rs, qs[idx[k]]);
    }
    PickedApart(c.blocks, free, qs, idx);
    FreeOwned(g, free, tables[0]);
  }

  lemma PickedApart(blocks: nat, free: seq<nat>, qs: seq<SeqV>, idx: seq<nat>)
    requires Picks(qs, idx) && Exclusive(blocks, free, qs)
    ensures var tables := PickedTables(qs, idx);
      forall i, j | 0 <= i < |idx| && 0 <= j < |idx| && i != j :: Apart(tables[i], tables[j])
  {
    hide Exclusive, Apart;
    var tables := PickedTables(qs, idx);
    forall i, j | 0 <= i < |idx| && 0 <= j < |idx| && i != j ensures Apart(tables[i], tables[j]) {
      assert idx[i] != idx[j] by { assert if i < j then idx[i] < idx[j] else idx[j] < idx[i]; }
      ApartAt(blocks, free, qs, idx[i], idx[j]);
    }
  }

  lemma FreeOwned(g: Geometry, free: seq<nat>, table: seq<nat>)
    requires Owns(g, free, table)
    ensures NoDuplicates(free) && forall b | b in free :: b < g.numBlocks
  {
  }

  lemma RunningShape(c: Config, rs: seq<Request>, q: SeqV)
    requires c.Valid() && q.id < |rs| && SeqOk(c.m, c.size, rs[q.id], q) && q.state == Running
    ensures |q.tokens| > 0 && |q.table| == CeilDiv(|q.tokens| - 1, c.size) && Fed(q) == q.tokens[..|q.tokens| - 1]
    ensures 0 <= q.tokens[|q.tokens| - 1] < c.m.vocab
  {
    hide OnTrack, GreedyOf, CeilDiv;
  }

  /** A batch row's outcome is what its decoded sequence counts on. */
  lemma DecodedHeld(m: Model, rows: Rows, size: nat, q: SeqV, alive: bool, table: seq<nat>)
    requires m.Valid() && size > 0 && q.state == Running && |q.tokens| > 0
    requires alive ==> PagedHolds(m, rows, table, size, q.tokens, m.layers)
    ensures Held(m, rows, size, Decoded(m, q, alive, table))
  {
    hide PagedHolds;
    var q' := Decoded(m, q, alive, table);
    if q'.state == Finished {
      NothingFed(m, rows, size, q');
    } else {
      assert q'.tokens[..|q.tokens|] == q.tokens;
    }
  }

  /** A sequence outside the batch keeps what it has. */
  lemma OutsiderHeld(m: Model, rows: Rows, rows': Rows, size: nat, q: SeqV, written: seq<seq<nat>>)
    requires size > 0 && Held(m, rows, size, q) && SameOutsideAll(rows, rows', written)
    requires forall k | 0 <= k < |written| :: Apart(q.table, written[k])
    ensures Held(m, rows', size, q)
  {
    forall b | b in q.table ensures Outside(b, written) {
      forall k | 0 <= k < |written| ensures b !in written[k] { assert Apart(q.table, written[k]); }
    }
    assert View(rows, q.table, size, false) == View(rows', q.table, size, false);
    assert View(rows, q.table, size, true) == View(rows', q.table, size, true);
  }

  /** Sequence `i` of the live list is none of the batch rows, so it shares no block
      with what the batch has written. */
  lemma WrittenApart(blocks: nat, free: seq<nat>, live: seq<SeqV>, at: seq<nat>, tables: seq<seq<nat>>,
      alive: seq<bool>, i: nat)
    requires Exclusive(blocks, free, live) && i < |live| && |at| == |tables| == |alive|
    requires forall k | 0 <= k < |at| :: at[k] < |live| && at[k] != i && (alive[k] ==> live[at[k]].table == tables[k])
    ensures forall k | 0 <= k < |at| :: Apart(live[i].table, BatchStore.Written(tables, alive, |at|)[k])
  {
    forall k | 0 <= k < |at| ensures Apart(live[i].table, BatchStore.Written(tables, alive, |at|)[k]) {
      if alive[k] { ApartAt(blocks, free, live, i, at[k]); }
    }
  }

  lemma DecodedTable(m: Model, q: SeqV, table: seq<nat>)
    requires m.Valid() && |q.tokens| > 0
    ensures Decoded(m, q, true, table).table == table
  {
  }

  /** Where the batch rows are in the list of all live sequences. */
  ghost function Shifted(idx: seq<nat>, start: nat): (at: seq<nat>)
    ensures |at| == |idx| && forall k | 0 <= k < |idx| :: at[k] == start + idx[k]
  {
    seq(|idx|, k requires 0 <= k < |idx| => start + idx[k])
  }

  /** What a batched step stored: only tables of its live rows, and in them the next
      token of each. */
  ghost predicate BatchOutcome(m: Model, size: nat, rows: Rows, rows': Rows, free: seq<nat>, qs: seq<SeqV>,
      idx: seq<nat>, logits: seq<Row>)
    requires size > 0 && Picks(qs, idx)
  {
    var b := PassBatch(size, qs, idx, free);
    && SameOutsideAll(rows, rows', BatchStore.Written(b.tables, b.alive, |idx|))
    && RowsStepped(m, rows', b.tables, size, Histories(qs, idx), LastTokens(qs, idx), b.alive, logits)
  }

  ghost predicate BatchWrote(c: Config, rows: Rows, rows': Rows, s: SchedV, idx: seq<nat>, logits: seq<Row>)
    requires c.Valid() && Picks(s.running, idx)
  {
    BatchOutcome(c.m, c.size, rows, rows', s.free, s.running, idx, logits)
  }

  /** Every live table of the batch is the table of its sequence afterwards. */
  lemma TablesAfter(c: Config, s: SchedV, idx: seq<nat>)
    requires c.Valid() && HaveTokens(s.running) && Picks(s.running, idx)
    ensures var s', b := DecodeAll(c, s), PassBatch(c.size, s.running, idx, s.free);
      && s'.free == b.free && s'.prefilling == s.prefilling
        && Decodes(c.m, s.running, idx, s'.running, b.alive, b.tables)
      && forall k | 0 <= k < |idx| && b.alive[k] ::
        (s'.prefilling + s'.running)[Shifted(idx, |s'.prefilling|)[k]].table == b.tables[k]
  {
    hide DecodePass, PassBatch, Decoded;
    BatchIsPass(c.m, c.size, s.running, idx, s.free);
    var s', b := DecodeAll(c, s), PassBatch(c.size, s.running, idx, s.free);
    forall k | 0 <= k < |idx| && b.alive[k]
      ensures (s'.prefilling + s'.running)[Shifted(idx, |s'.prefilling|)[k]].table == b.tables[k]
    {
      DecodedTable(c.m, s.running[idx[k]], b.tables[k]);
    }
  }

  /** A waiting prompt keeps its rows through the batch. */
  lemma PrefillingHeld(c: Config, rows: Rows, rows': Rows, s: SchedV, idx: seq<nat>, logits: seq<Row>)
    requires c.Valid() && Inv(c, s) && HaveTokens(s.running) && Picks(s.running, idx)
    requires AllHeld(c.m, rows, c.size, s.prefilling) && BatchWrote(c, rows, rows', s, idx, logits)
    ensures AllHeld(c.m, rows', c.size, s.prefilling)
  {
    hide Inv, Held, SameOutsideAll, Exclusive, Apart, DecodeAll, Decodes, BatchStore.Written, RowsStepped, PassBatch,
      Picks;
    var s', b := DecodeAll(c, s), PassBatch(c.size, s.running, idx, s.free);
    DecodeAllKeeps(c, s);
    LiveAlone(c, s');
    TablesAfter(c, s, idx);
    PicksInside(s.running, idx);
    DecodesLength(c.m, s.running, idx, s'.running, b.alive, b.tables);
    forall q | q in s.prefilling ensures Held(c.m, rows', c.size, q) {
      var i :| 0 <= i < |s.prefilling| && s.prefilling[i] == q;
      WrittenApart(c.blocks, s'.free, s'.prefilling + s'.running, Shifted(idx, |s'.prefilling|), b.tables, b.alive, i);
      OutsiderHeld(c.m, rows, rows', c.size, q, BatchStore.Written(b.tables, b.alive, |idx|));
    }
  }

  lemma PicksInside(qs: seq<SeqV>, idx: seq<nat>)
    requires Picks(qs, idx)
    ensures forall k | 0 <= k < |idx| :: idx[k] < |qs|
  {
  }

  lemma DecodesLength(m: Model, qs: seq<SeqV>, idx: seq<nat>, after: seq<SeqV>, alive: seq<bool>, tables: seq<seq<nat>>)
    requires m.Valid() && Picks(qs, idx) && |alive| == |tables| == |idx| && Decodes(m, qs, idx, after, alive, tables)
    ensures |after| == |qs|
  {
  }

  /** A batch row holds its next token, or its sequence is finished. */
  lemma PickedHeld(m: Model, size: nat, rows: Rows, qs: seq<SeqV>, idx: seq<nat>, alive: seq<bool>,
      tables: seq<seq<nat>>, logits: seq<Row>, k: nat)
    requires m.Valid() && size > 0 && Picks(qs, idx) && |alive| == |tables| == |idx| && k < |idx|
    requires RowsStepped(m, rows, tables, size, Histories(qs, idx), LastTokens(qs, idx), alive, logits)
    ensures Held(m, rows, size, Decoded(m, qs[idx[k]], alive[k], tables[k]))
  {
    hide PagedHolds, CeilDiv, Decoded, Held;
    var q := qs[idx[k]];
    assert q.tokens == q.tokens[..|q.tokens| - 1] + [q.tokens[|q.tokens| - 1]];
    DecodedHeld(m, rows, size, q, alive[k], tables[k]);
  }

  lemma IdleHeld(c: Config, rows: Rows, rows': Rows, s: SchedV, idx: seq<nat>, logits: seq<Row>, j: nat)
    requires c.Valid() && Inv(c, s) && HaveTokens(s.running) && Picks(s.running, idx) && j < |s.running|
    requires s.running[j].state != Running && BatchWrote(c, rows, rows', s, idx, logits)
    requires AllHeld(c.m, rows, c.size, s.running) && |DecodeAll(c, s).running| == |s.running|
    ensures Held(c.m, rows', c.size, s.running[j])
  {
    hide Inv, Held, SameOutsideAll, Exclusive, Apart, DecodeAll, BatchStore.Written, PassBatch, Decoded, PagedHolds,
      RowsStepped;
    var s', b := DecodeAll(c, s), PassBatch(c.size, s.running, idx, s.free);
    TablesAfter(c, s, idx);
    DecodeAllKeeps(c, s);
    LiveAlone(c, s');
    assert s.running[j] in s.running;
    WrittenApart(c.blocks, s'.free, s'.prefilling + s'.running, Shifted(idx, |s'.prefilling|), b.tables, b.alive,
      |s'.prefilling| + j);
    OutsiderHeld(c.m, rows, rows', c.size, s.running[j], BatchStore.Written(b.tables, b.alive, |idx|));
  }

  lemma RunningHeld(c: Config, rows: Rows, rows': Rows, s: SchedV, idx: seq<nat>, logits: seq<Row>, j: nat)
    requires c.Valid() && Inv(c, s) && HaveTokens(s.running) && Picks(s.running, idx) && j < |s.running|
    requires AllHeld(c.m, rows, c.size, s.running) && BatchWrote(c, rows, rows', s, idx, logits)
    ensures |DecodeAll(c, s).running| == |s.running| && Held(c.m, rows', c.size, DecodeAll(c, s).running[j])
  {
    hide Inv, Held, SameOutsideAll, DecodeAll, BatchStore.Written, PassBatch, Decoded, RowsStepped, AllHeld;
    var b := PassBatch(c.size, s.running, idx, s.free);
    TablesAfter(c, s, idx);
    if s.running[j].state == Running {
      assert j in idx;
      var k :| 0 <= k < |idx| && idx[k] == j;
      PickedHeld(c.m, c.size, rows', s.running, idx, b.alive, b.tables, logits, k);
    } else {
      IdleHeld(c, rows, rows', s, idx, logits, j);
    }
  }

  /** After a batched step every live sequence still has what it counts on. */
  lemma BatchHeld(c: Config, rows: Rows, rows': Rows, s: SchedV, idx: seq<nat>, logits: seq<Row>)
    requires c.Valid() && Inv(c, s) && HaveTokens(s.running) && Picks(s.running, idx)
    requires AllHeld(c.m, rows, c.size, s.prefilling) && AllHeld(c.m, rows, c.size, s.running)
    requires BatchWrote(c, rows, rows', s, idx, logits)
    ensures var s' := DecodeAll(c, s);
      AllHeld(c.m, rows', c.size, s'.prefilling) && AllHeld(c.m, rows', c.size, s'.running)
  {
    hide Inv, Held, BatchWrote, DecodeAll, Picks;
    var s' := DecodeAll(c, s);
    DecodeAllKeeps(c, s);
    PrefillingHeld(c, rows, rows', s, idx, logits);
    forall q | q in s'.running ensures Held(c.m, rows', c.size, q) {
      var j :| 0 <= j < |s'.running| && s'.running[j] == q;
      DecodeAllLength(c, s);
      RunningHeld(c, rows, rows', s, idx, logits, j);
    }
  }

  lemma DecodeAllLength(c: Config, s: SchedV)
    requires c.Valid() && HaveTokens(s.running)
    ensures |DecodeAll(c, s).running| == |s.running|
  {
  }
}
