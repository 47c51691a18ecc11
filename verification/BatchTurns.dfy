/** A batched decode step is the decode pass: taking blocks row by row inside the
    batch gives every running sequence what its own turn, in list order, would. */
module BatchTurns {
  import opened Meaning
  import opened PagedStore
  import opened BatchStore
  import opened SchedSpec

  /** `idx` lists the running sequences of `qs` in order. */
  ghost predicate Picks(qs: seq<SeqV>, idx: seq<nat>) {
    && (forall k | 0 <= k < |idx| :: idx[k] < |qs| && qs[idx[k]].state == Running && |qs[idx[k]].tokens| > 0)
    && (forall k, l | 0 <= k < l < |idx| :: idx[k] < idx[l])
    && (forall j | 0 <= j < |qs| && qs[j].state == Running :: j in idx)
  }

  ghost function PickedTables(qs: seq<SeqV>, idx: seq<nat>): (ts: seq<seq<nat>>)
    requires Picks(qs, idx)
    ensures |ts| == |idx| && forall k | 0 <= k < |idx| :: ts[k] == qs[idx[k]].table
  {
    seq(|idx|, k requires 0 <= k < |idx| => qs[idx[k]].table)
  }

  /** The position of each picked sequence's last token. */
  ghost function LastPositions(qs: seq<SeqV>, idx: seq<nat>): (ps: seq<nat>)
    requires Picks(qs, idx)
    ensures |ps| == |idx| && forall k | 0 <= k < |idx| :: ps[k] == |qs[idx[k]].tokens| - 1
  {
    seq(|idx|, k requires 0 <= k < |idx| => |qs[idx[k]].tokens| - 1)
  }

  ghost function PassBatch(size: nat, qs: seq<SeqV>, idx: seq<nat>, free: seq<nat>): (b: Batch)
    requires size > 0 && Picks(qs, idx)
    ensures |b.tables| == |b.alive| == |idx|
  {
    BatchTake(Batch(free, PickedTables(qs, idx), AllAlive(|idx|)), LastPositions(qs, idx), size, |idx|)
  }

  /** What a row's fate in the batch makes of its sequence. */
  ghost function Decoded(m: Model, q: SeqV, alive: bool, table: seq<nat>): SeqV
    requires m.Valid() && |q.tokens| > 0
  {
    if alive then Sampled(m, q.(table := table)) else q.Finish(Capacity)
  }

  lemma {:induction false} DecodePassSnoc(m: Model, size: nat, qs: seq<SeqV>, q: SeqV, free: seq<nat>)
    requires m.Valid() && size > 0 && HaveTokens(qs) && |q.tokens| > 0
    ensures HaveTokens(qs + [q])
    ensures var (a, mid) := DecodePass(m, size, qs, free);
      var (q', free') := DecodeTurn(m, size, q, mid);
      DecodePass(m, size, qs + [q], free) == (a + [q'], free')
    decreases |qs|
  {
    hide DecodeTurn;
    if |qs| == 0 {
      assert qs + [q] == [q];
      var (q', free') := DecodeTurn(m, size, q, free);
      assert DecodePass(m, size, [q][1..], free') == ([], free');
      assert [q'] + [] == [q'] == [] + [q'];
    } else {
      var (h, mid) := DecodeTurn(m, size, qs[0], free);
      DecodePassSnoc(m, size, qs[1..], q, mid);
      assert (qs + [q])[1..] == qs[1..] + [q];
      var (a, last) := DecodePass(m, size, qs[1..], mid);
      var (q', free') := DecodeTurn(m, size, q, last);
      assert [h] + (a + [q']) == ([h] + a) + [q'];
    }
  }

  /** Rows past `n` have no say in what the first `n` rows take. */
  lemma {:induction false} TakeFirst(start: Batch, positions: seq<nat>, size: nat, k: nat, n: nat)
    requires size > 0 && |positions| == |start.tables| == |start.alive| && n <= k <= |positions|
    ensures
      var whole := BatchTake(start, positions, size, n);
      BatchTake(Batch(start.free, start.tables[..k], start.alive[..k]), positions[..k], size, n)
        == Batch(whole.free, whole.tables[..k], whole.alive[..k])
  {
    hide TakeBlock;
    if n == 0 {
    } else {
      TakeFirst(start, positions, size, k, n - 1);
      var b := BatchTake(start, positions, size, n - 1);
      if b.alive[n - 1] {
        var t := TakeBlock(b.free, b.tables[n - 1], positions[n - 1], size);
        assert b.tables[n - 1 := t.table][..k] == b.tables[..k][n - 1 := t.table];
        assert b.alive[n - 1 := t.ok][..k] == b.alive[..k][n - 1 := t.ok];
      }
    }
  }

  lemma PicksSome(qs: seq<SeqV>, idx: seq<nat>)
    requires Picks(qs, idx) && |idx| > 0
    ensures |qs| > 0
  {
    assert idx[0] < |qs|;
  }

  lemma LastPick(qs: seq<SeqV>, idx: seq<nat>)
    requires Picks(qs, idx) && |qs| > 0
    ensures qs[|qs| - 1].state == Running ==>
      |idx| > 0 && idx[|idx| - 1] == |qs| - 1 && Picks(qs[..|qs| - 1], idx[..|idx| - 1])
    ensures qs[|qs| - 1].state != Running ==> Picks(qs[..|qs| - 1], idx)
  {
    var front := qs[..|qs| - 1];
    if qs[|qs| - 1].state == Running {
      assert |qs| - 1 in idx;
      var k :| 0 <= k < |idx| && idx[k] == |qs| - 1;
      assert idx[k] <= idx[|idx| - 1] < |qs|;
      assert k == |idx| - 1;
      forall j | 0 <= j < |front| && front[j].state == Running ensures j in idx[..k] {
        assert qs[j] == front[j] && j in idx;
      }
    } else {
      forall j | 0 <= j < |front| && front[j].state == Running ensures j in idx {
        assert qs[j] == front[j];
      }
    }
  }

  /** `after` is `qs` with every picked sequence decoded as its batch row says. */
  ghost predicate Decodes(m: Model, qs: seq<SeqV>, idx: seq<nat>, after: seq<SeqV>, alive: seq<bool>,
      tables: seq<seq<nat>>)
    requires m.Valid() && Picks(qs, idx) && |alive| == |tables| == |idx|
  {
    && |after| == |qs|
    && (forall j | 0 <= j < |qs| && qs[j].state != Running :: after[j] == qs[j])
    && (forall k | 0 <= k < |idx| :: after[idx[k]] == Decoded(m, qs[idx[k]], alive[k], tables[k]))
  }

  lemma DecodesSkip(m: Model, qs: seq<SeqV>, idx: seq<nat>, after: seq<SeqV>, alive: seq<bool>, tables: seq<seq<nat>>)
    requires m.Valid() && |qs| > 0 && Picks(qs, idx) && Picks(qs[..|qs| - 1], idx) && |alive| == |tables| == |idx|
    requires Decodes(m, qs[..|qs| - 1], idx, after, alive, tables)
    ensures Decodes(m, qs, idx, after + [qs[|qs| - 1]], alive, tables)
  {
    hide Decoded, Model.Valid;
  }

  lemma DecodesOne(m: Model, qs: seq<SeqV>, idx: seq<nat>, after: seq<SeqV>, alive: seq<bool>, tables: seq<seq<nat>>,
      before: seq<bool>, tablesBefore: seq<seq<nat>>)
    requires m.Valid() && |qs| > 0 && Picks(qs, idx) && |idx| > 0 && idx[|idx| - 1] == |qs| - 1
    requires Picks(qs[..|qs| - 1], idx[..|idx| - 1])
    requires |alive| == |tables| == |idx| && |before| == |tablesBefore| == |idx| - 1
    requires forall j | 0 <= j < |before| :: alive[j] == before[j] && tables[j] == tablesBefore[j]
    requires Decodes(m, qs[..|qs| - 1], idx[..|idx| - 1], after, before, tablesBefore)
    ensures Decodes(m, qs, idx, after + [Decoded(m, qs[|qs| - 1], alive[|idx| - 1], tables[|idx| - 1])], alive, tables)
  {
    hide Decoded, Model.Valid;
    var front, all := idx[..|idx| - 1], after + [Decoded(m, qs[|qs| - 1], alive[|idx| - 1], tables[|idx| - 1])];
    forall k | 0 <= k < |idx| ensures all[idx[k]] == Decoded(m, qs[idx[k]], alive[k], tables[k]) {
      if k < |front| {
        assert front[k] == idx[k] && after[front[k]] == Decoded(m, qs[front[k]], before[k], tablesBefore[k]);
      }
    }
  }

  ghost predicate Agrees(m: Model, size: nat, qs: seq<SeqV>, idx: seq<nat>, free: seq<nat>)
    requires m.Valid() && size > 0 && HaveTokens(qs) && Picks(qs, idx)
  {
    var pass, b := DecodePass(m, size, qs, free), PassBatch(size, qs, idx, free);
    pass.1 == b.free && Decodes(m, qs, idx, pass.0, b.alive, b.tables)
  }

  lemma AgreesSkip(m: Model, size: nat, qs: seq<SeqV>, idx: seq<nat>, free: seq<nat>)
    requires m.Valid() && size > 0 && |qs| > 0 && HaveTokens(qs) && HaveTokens(qs[..|qs| - 1])
    requires Picks(qs, idx) && Picks(qs[..|qs| - 1], idx) && qs[|qs| - 1].state != Running
    requires Agrees(m, size, qs[..|qs| - 1], idx, free)
    ensures Agrees(m, size, qs, idx, free)
  {
    hide BatchTake, Sampled, TakeBlock, DecodePass, PassBatch, Decoded, DecodeTurn, Decodes, Model.Valid, Picks;
    var n := |qs| - 1;
    var pass := DecodePass(m, size, qs[..n], free);
    assert qs == qs[..n] + [qs[n]];
    DecodePassSnoc(m, size, qs[..n], qs[n], free);
    LastIdles(m, size, qs, idx, free, pass.1);
    var b := PassBatch(size, qs, idx, free);
    DecodesSkip(m, qs, idx, pass.0, b.alive, b.tables);
  }

  lemma AgreesOne(m: Model, size: nat, qs: seq<SeqV>, idx: seq<nat>, free: seq<nat>)
    requires m.Valid() && size > 0 && |qs| > 0 && HaveTokens(qs) && HaveTokens(qs[..|qs| - 1])
    requires Picks(qs, idx) && |idx| > 0 && idx[|idx| - 1] == |qs| - 1 && Picks(qs[..|qs| - 1], idx[..|idx| - 1])
    requires Agrees(m, size, qs[..|qs| - 1], idx[..|idx| - 1], free)
    ensures Agrees(m, size, qs, idx, free)
  {
    hide BatchTake, Sampled, TakeBlock, DecodePass, PassBatch, Decoded, DecodeTurn, Decodes, Model.Valid, Picks;
    var n, front := |qs| - 1, idx[..|idx| - 1];
    var pass := DecodePass(m, size, qs[..n], free);
    assert qs == qs[..n] + [qs[n]];
    DecodePassSnoc(m, size, qs[..n], qs[n], free);
    LastRow(m, size, qs, idx, free);
    var a, b := PassBatch(size, qs[..n], front, free), PassBatch(size, qs, idx, free);
    DecodesOne(m, qs, idx, pass.0, b.alive, b.tables, a.alive, a.tables);
  }

  lemma AgreesNone(m: Model, size: nat, idx: seq<nat>, free: seq<nat>)
    requires m.Valid() && size > 0 && Picks([], idx)
    ensures HaveTokens([]) && Agrees(m, size, [], idx, free)
  {
    hide BatchTake, PassBatch, Model.Valid, Decoded;
    NothingPicked(size, idx, free);
    assert DecodePass(m, size, [], free) == ([], free);
  }

  /** The pass and the batch agree on every sequence and on the free list. */
  lemma {:induction false} BatchIsPass(m: Model, size: nat, qs: seq<SeqV>, idx: seq<nat>, free: seq<nat>)
    requires m.Valid() && size > 0 && HaveTokens(qs) && Picks(qs, idx)
    ensures Agrees(m, size, qs, idx, free)
    decreases |qs|
  {
    hide Picks, Agrees, Model.Valid;
    if |qs| > 0 {
      LastPick(qs, idx);
      if qs[|qs| - 1].state == Running {
        BatchIsPass(m, size, qs[..|qs| - 1], idx[..|idx| - 1], free);
        AgreesOne(m, size, qs, idx, free);
      } else {
        BatchIsPass(m, size, qs[..|qs| - 1], idx, free);
        AgreesSkip(m, size, qs, idx, free);
      }
    } else {
      assert qs == [];
      AgreesNone(m, size, idx, free);
    }
  }

  lemma NothingPicked(size: nat, idx: seq<nat>, free: seq<nat>)
    requires size > 0 && Picks([], idx)
    ensures idx == [] && PassBatch(size, [], idx, free).free == free
    ensures PassBatch(size, [], idx, free).alive == []
  {
    if |idx| > 0 {
      PicksSome([], idx);
      assert false;
    }
  }

  lemma LastIdles(m: Model, size: nat, qs: seq<SeqV>, idx: seq<nat>, free: seq<nat>, mid: seq<nat>)
    requires m.Valid() && size > 0 && |qs| > 0 && Picks(qs, idx) && Picks(qs[..|qs| - 1], idx)
    requires qs[|qs| - 1].state != Running && |qs[|qs| - 1].tokens| > 0
    ensures PassBatch(size, qs, idx, free) == PassBatch(size, qs[..|qs| - 1], idx, free)
    ensures DecodeTurn(m, size, qs[|qs| - 1], mid) == (qs[|qs| - 1], mid)
  {
    hide BatchTake;
    assert PickedTables(qs, idx) == PickedTables(qs[..|qs| - 1], idx);
    assert LastPositions(qs, idx) == LastPositions(qs[..|qs| - 1], idx);
  }

  /** The batch without its last row, and that row's turn. */
  lemma LastRow(m: Model, size: nat, qs: seq<SeqV>, idx: seq<nat>, free: seq<nat>)
    requires m.Valid() && size > 0 && |qs| > 0 && Picks(qs, idx) && |idx| > 0 && idx[|idx| - 1] == |qs| - 1
    requires Picks(qs[..|qs| - 1], idx[..|idx| - 1])
    ensures
      var q, k := qs[|qs| - 1], |idx| - 1;
      var a, b := PassBatch(size, qs[..|qs| - 1], idx[..k], free), PassBatch(size, qs, idx, free);
      && (forall j | 0 <= j < k :: b.tables[j] == a.tables[j] && b.alive[j] == a.alive[j])
      && DecodeTurn(m, size, q, a.free) == (Decoded(m, q, b.alive[k], b.tables[k]), b.free)
  {
    hide Sampled, BatchTake, TakeBlock;
    var q, k := qs[|qs| - 1], |idx| - 1;
    BatchWithoutLast(size, qs, idx, free);
    var start := Batch(free, PickedTables(qs, idx), AllAlive(|idx|));
    var before := BatchTake(start, LastPositions(qs, idx), size, k);
    LastTake(start, LastPositions(qs, idx), size);
  }

  lemma LastTake(start: Batch, positions: seq<nat>, size: nat)
    requires size > 0 && |positions| == |start.tables| == |start.alive| > 0 && start.alive[|positions| - 1]
    ensures
      var k := |positions| - 1;
      var before, after := BatchTake(start, positions, size, k), BatchTake(start, positions, size, k + 1);
      var t := TakeBlock(before.free, start.tables[k], positions[k], size);
      && after.free == t.free && after.alive[k] == t.ok && after.tables[k] == t.table
      && (forall j | 0 <= j < k :: after.tables[j] == before.tables[j] && after.alive[j] == before.alive[j])
  {
    hide TakeBlock;
  }

  lemma BatchWithoutLast(size: nat, qs: seq<SeqV>, idx: seq<nat>, free: seq<nat>)
    requires size > 0 && |qs| > 0 && Picks(qs, idx) && |idx| > 0 && idx[|idx| - 1] == |qs| - 1
    requires Picks(qs[..|qs| - 1], idx[..|idx| - 1])
    ensures
      var k := |idx| - 1;
      var a := PassBatch(size, qs[..|qs| - 1], idx[..k], free);
      var before := BatchTake(Batch(free, PickedTables(qs, idx), AllAlive(|idx|)), LastPositions(qs, idx), size, k);
      a == Batch(before.free, before.tables[..k], before.alive[..k])
  {
    hide BatchTake, TakeBlock;
    var k := |idx| - 1;
    var start, positions := Batch(free, PickedTables(qs, idx), AllAlive(|idx|)), LastPositions(qs, idx);
    TakeFirst(start, positions, size, k, k);
    assert start.tables[..k] == PickedTables(qs[..|qs| - 1], idx[..k]);
    assert positions[..k] == LastPositions(qs[..|qs| - 1], idx[..k]);
    assert start.alive[..k] == AllAlive(k);
  }

  // ---- Decoding the rows one after the other ----

  /** The rows before `n` are decoded; the rest have their new tables only. */
  ghost predicate DecodesUpTo(m: Model, qs: seq<SeqV>, idx: seq<nat>, cur: seq<SeqV>, alive: seq<bool>,
      tables: seq<seq<nat>>, n: nat)
    requires m.Valid() && Picks(qs, idx) && |alive| == |tables| == |idx|
  {
    && |cur| == |qs|
    && (forall j | 0 <= j < |qs| && qs[j].state != Running :: cur[j] == qs[j])
    && (forall k | 0 <= k < |idx| ::
          cur[idx[k]] == if k < n then Decoded(m, qs[idx[k]], alive[k], tables[k]) else qs[idx[k]].(table := tables[k]))
  }

  lemma DecodesNext(m: Model, qs: seq<SeqV>, idx: seq<nat>, cur: seq<SeqV>, alive: seq<bool>, tables: seq<seq<nat>>,
      n: nat, q: SeqV)
    requires m.Valid() && Picks(qs, idx) && |alive| == |tables| == |idx| && n < |idx|
    requires DecodesUpTo(m, qs, idx, cur, alive, tables, n) && q == Decoded(m, qs[idx[n]], alive[n], tables[n])
    ensures DecodesUpTo(m, qs, idx, cur[idx[n] := q], alive, tables, n + 1)
  {
    hide Decoded, Model.Valid;
    var cur' := cur[idx[n] := q];
    forall k | 0 <= k < |idx|
      ensures cur'[idx[k]] == if k < n + 1 then Decoded(m, qs[idx[k]], alive[k], tables[k])
        else qs[idx[k]].(table := tables[k])
    {
      PickedOnce(qs, idx, k, n);
    }
  }

  lemma UpToAt(m: Model, qs: seq<SeqV>, idx: seq<nat>, cur: seq<SeqV>, alive: seq<bool>, tables: seq<seq<nat>>, n: nat)
    requires m.Valid() && Picks(qs, idx) && |alive| == |tables| == |idx| && n < |idx|
    requires DecodesUpTo(m, qs, idx, cur, alive, tables, n)
    ensures |cur| == |qs| && cur[idx[n]] == qs[idx[n]].(table := tables[n])
  {
    hide Decoded, Model.Valid;
  }

  /** When every row is decoded the list is the list after the pass. */
  lemma DecodesAll(m: Model, qs: seq<SeqV>, idx: seq<nat>, cur: seq<SeqV>, after: seq<SeqV>, alive: seq<bool>,
      tables: seq<seq<nat>>)
    requires m.Valid() && Picks(qs, idx) && |alive| == |tables| == |idx|
    requires DecodesUpTo(m, qs, idx, cur, alive, tables, |idx|) && Decodes(m, qs, idx, after, alive, tables)
    ensures cur == after
  {
    hide Decoded, Model.Valid;
    forall j | 0 <= j < |qs| ensures cur[j] == after[j] {
      if qs[j].state == Running {
        var k :| 0 <= k < |idx| && idx[k] == j;
      }
    }
  }

  /** The batch's new tables, before any row is decoded. */
  ghost function Retabled(qs: seq<SeqV>, idx: seq<nat>, tables: seq<seq<nat>>): (cur: seq<SeqV>)
    requires Picks(qs, idx) && |tables| == |idx|
    ensures |cur| == |qs|
    ensures forall j | 0 <= j < |qs| :: cur[j] == qs[j].(table := cur[j].table)
  {
    seq(|qs|, j requires 0 <= j < |qs| => if j in idx then qs[j].(table := tables[PickOf(qs, idx, j)]) else qs[j])
  }

  ghost function PickOf(qs: seq<SeqV>, idx: seq<nat>, j: nat): (k: nat)
    requires Picks(qs, idx) && j in idx
    ensures k < |idx| && idx[k] == j
  {
    var k :| 0 <= k < |idx| && idx[k] == j; k
  }

  lemma PickedTwice(qs: seq<SeqV>, idx: seq<nat>, k: nat, l: nat)
    requires Picks(qs, idx) && k < |idx| && l < |idx| && k != l
    ensures idx[k] != idx[l]
  {
    assert if k < l then idx[k] < idx[l] else idx[l] < idx[k];
  }

  lemma PickedOnce(qs: seq<SeqV>, idx: seq<nat>, k: nat, l: nat)
    requires Picks(qs, idx) && k < |idx| && l < |idx|
    ensures idx[k] == idx[l] ==> k == l
  {
    if k != l { PickedTwice(qs, idx, k, l); }
  }

  lemma NotPicked(qs: seq<SeqV>, idx: seq<nat>, j: nat)
    requires Picks(qs, idx) && j < |qs| && qs[j].state != Running
    ensures j !in idx
  {
    forall k | 0 <= k < |idx| ensures idx[k] != j {
      assert qs[idx[k]].state == Running;
    }
  }

  lemma RetabledAt(m: Model, qs: seq<SeqV>, idx: seq<nat>, alive: seq<bool>, tables: seq<seq<nat>>)
    requires m.Valid() && Picks(qs, idx) && |alive| == |tables| == |idx|
    ensures DecodesUpTo(m, qs, idx, Retabled(qs, idx, tables), alive, tables, 0)
  {
    hide Decoded, Model.Valid;
    var cur := Retabled(qs, idx, tables);
    forall k | 0 <= k < |idx| ensures cur[idx[k]] == qs[idx[k]].(table := tables[k]) {
      var l := PickOf(qs, idx, idx[k]);
      PickedOnce(qs, idx, k, l);
    }
    forall j | 0 <= j < |qs| && qs[j].state != Running ensures cur[j] == qs[j] {
      NotPicked(qs, idx, j);
    }
  }

  /** A row that got no block has the table it had. */
  lemma DeadTable(size: nat, qs: seq<SeqV>, idx: seq<nat>, free: seq<nat>, k: nat)
    requires size > 0 && Picks(qs, idx) && k < |idx|
    ensures var b := PassBatch(size, qs, idx, free); !b.alive[k] ==> b.tables[k] == qs[idx[k]].table
  {
    hide BatchTake;
    BatchTakeShape(Batch(free, PickedTables(qs, idx), AllAlive(|idx|)), LastPositions(qs, idx), size, |idx|);
  }
}
