/** Whole runs of several paged caches on one pool, against private contiguous caches
    given the same writes. */
module PagedRuns {
  import opened Numeric
  import opened Layout
  import opened PagedStore
  import opened Recall
  import opened BatchStore

  /** What one cache is asked to do; caches take turns in any order. */
  datatype Op = Write(who: nat, layer: nat, pos: nat, k: Row, v: Row) | Release(who: nat)

  datatype Shared = Shared(free: seq<nat>, tables: seq<seq<nat>>, rows: Rows)

  /** A private contiguous cache: the places written since it was last emptied. */
  datatype Private = Private(ks: History, vs: History)

  /** A cache exists for the call, and a write is inside its table or at the next block. */
  ghost predicate Legal(g: Geometry, s: Shared, op: Op)
    requires g.Valid()
  {
    && op.who < |s.tables|
    && (op.Write? ==>
      op.layer < g.numLayers && op.pos / g.blockSize <= |s.tables[op.who]| && |op.k| == |op.v| == g.PerToken())
  }

  ghost predicate Stores(g: Geometry, s: Shared, op: Op)
    requires g.Valid() && Legal(g, s, op) && op.Write?
  {
    TakeBlock(s.free, s.tables[op.who], op.pos, g.blockSize).ok
  }

  ghost function Apply(g: Geometry, s: Shared, op: Op): (s': Shared)
    requires g.Valid() && Legal(g, s, op)
    ensures |s'.tables| == |s.tables|
  {
    match op
    case Write(who, layer, pos, k, v) =>
      var t := TakeBlock(s.free, s.tables[who], pos, g.blockSize);
      if t.ok then Shared(t.free, s.tables[who := t.table], StoreToken(s.rows, t.table, g.blockSize, layer, pos, k, v))
        else s
    case Release(who) =>
      Shared(s.free + s.tables[who], s.tables[who := []], s.rows)
  }

  /** The same call on the private caches; a write the pool refused is not made. */
  ghost function ApplyPrivate(ps: seq<Private>, op: Op, stored: bool): (ps': seq<Private>)
    requires op.who < |ps|
    ensures |ps'| == |ps|
  {
    match op
    case Write(who, layer, pos, k, v) =>
      if stored then ps[who := Private(ps[who].ks[Loc(layer, pos) := k], ps[who].vs[Loc(layer, pos) := v])] else ps
    case Release(who) => ps[who := Private(imap[], imap[])]
  }

  ghost predicate AllLegal(g: Geometry, s: Shared, ops: seq<Op>)
    requires g.Valid()
    decreases |ops|
  {
    |ops| == 0 || (Legal(g, s, ops[0]) && AllLegal(g, Apply(g, s, ops[0]), ops[1..]))
  }

  ghost function Run(g: Geometry, s: Shared, ops: seq<Op>): (s': Shared)
    requires g.Valid() && AllLegal(g, s, ops)
    ensures |s'.tables| == |s.tables|
    decreases |ops|
  {
    if |ops| == 0 then s else Run(g, Apply(g, s, ops[0]), ops[1..])
  }

  ghost function RunPrivate(g: Geometry, s: Shared, ps: seq<Private>, ops: seq<Op>): (ps': seq<Private>)
    requires g.Valid() && AllLegal(g, s, ops) && |ps| == |s.tables|
    ensures |ps'| == |ps|
    decreases |ops|
  {
    if |ops| == 0 then ps
    else RunPrivate(g, Apply(g, s, ops[0]), ApplyPrivate(ps, ops[0], ops[0].Write? && Stores(g, s, ops[0])), ops[1..])
  }

  /** Everything the private history knows, the shared one returns. */
  ghost predicate Knows(shared: History, own: History) {
    forall at: Loc | at in own :: at in shared && shared[at] == own[at]
  }

  ghost predicate Agree(g: Geometry, s: Shared, ps: seq<Private>)
    requires g.Valid()
  {
    && |ps| == |s.tables| && Disjoint(g, s.free, s.tables)
    && forall i | 0 <= i < |ps| :: AgreeAt(g, s, i, ps[i])
  }

  ghost predicate AgreeAt(g: Geometry, s: Shared, i: nat, p: Private)
    requires g.Valid() && i < |s.tables|
  {
    Knows(View(s.rows, s.tables[i], g.blockSize, false), p.ks)
      && Knows(View(s.rows, s.tables[i], g.blockSize, true), p.vs)
  }

  lemma KnowsWritten(before: History, after: History, own: History, at: Loc, row: Row)
    requires Knows(before, own) && PrivateWrite(before, after, at, row)
    ensures Knows(after, own[at := row])
  {
  }

  lemma WriteAgrees(g: Geometry, s: Shared, ps: seq<Private>, op: Op)
    requires g.Valid() && Agree(g, s, ps) && Legal(g, s, op) && op.Write?
    ensures Agree(g, Apply(g, s, op), ApplyPrivate(ps, op, Stores(g, s, op)))
  {
    hide View, StoreToken, Knows, NoDuplicates, SameOutside, PrivateWrite;
    var t := TakeBlock(s.free, s.tables[op.who], op.pos, g.blockSize);
    if t.ok {
      var s' := Apply(g, s, op);
      RowTakes(g, s.free, s.tables, op.who, op.pos);
      WriterAgrees(g, s, ps[op.who], op);
      forall j | 0 <= j < |ps| && j != op.who ensures AgreeAt(g, s', j, ps[j]) {
        StoreTouchesOnly(s.rows, t.table, g.blockSize, op.layer, op.pos, op.k, op.v);
        ViewFrame(s.rows, s'.rows, t.table, s.tables[j], g.blockSize);
      }
    }
  }

  /** The cache that wrote sees its write and what it had. */
  lemma WriterAgrees(g: Geometry, s: Shared, p: Private, op: Op)
    requires g.Valid() && Legal(g, s, op) && op.Write? && Disjoint(g, s.free, s.tables) && Stores(g, s, op)
    requires AgreeAt(g, s, op.who, p)
    ensures AgreeAt(g, Apply(g, s, op), op.who,
      Private(p.ks[Loc(op.layer, op.pos) := op.k], p.vs[Loc(op.layer, op.pos) := op.v]))
  {
    hide View, StoreToken, Knows, NoDuplicates, PrivateWrite;
    var t := TakeBlock(s.free, s.tables[op.who], op.pos, g.blockSize);
    var s' := Apply(g, s, op);
    TakeKeepsOwned(g, s.free, s.tables[op.who], op.pos);
    StoreIsPrivateWrite(s.rows, s.tables[op.who], t.table, g.blockSize, op.layer, op.pos, op.k, op.v);
    KnowsWritten(View(s.rows, s.tables[op.who], g.blockSize, false), View(s'.rows, t.table, g.blockSize, false), p.ks,
      Loc(op.layer, op.pos), op.k);
    KnowsWritten(View(s.rows, s.tables[op.who], g.blockSize, true), View(s'.rows, t.table, g.blockSize, true), p.vs,
      Loc(op.layer, op.pos), op.v);
  }

  lemma ReleaseAgrees(g: Geometry, s: Shared, ps: seq<Private>, op: Op)
    requires g.Valid() && Agree(g, s, ps) && Legal(g, s, op) && op.Release?
    ensures Agree(g, Apply(g, s, op), ApplyPrivate(ps, op, false))
  {
    hide View;
    ReleaseDisjoint(g, s.free, s.tables, op.who);
  }

  lemma ReleaseDisjoint(g: Geometry, free: seq<nat>, tables: seq<seq<nat>>, i: nat)
    requires Disjoint(g, free, tables) && i < |tables|
    ensures Disjoint(g, free + tables[i], tables[i := []])
  {
    ReleaseKeepsOwned(g, free, tables[i]);
    forall j | 0 <= j < |tables| && j != i ensures Owns(g, free + tables[i], tables[j]) {
      assert Owns(g, free, tables[j]) && Apart(tables[j], tables[i]);
    }
  }

  lemma {:induction false} RunAgrees(g: Geometry, s: Shared, ps: seq<Private>, ops: seq<Op>)
    requires g.Valid() && AllLegal(g, s, ops) && Agree(g, s, ps)
    ensures Agree(g, Run(g, s, ops), RunPrivate(g, s, ps, ops))
    decreases |ops|
  {
    hide Agree, Apply, ApplyPrivate, Stores;
    if |ops| == 0 {
    } else {
      AgreeLength(g, s, ps);
      var stored := ops[0].Write? && Stores(g, s, ops[0]);
      if ops[0].Write? { WriteAgrees(g, s, ps, ops[0]); } else { ReleaseAgrees(g, s, ps, ops[0]); }
      AgreeLength(g, Apply(g, s, ops[0]), ApplyPrivate(ps, ops[0], stored));
      RunAgrees(g, Apply(g, s, ops[0]), ApplyPrivate(ps, ops[0], stored), ops[1..]);
    }
  }

  lemma AgreeLength(g: Geometry, s: Shared, ps: seq<Private>)
    requires g.Valid() && Agree(g, s, ps)
    ensures |ps| == |s.tables|
  {
  }

  /** An empty pool with `n` empty caches. */
  ghost predicate Fresh(g: Geometry, s: Shared, n: nat) {
    && g.Valid() && NoDuplicates(s.free) && (forall b | b in s.free :: b < g.numBlocks)
    && |s.tables| == n && forall i | 0 <= i < n :: s.tables[i] == []
  }

  /** From an empty pool, whatever the caches do in whatever order: a gather over
      positions a private cache has been given succeeds and returns that cache's rows. */
  lemma SharedPoolIsPrivate(g: Geometry, s: Shared, n: nat, ops: seq<Op>, i: nat, layer: nat, count: nat, value: bool,
      buf: seq<Float32>)
    requires Fresh(g, s, n) && AllLegal(g, s, ops) && i < n && count * g.PerToken() <= |buf|
    requires
      var own := RunPrivate(g, s, seq(n, _ => Private(imap[], imap[])), ops)[i];
      forall p: nat | p < count :: Loc(layer, p) in (if value then own.vs else own.ks)
    requires var end := Run(g, s, ops);
      (forall p: nat | p < count :: p / g.blockSize < |end.tables[i]|) ==>
        GatheredFrom(end.rows, end.tables[i], g.blockSize, layer, count, buf, g.PerToken(), value)
    ensures
      var end, own := Run(g, s, ops), RunPrivate(g, s, seq(n, _ => Private(imap[], imap[])), ops)[i];
      && (forall p: nat | p < count :: p / g.blockSize < |end.tables[i]|)
      && forall p: nat | p < count ::
        RowsOf(buf, count, g.PerToken())[p] == (if value then own.vs else own.ks)[Loc(layer, p)]
  {
    hide Run, RunPrivate, AllLegal;
    var ps := seq(n, _ => Private(imap[], imap[]));
    FreshAgrees(g, s, n);
    RunAgrees(g, s, ps, ops);
    var end, own := Run(g, s, ops), RunPrivate(g, s, ps, ops)[i];
    assert AgreeAt(g, end, i, own);
    GatherKnows(g, end, i, own, layer, count, value, buf);
  }

  lemma FreshAgrees(g: Geometry, s: Shared, n: nat)
    requires Fresh(g, s, n)
    ensures Agree(g, s, seq(n, _ => Private(imap[], imap[])))
  {
  }

  lemma GatherKnows(g: Geometry, s: Shared, i: nat, own: Private, layer: nat, count: nat, value: bool,
      buf: seq<Float32>)
    requires g.Valid() && i < |s.tables| && AgreeAt(g, s, i, own) && count * g.PerToken() <= |buf|
    requires forall p: nat | p < count :: Loc(layer, p) in (if value then own.vs else own.ks)
    requires (forall p: nat | p < count :: p / g.blockSize < |s.tables[i]|) ==>
      GatheredFrom(s.rows, s.tables[i], g.blockSize, layer, count, buf, g.PerToken(), value)
    ensures forall p: nat | p < count :: p / g.blockSize < |s.tables[i]|
    ensures forall p: nat | p < count ::
      RowsOf(buf, count, g.PerToken())[p] == (if value then own.vs else own.ks)[Loc(layer, p)]
  {
    var view := View(s.rows, s.tables[i], g.blockSize, value);
    forall p: nat | p < count ensures p / g.blockSize < |s.tables[i]| {
      assert Loc(layer, p) in view;
    }
    forall p: nat | p < count
      ensures RowsOf(buf, count, g.PerToken())[p] == (if value then own.vs else own.ks)[Loc(layer, p)] {
      assert Loc(layer, p) in view;
      RowsOfAt(buf, count, g.PerToken(), p);
      assert SlotOf(s.tables[i], g.blockSize, layer, p, value) in s.rows;
    }
  }
}
