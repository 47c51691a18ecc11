/** When a cache holds a token sequence: every row it would return is the row
    the cache-free meaning computes from the tokens. */
module Recall {
  import opened Numeric
  import opened Meaning
  import opened PagedStore

  /** Rows of every position but the last, and of the last position below layer `l`. */
  ghost predicate Holds(m: Model, dt: Dtype, ks: History, vs: History, ts: seq<int>, l: nat) {
    forall layer: nat, p: nat {:trigger HoldsAt(m, dt, ks, vs, ts, layer, p)}
      | layer < m.layers && p < |ts| && (p + 1 < |ts| || layer < l) :: HoldsAt(m, dt, ks, vs, ts, layer, p)
  }

  ghost predicate HoldsAt(m: Model, dt: Dtype, ks: History, vs: History, ts: seq<int>, layer: nat, p: nat)
    requires p < |ts|
  {
    var at := Loc(layer, p);
    && at in ks && at in vs
    && ks[at] == Stored(m.casts, dt, KeyRow(m, dt, ts[..p + 1], layer))
    && vs[at] == Stored(m.casts, dt, ValueRow(m, dt, ts[..p + 1], layer))
  }

  /** One more token to come: nothing of it is held yet. */
  lemma HoldsNext(m: Model, dt: Dtype, ks: History, vs: History, ts: seq<int>, t: int)
    requires Holds(m, dt, ks, vs, ts, m.layers)
    ensures Holds(m, dt, ks, vs, ts + [t], 0)
  {
    forall layer: nat, p: nat | layer < m.layers && p + 1 < |ts + [t]|
      ensures HoldsAt(m, dt, ks, vs, ts + [t], layer, p)
    {
      assert HoldsAt(m, dt, ks, vs, ts, layer, p);
      assert (ts + [t])[..p + 1] == ts[..p + 1];
    }
  }

  /** And what was held before that token is held still. */
  lemma HoldsPrevious(m: Model, dt: Dtype, ks: History, vs: History, ts: seq<int>, l: nat)
    requires |ts| > 0 && Holds(m, dt, ks, vs, ts, l)
    ensures Holds(m, dt, ks, vs, ts[..|ts| - 1], m.layers)
  {
    var front := ts[..|ts| - 1];
    forall layer: nat, p: nat | layer < m.layers && p < |front| ensures HoldsAt(m, dt, ks, vs, front, layer, p) {
      assert HoldsAt(m, dt, ks, vs, ts, layer, p);
      assert front[..p + 1] == ts[..p + 1];
    }
  }

  /** `after` is `before` with one place written; it may know more places. */
  ghost predicate PrivateWrite(before: History, after: History, at: Loc, row: Row) {
    && at in after && after[at] == row
    && (forall o: Loc | o in before && o != at :: o in after && after[o] == before[o])
  }

  /** Writing the last token's rows of layer `l` completes that layer. */
  lemma HoldsLayer(m: Model, dt: Dtype, ks: History, vs: History, ks': History, vs': History, ts: seq<int>, l: nat)
    requires |ts| > 0 && l < m.layers && Holds(m, dt, ks, vs, ts, l)
    requires PrivateWrite(ks, ks', Loc(l, |ts| - 1), Stored(m.casts, dt, KeyRow(m, dt, ts, l)))
    requires PrivateWrite(vs, vs', Loc(l, |ts| - 1), Stored(m.casts, dt, ValueRow(m, dt, ts, l)))
    ensures Holds(m, dt, ks', vs', ts, l + 1)
  {
    forall layer: nat, p: nat | layer < m.layers && p < |ts| && (p + 1 < |ts| || layer < l + 1)
      ensures HoldsAt(m, dt, ks', vs', ts, layer, p)
    {
      if p + 1 == |ts| && layer == l {
        assert ts[..p + 1] == ts;
      } else {
        assert HoldsAt(m, dt, ks, vs, ts, layer, p);
      }
    }
  }

  /** Reading a completed layer gives attention the meaning's keys and values. */
  lemma HoldsFeeds(m: Model, dt: Dtype, ks: History, vs: History, ts: seq<int>, l: nat, ksRead: seq<Row>,
      vsRead: seq<Row>)
    requires |ts| > 0 && l < m.layers && Holds(m, dt, ks, vs, ts, l + 1)
    requires |ksRead| == |vsRead| == |ts|
    requires forall p: nat | p < |ts| && Loc(l, p) in ks :: ksRead[p] == ks[Loc(l, p)]
    requires forall p: nat | p < |ts| && Loc(l, p) in vs :: vsRead[p] == vs[Loc(l, p)]
    ensures ksRead == Keys(m, dt, ts, l) && vsRead == Values(m, dt, ts, l)
  {
    forall p: nat | p < |ts|
      ensures ksRead[p] == Keys(m, dt, ts, l)[p] && vsRead[p] == Values(m, dt, ts, l)[p]
    {
      assert HoldsAt(m, dt, ks, vs, ts, l, p);
    }
  }

  // ---- Paged caches seen as histories ----

  /** What a block table makes of the shared rows: a private history. */
  ghost function View(rows: Rows, table: seq<nat>, size: nat, value: bool): History
    requires size > 0
  {
    imap at: Loc | at.pos / size < |table| && SlotOf(table, size, at.layer, at.pos, value) in rows
      :: rows[SlotOf(table, size, at.layer, at.pos, value)]
  }

  ghost predicate PagedHolds(m: Model, rows: Rows, table: seq<nat>, size: nat, ts: seq<int>, l: nat)
    requires size > 0
  {
    Holds(m, F32, View(rows, table, size, false), View(rows, table, size, true), ts, l)
  }

  /** A cache sees no change in blocks it does not own. */
  lemma ViewFrame(before: Rows, after: Rows, touched: seq<nat>, table: seq<nat>, size: nat)
    requires size > 0 && SameOutside(before, after, touched)
    requires forall b | b in table :: b !in touched
    ensures View(before, table, size, false) == View(after, table, size, false)
    ensures View(before, table, size, true) == View(after, table, size, true)
  {
  }

  lemma StoreTouchesOnly(rows: Rows, table: seq<nat>, size: nat, layer: nat, pos: nat, k: Row, v: Row)
    requires size > 0 && pos / size < |table|
    ensures SameOutside(rows, StoreToken(rows, table, size, layer, pos, k, v), table)
  {
  }

  lemma SlotOfPrefix(held: seq<nat>, table: seq<nat>, size: nat, o: Loc, value: bool)
    requires size > 0 && o.pos / size < |held| && held <= table
    ensures SlotOf(held, size, o.layer, o.pos, value) == SlotOf(table, size, o.layer, o.pos, value)
  {
  }

  lemma SlotsDiffer(table: seq<nat>, size: nat, at: Loc, value: bool, o: Loc, value': bool)
    requires size > 0 && NoDuplicates(table) && at.pos / size < |table| && o.pos / size < |table| && at != o
    ensures SlotOf(table, size, at.layer, at.pos, value) != SlotOf(table, size, o.layer, o.pos, value')
  {
    if SlotOf(table, size, at.layer, at.pos, value) == SlotOf(table, size, o.layer, o.pos, value') {
      SlotOfInjective(table, size, at.layer, at.pos, value, o.layer, o.pos, value');
    }
  }

  /** What one slot of a table reads after a paged write. */
  lemma StoreAt(rows: Rows, table: seq<nat>, size: nat, layer: nat, pos: nat, k: Row, v: Row, at: Loc, value: bool)
    requires size > 0 && pos / size < |table| && NoDuplicates(table) && at.pos / size < |table|
    ensures
      var after := StoreToken(rows, table, size, layer, pos, k, v);
      var s := SlotOf(table, size, at.layer, at.pos, value);
      && (at == Loc(layer, pos) ==> s in after && after[s] == if value then v else k)
      && (at != Loc(layer, pos) && s in rows ==> s in after && after[s] == rows[s])
  {
    if at != Loc(layer, pos) {
      SlotsDiffer(table, size, at, value, Loc(layer, pos), false);
      SlotsDiffer(table, size, at, value, Loc(layer, pos), true);
    }
  }

  /** A successful paged write is, on the private history, a write at one place. */
  lemma StoreIsPrivateWrite(rows: Rows, held: seq<nat>, table: seq<nat>, size: nat, layer: nat, pos: nat, k: Row,
      v: Row)
    requires size > 0 && pos / size < |table| && NoDuplicates(table) && held <= table
    ensures var after := StoreToken(rows, table, size, layer, pos, k, v);
      && PrivateWrite(View(rows, held, size, false), View(after, table, size, false), Loc(layer, pos), k)
      && PrivateWrite(View(rows, held, size, true), View(after, table, size, true), Loc(layer, pos), v)
  {
    StoreIsPrivateFor(rows, held, table, size, layer, pos, k, v, false);
    StoreIsPrivateFor(rows, held, table, size, layer, pos, k, v, true);
  }

  lemma StoreIsPrivateFor(rows: Rows, held: seq<nat>, table: seq<nat>, size: nat, layer: nat, pos: nat, k: Row, v: Row,
      value: bool)
    requires size > 0 && pos / size < |table| && NoDuplicates(table) && held <= table
    ensures PrivateWrite(View(rows, held, size, value),
      View(StoreToken(rows, table, size, layer, pos, k, v), table, size, value),
                         Loc(layer, pos), if value then v else k)
  {
    hide StoreToken, NoDuplicates, SlotOf;
    var before, after := View(rows, held, size, value),
      View(StoreToken(rows, table, size, layer, pos, k, v), table, size, value);
    StoreAt(rows, table, size, layer, pos, k, v, Loc(layer, pos), value);
    forall o: Loc | o in before && o != Loc(layer, pos) ensures o in after && after[o] == before[o] {
      StoreAt(rows, table, size, layer, pos, k, v, o, value);
      SlotOfPrefix(held, table, size, o, value);
    }
  }
}
