/** Several paged caches on one pool advancing together: which rows of a batch
    get a block, and why no row disturbs another. */
module BatchStore {
  import opened Numeric
  import opened Meaning
  import opened PagedStore
  import opened Recall

  /** Every table is owned, and no block is in two tables. */
  ghost predicate Disjoint(g: Geometry, free: seq<nat>, tables: seq<seq<nat>>) {
    && NoDuplicates(free) && (forall b | b in free :: b < g.numBlocks)
    && (forall i | 0 <= i < |tables| :: Owns(g, free, tables[i]))
    && (forall i, j | 0 <= i < |tables| && 0 <= j < |tables| && i != j :: Apart(tables[i], tables[j]))
  }

  ghost predicate Apart(t: seq<nat>, t': seq<nat>) {
    forall b | b in t :: b !in t'
  }

  /** Rows of every block outside all the tables are the same. */
  ghost predicate SameOutsideAll(before: Rows, after: Rows, tables: seq<seq<nat>>) {
    forall s: Slot | Outside(s.block, tables) ::
      (s in before <==> s in after) && (s in before ==> before[s] == after[s])
  }

  ghost predicate Outside(b: nat, tables: seq<seq<nat>>) {
    forall i | 0 <= i < |tables| :: b !in tables[i]
  }

  datatype Batch = Batch(free: seq<nat>, tables: seq<seq<nat>>, alive: seq<bool>)

  /** Every row is inside its table or asks for the very next block. */
  ghost predicate Near(tables: seq<seq<nat>>, positions: seq<nat>, size: nat)
    requires size > 0 && |positions| == |tables|
  {
    forall j | 0 <= j < |tables| :: positions[j] / size <= |tables[j]|
  }

  ghost predicate Covered(tables: seq<seq<nat>>, positions: seq<nat>, size: nat, alive: seq<bool>)
    requires size > 0 && |positions| == |tables| == |alive|
  {
    forall j | 0 <= j < |tables| && alive[j] :: positions[j] / size < |tables[j]|
  }

  lemma TurnKeepsCover(tables: seq<seq<nat>>, positions: seq<nat>, size: nat, alive: seq<bool>, i: nat, free: seq<nat>,
      l: nat)
    requires size > 0 && |positions| == |tables| == |alive| && i < |tables| && alive[i]
    requires Near(tables, positions, size) && (l > 0 ==> Covered(tables, positions, size, alive))
    ensures positions[i] / size <= |tables[i]|
    ensures var t := TakeBlock(free, tables[i], positions[i], size);
      && Near(tables[i := t.table], positions, size)
      && (l > 0 ==> t.ok && Covered(tables[i := t.table], positions, size, alive[i := t.ok]))
  {
  }

  function AllAlive(n: nat): (a: seq<bool>)
    ensures |a| == n && forall j | 0 <= j < n :: a[j]
  {
    seq(n, _ => true)
  }

  /** Of the first `n` rows the live ones ask for their blocks in row order, one after
      the other; a row that gets none is dead from then on. */
  ghost function BatchTake(start: Batch, positions: seq<nat>, size: nat, n: nat): (b: Batch)
    requires size > 0 && |positions| == |start.tables| == |start.alive| && n <= |positions|
    ensures |b.tables| == |b.alive| == |positions|
    ensures forall j | n <= j < |positions| :: b.tables[j] == start.tables[j] && b.alive[j] == start.alive[j]
  {
    if n == 0 then start
    else
      var b := BatchTake(start, positions, size, n - 1);
      if !b.alive[n - 1] then b
      else
        var t := TakeBlock(b.free, b.tables[n - 1], positions[n - 1], size);
        Batch(t.free, b.tables[n - 1 := t.table], b.alive[n - 1 := t.ok])
  }

  /** What taking does to each table: a live row ends inside its table, one block
      longer if it asked; a dead row's table is as it was. */
  lemma {:induction false} BatchTakeShape(start: Batch, positions: seq<nat>, size: nat, n: nat)
    requires size > 0 && |positions| == |start.tables| == |start.alive| && n <= |positions|
    ensures var b := BatchTake(start, positions, size, n);
      forall j | 0 <= j < n ::
        && (b.alive[j] ==> start.alive[j])
        && (!b.alive[j] ==> b.tables[j] == start.tables[j])
        && (b.alive[j] && positions[j] / size <= |start.tables[j]| ==> positions[j] / size < |b.tables[j]|)
        && (b.alive[j] ==>
          |b.tables[j]| == |start.tables[j]| + if positions[j] / size < |start.tables[j]| then 0 else 1)
  {
    if n > 0 {
      BatchTakeShape(start, positions, size, n - 1);
    }
  }

  /** Once every live row is inside its table a further layer takes nothing. */
  lemma {:induction false} BatchTakeIdle(start: Batch, positions: seq<nat>, size: nat, n: nat)
    requires size > 0 && |positions| == |start.tables| == |start.alive| && n <= |positions|
    requires Covered(start.tables, positions, size, start.alive)
    ensures BatchTake(start, positions, size, n) == start
  {
    if n > 0 {
      BatchTakeIdle(start, positions, size, n - 1);
      assert start.tables[n - 1 := start.tables[n - 1]] == start.tables;
      if start.alive[n - 1] { assert start.alive[n - 1 := true] == start.alive; }
    }
  }

  /** How many of the first `n` rows need a block. */
  ghost function Needy(tables: seq<seq<nat>>, positions: seq<nat>, size: nat, n: nat): nat
    requires size > 0 && |positions| == |tables| && n <= |tables|
  {
    if n == 0 then 0
    else Needy(tables, positions, size, n - 1) + if positions[n - 1] / size >= |tables[n - 1]| then 1 else 0
  }

  /** Row `i` needs a block and the earlier rows that need one have used up the free list. */
  ghost predicate Starved(free: seq<nat>, tables: seq<seq<nat>>, positions: seq<nat>, size: nat, i: nat)
    requires size > 0 && |positions| == |tables| && i < |tables|
  {
    positions[i] / size >= |tables[i]| && Needy(tables, positions, size, i) >= |free|
  }

  ghost function AfterTaking(free: seq<nat>, k: nat): seq<nat> {
    if k <= |free| then free[k..] else []
  }

  lemma NobodyTakes(free: seq<nat>, tables: seq<seq<nat>>, positions: seq<nat>, size: nat)
    requires size > 0 && |positions| == |tables|
    ensures BatchTake(Batch(free, tables, AllAlive(|tables|)), positions, size, 0).free == free
    ensures AfterTaking(free, Needy(tables, positions, size, 0)) == free
  {
  }

  /** Rows that need a block take from the head in row order until none is left. */
  lemma {:induction false} BatchTakeFree(free: seq<nat>, tables: seq<seq<nat>>, positions: seq<nat>, size: nat, n: nat)
    requires size > 0 && |positions| == |tables| && n <= |tables|
    ensures BatchTake(Batch(free, tables, AllAlive(|tables|)), positions, size, n).free
         == AfterTaking(free, Needy(tables, positions, size, n))
  {
    hide BatchTake, Needy, Starved, AfterTaking;
    if n == 0 {
      NobodyTakes(free, tables, positions, size);
    } else {
      BatchTakeFree(free, tables, positions, size, n - 1);
      TakeStep(Batch(free, tables, AllAlive(|tables|)), positions, size, n);
      CountStep(free, tables, positions, size, n);
    }
  }

  /** Row `i` dies exactly when it is starved. */
  lemma {:induction false} BatchTakeCounts(free: seq<nat>, tables: seq<seq<nat>>, positions: seq<nat>, size: nat,
      n: nat)
    requires size > 0 && |positions| == |tables| && n <= |tables|
    ensures
      var b := BatchTake(Batch(free, tables, AllAlive(|tables|)), positions, size, n);
      forall i | 0 <= i < n :: !b.alive[i] <==> Starved(free, tables, positions, size, i)
  {
    hide BatchTake, Needy, Starved, AfterTaking;
    if n == 0 {
    } else {
      BatchTakeCounts(free, tables, positions, size, n - 1);
      BatchTakeFree(free, tables, positions, size, n - 1);
      TakeStep(Batch(free, tables, AllAlive(|tables|)), positions, size, n);
      CountStep(free, tables, positions, size, n);
    }
  }

  lemma TakeStep(start: Batch, positions: seq<nat>, size: nat, n: nat)
    requires size > 0 && |positions| == |start.tables| == |start.alive| && 0 < n <= |positions|
    requires start.alive[n - 1]
    ensures
      var before, after := BatchTake(start, positions, size, n - 1), BatchTake(start, positions, size, n);
      var needs := positions[n - 1] / size >= |start.tables[n - 1]|;
      && after.free == (if needs && |before.free| > 0 then before.free[1..] else before.free)
      && after.alive == before.alive[n - 1 := !(needs && |before.free| == 0)]
  {
  }

  lemma CountStep(free: seq<nat>, tables: seq<seq<nat>>, positions: seq<nat>, size: nat, n: nat)
    requires size > 0 && |positions| == |tables| && 0 < n <= |tables|
    ensures
      var k, k' := Needy(tables, positions, size, n - 1), Needy(tables, positions, size, n);
      var needs := positions[n - 1] / size >= |tables[n - 1]|;
      var left, left' := AfterTaking(free, k), AfterTaking(free, k');
      && left' == (if needs && |left| > 0 then left[1..] else left)
      && ((needs && |left| == 0) <==> Starved(free, tables, positions, size, n - 1))
  {
  }

  /** One row's write keeps the others' tables apart and their rows the same. */
  lemma RowTakes(g: Geometry, free: seq<nat>, tables: seq<seq<nat>>, i: nat, pos: nat)
    requires g.Valid() && Disjoint(g, free, tables) && i < |tables|
    ensures var t := TakeBlock(free, tables[i], pos, g.blockSize);
      && Disjoint(g, t.free, tables[i := t.table])
      && (forall j | 0 <= j < |tables| && j != i :: Apart(tables[j], t.table))
  {
    var t := TakeBlock(free, tables[i], pos, g.blockSize);
    TakeKeepsOwned(g, free, tables[i], pos);
    if |t.table| != |tables[i]| {
      assert free == [free[0]] + t.free && free[0] in free;
      assert t.table == tables[i] + [free[0]];
      assert forall b | b in t.free :: b in free;
    }
    forall j | 0 <= j < |tables| && j != i
      ensures Owns(g, t.free, tables[j]) && Apart(tables[j], t.table) && Apart(t.table, tables[j])
    {
      assert Owns(g, free, tables[j]) && Apart(tables[i], tables[j]) && Apart(tables[j], tables[i]);
    }
  }

  /** The tables of the live ones among the first `n` rows. */
  ghost function Written(tables: seq<seq<nat>>, alive: seq<bool>, n: nat): (w: seq<seq<nat>>)
    requires |tables| == |alive|
    ensures |w| == |tables|
  {
    seq(|tables|, j requires 0 <= j < |tables| => if alive[j] && j < n then tables[j] else [])
  }

  /** One row's write at layer 0 (`i == n`) or later (`i < n`). */
  lemma WrittenStep(a: Rows, b: Rows, c: Rows, tables: seq<seq<nat>>, alive: seq<bool>, i: nat, n: nat, table: seq<nat>,
      ok: bool)
    requires |tables| == |alive| && i < |tables| && i <= n && tables[i] <= table && alive[i]
    requires SameOutsideAll(a, b, Written(tables, alive, n)) && SameOutside(b, c, table)
    requires !ok ==> i == n && b == c
    ensures SameOutsideAll(a, c, Written(tables[i := table], alive[i := ok], if i == n then n + 1 else n))
  {
    var w := Written(tables, alive, n);
    var w' := Written(tables[i := table], alive[i := ok], if i == n then n + 1 else n);
    forall s: Slot | Outside(s.block, w')
      ensures (s in a <==> s in c) && (s in a ==> a[s] == c[s])
    {
      assert s.block !in w'[i];
      assert Outside(s.block, w) by {
        forall j | 0 <= j < |w| ensures s.block !in w[j] {
          assert s.block !in w'[j];
        }
      }
    }
  }

  /** A dead row is never among the written ones. */
  lemma WrittenDead(tables: seq<seq<nat>>, alive: seq<bool>, i: nat, n: nat)
    requires |tables| == |alive| && i < |tables| && i <= n && !alive[i]
    ensures Written(tables, alive, if i == n then n + 1 else n) == Written(tables, alive, n)
  {
  }

  lemma WrittenNone(rows: Rows, tables: seq<seq<nat>>, alive: seq<bool>)
    requires |tables| == |alive|
    ensures SameOutsideAll(rows, rows, Written(tables, alive, 0))
  {
  }

  /** A live row holds its new token below layer `l`; a dead row still holds exactly
      what it held before the step. */
  ghost predicate RowState(m: Model, rows: Rows, table: seq<nat>, size: nat, ts: seq<int>, alive: bool, l: nat)
    requires size > 0 && |ts| > 0
  {
    if alive then PagedHolds(m, rows, table, size, ts, l)
    else PagedHolds(m, rows, table, size, ts[..|ts| - 1], m.layers)
  }

  ghost predicate BatchState(m: Model, rows: Rows, tables: seq<seq<nat>>, size: nat, hist: seq<seq<int>>,
      alive: seq<bool>, l: nat, n: nat)
    requires size > 0 && |tables| == |hist| == |alive|
    requires forall j | 0 <= j < |hist| :: |hist[j]| > 0
  {
    forall j | 0 <= j < |tables| :: RowState(m, rows, tables[j], size, hist[j], alive[j], if j < n then l + 1 else l)
  }

  /** Row `i` moved on, every other row is as it was. */
  lemma BatchRow(m: Model, rows: Rows, rows': Rows, tables: seq<seq<nat>>, table: seq<nat>, size: nat,
      hist: seq<seq<int>>, alive: seq<bool>, ok: bool, l: nat, i: nat)
    requires size > 0 && |tables| == |hist| == |alive| && i < |tables|
    requires forall j | 0 <= j < |hist| :: |hist[j]| > 0
    requires BatchState(m, rows, tables, size, hist, alive, l, i)
    requires SameOutside(rows, rows', table)
    requires forall j | 0 <= j < |tables| && j != i :: Apart(tables[j], table)
    requires RowState(m, rows', table, size, hist[i], ok, l + 1)
    ensures BatchState(m, rows', tables[i := table], size, hist, alive[i := ok], l, i + 1)
  {
    hide Holds, View, SameOutside, PagedHolds;
    forall j | 0 <= j < |tables| && j != i
      ensures RowState(m, rows', tables[j], size, hist[j], alive[j], if j < i + 1 then l + 1 else l)
    {
      assert RowState(m, rows, tables[j], size, hist[j], alive[j], if j < i then l + 1 else l);
      RowFrame(m, rows, rows', table, tables[j], size, hist[j], alive[j], if j < i then l + 1 else l);
    }
  }

  lemma RowFrame(m: Model, rows: Rows, rows': Rows, touched: seq<nat>, table: seq<nat>, size: nat, ts: seq<int>,
      alive: bool, l: nat)
    requires size > 0 && |ts| > 0 && SameOutside(rows, rows', touched) && Apart(table, touched)
    requires RowState(m, rows, table, size, ts, alive, l)
    ensures RowState(m, rows', table, size, ts, alive, l)
  {
    hide Holds, View;
    ViewFrame(rows, rows', touched, table, size);
  }

  lemma BatchRowState(m: Model, rows: Rows, tables: seq<seq<nat>>, size: nat, hist: seq<seq<int>>, alive: seq<bool>,
      l: nat, n: nat, i: nat)
    requires size > 0 && |tables| == |hist| == |alive| && n <= i < |tables|
    requires forall j | 0 <= j < |hist| :: |hist[j]| > 0
    requires BatchState(m, rows, tables, size, hist, alive, l, n)
    ensures RowState(m, rows, tables[i], size, hist[i], alive[i], l)
  {
    hide RowState;
  }

  lemma BatchDeadRow(m: Model, rows: Rows, tables: seq<seq<nat>>, size: nat, hist: seq<seq<int>>, alive: seq<bool>,
      l: nat, i: nat)
    requires size > 0 && |tables| == |hist| == |alive| && i < |tables| && !alive[i]
    requires forall j | 0 <= j < |hist| :: |hist[j]| > 0
    requires BatchState(m, rows, tables, size, hist, alive, l, i)
    ensures BatchState(m, rows, tables, size, hist, alive, l, i + 1)
  {
    hide PagedHolds;
    forall j | 0 <= j < |tables|
      ensures RowState(m, rows, tables[j], size, hist[j], alive[j], if j < i + 1 then l + 1 else l) {
      assert RowState(m, rows, tables[j], size, hist[j], alive[j], if j < i then l + 1 else l);
    }
  }

  /** A batch about to step: every row holds its history and nothing of the next token. */
  lemma BatchStart(m: Model, rows: Rows, tables: seq<seq<nat>>, size: nat, hist: seq<seq<int>>, tokens: seq<int>)
    requires size > 0 && |tables| == |hist| == |tokens|
    requires forall j | 0 <= j < |hist| :: PagedHolds(m, rows, tables[j], size, hist[j], m.layers)
    ensures BatchState(m, rows, tables, size, Extended(hist, tokens), AllAlive(|tables|), 0, 0)
  {
    forall j | 0 <= j < |tables| ensures PagedHolds(m, rows, tables[j], size, Extended(hist, tokens)[j], 0) {
      HoldsNext(m, F32, View(rows, tables[j], size, false), View(rows, tables[j], size, true), hist[j], tokens[j]);
    }
  }

  ghost function Extended(hist: seq<seq<int>>, tokens: seq<int>): (ts: seq<seq<int>>)
    requires |hist| == |tokens|
    ensures |ts| == |hist| && forall j | 0 <= j < |hist| :: ts[j] == hist[j] + [tokens[j]]
  {
    seq(|hist|, j requires 0 <= j < |hist| => hist[j] + [tokens[j]])
  }

  /** A layer finished for every row is the next layer not begun. */
  lemma BatchLayerDone(m: Model, rows: Rows, tables: seq<seq<nat>>, size: nat, hist: seq<seq<int>>, alive: seq<bool>,
      l: nat)
    requires size > 0 && |tables| == |hist| == |alive|
    requires forall j | 0 <= j < |hist| :: |hist[j]| > 0
    requires BatchState(m, rows, tables, size, hist, alive, l, |tables|)
    ensures BatchState(m, rows, tables, size, hist, alive, l + 1, 0)
  {
    hide RowState;
  }
}
