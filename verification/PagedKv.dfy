/** The block manager and the per-sequence paged cache, updated in place. */
module PagedKv {
  import opened Numeric
  import opened Layout
  import opened PagedStore

  /** memcpy into a stretch of a buffer. */
  method CopyInto<T>(a: array<T>, off: nat, src: seq<T>)
    requires off + |src| <= a.Length
    modifies a
    ensures a[..] == Splice(old(a[..]), off, src)
  {
    var i := 0;
    while i < |src|
      invariant 0 <= i <= |src|
      invariant forall j | 0 <= j < a.Length :: a[j] == if off <= j < off + i then src[j - off] else old(a[j])
    {
      a[off + i] := src[i];
      i := i + 1;
    }
  }

  /** Fixed pool of KV blocks plus a first-in first-out free list.  `rows` is the
      pool read slot by slot; `Valid` ties it to the flat buffer. */
  class BlockManager {
    const geo: Geometry
    const pool: array<Float32>
    var freeList: seq<nat>
    ghost var rows: Rows

    ghost predicate Valid()
      reads this, pool
    {
      Mirrors(geo, pool[..], rows)
    }

    constructor (geo: Geometry)
      requires geo.Valid()
      ensures Valid() && fresh(pool) && this.geo == geo
      ensures freeList == seq(geo.numBlocks, i => i)
      ensures forall i | 0 <= i < pool.Length :: pool[i] == 0
    {
      this.geo := geo;
      this.pool := new Float32[geo.PoolSize()](_ => 0);
      this.freeList := seq(geo.numBlocks, i => i);
      this.rows := imap s: Slot | geo.Has(s) :: seq(geo.PerToken(), _ => 0);
      new;
      forall s: Slot | geo.Has(s) ensures PoolRow(geo, pool[..], s) == rows[s] {
        OffsetIsRowMajor(geo, s);
      }
    }

    method Allocate() returns (id: int)
      modifies this`freeList
      ensures old(|freeList|) == 0 ==> id == -1 && freeList == old(freeList)
      ensures old(|freeList|) > 0 ==> id == old(freeList)[0] && freeList == old(freeList)[1..]
    {
      if |freeList| == 0 { return -1; }
      id := freeList[0];
      freeList := freeList[1..];
    }

    method Free(id: int)
      modifies this`freeList
      ensures freeList == if 0 <= id < geo.numBlocks then old(freeList) + [id] else old(freeList)
    {
      if id < 0 || id >= geo.numBlocks { return; }
      freeList := freeList + [id];
    }

    /** Copies one row into a slot. */
    method PutRow(s: Slot, row: Row)
      requires Valid() && geo.Has(s) && |row| == geo.PerToken()
      modifies pool, this`rows
      ensures Valid()
      ensures rows == old(rows)[s := row]
    {
      OffsetIsRowMajor(geo, s);
      PutKeepsMirror(geo, pool[..], rows, s, row);
      CopyInto(pool, geo.Offset(s), row);
      rows := rows[s := row];
    }
  }

  datatype GatherStatus = Gathered | EmptyCache | BeyondTable

  /** A sequence's cache: a block table that grows with the sequence, over a
      manager it shares with others.  A moved-from cache has no manager. */
  class PagedKVCache {
    var mgr: BlockManager?
    var table: seq<nat>

    constructor (mgr: BlockManager)
      ensures this.mgr == mgr && table == []
    {
      this.mgr := mgr;
      table := [];
    }

    ghost function Footprint(): set<object>
      reads this
    {
      if mgr == null then {this} else {this, mgr, mgr.pool}
    }

    ghost predicate Valid()
      reads this, Footprint()
    {
      if mgr == null then table == []
      else mgr.Valid() && Owns(mgr.geo, mgr.freeList, table)
    }

    /** Stores one token's key and value.  A write that finds the free list empty
        when it needs a block fails and changes nothing. */
    method Write(layer: nat, pos: nat, k: Row, v: Row) returns (ok: bool)
      requires Valid()
      requires mgr != null ==>
        layer < mgr.geo.numLayers && pos / mgr.geo.blockSize <= |table| && |k| == |v| == mgr.geo.PerToken()
      modifies Footprint()
      ensures Valid() && mgr == old(mgr)
      ensures mgr == null ==> !ok && table == old(table)
      ensures mgr != null ==>
        var t := TakeBlock(old(mgr.freeList), old(table), pos, mgr.geo.blockSize);
        && ok == t.ok && mgr.freeList == t.free && table == t.table
        && mgr.rows == if ok then StoreToken(old(mgr.rows), table, mgr.geo.blockSize, layer, pos, k, v)
          else old(mgr.rows)
    {
      if mgr == null { return false; }
      TakeKeepsOwned(mgr.geo, mgr.freeList, table, pos);
      var block := pos / mgr.geo.blockSize;
      if block >= |table| {
        var id := mgr.Allocate();
        if id < 0 { return false; }
        table := table + [id];
      }
      mgr.PutRow(SlotOf(table, mgr.geo.blockSize, layer, pos, false), k);
      mgr.PutRow(SlotOf(table, mgr.geo.blockSize, layer, pos, true), v);
      ok := true;
    }

    /** Copies positions [0, count) of a layer to the front of two flat buffers. */
    method Gather(layer: nat, count: nat, kIn: seq<Float32>, vIn: seq<Float32>)
      returns (status: GatherStatus, kOut: seq<Float32>, vOut: seq<Float32>)
      requires Valid()
      requires mgr != null ==>
        layer < mgr.geo.numLayers && count * mgr.geo.PerToken() <= |kIn| && count * mgr.geo.PerToken() <= |vIn|
      ensures |kOut| == |kIn| && |vOut| == |vIn|
      ensures mgr == null <==> status == EmptyCache
      ensures mgr != null ==> (status == Gathered <==> forall p: nat | p < count :: p / mgr.geo.blockSize < |table|)
      ensures status == Gathered ==>
        && GatheredFrom(mgr.rows, table, mgr.geo.blockSize, layer, count, kOut, mgr.geo.PerToken(), false)
        && GatheredFrom(mgr.rows, table, mgr.geo.blockSize, layer, count, vOut, mgr.geo.PerToken(), true)
    {
      kOut, vOut := kIn, vIn;
      if mgr == null { return EmptyCache, kOut, vOut; }
      var g := mgr.geo;
      assert g.Valid();
      hide GatheredFrom, PagedStore.Mirrors;
      var d := g.PerToken();
      GatheredNone(mgr.rows, table, g.blockSize, layer, kOut, vOut, d);
      var p := 0;
      while p < count
        invariant 0 <= p <= count
        invariant |kOut| == |kIn| && |vOut| == |vIn|
        invariant GatheredFrom(mgr.rows, table, g.blockSize, layer, p, kOut, d, false)
        invariant GatheredFrom(mgr.rows, table, g.blockSize, layer, p, vOut, d, true)
      {
        if p / g.blockSize >= |table| { return BeyondTable, kOut, vOut; }
        var k := g.Offset(SlotOf(table, g.blockSize, layer, p, false));
        var v := g.Offset(SlotOf(table, g.blockSize, layer, p, true));
        GatherOne(g, mgr.pool[..], mgr.rows, table, layer, p, false);
        GatherOne(g, mgr.pool[..], mgr.rows, table, layer, p, true);
        ExtendGathered(mgr.rows, table, g.blockSize, layer, p, count, kOut, d, false, mgr.pool[k..k + d]);
        ExtendGathered(mgr.rows, table, g.blockSize, layer, p, count, vOut, d, true, mgr.pool[v..v + d]);
        kOut := Splice(kOut, p * d, mgr.pool[k..k + d]);
        vOut := Splice(vOut, p * d, mgr.pool[v..v + d]);
        p := p + 1;
      }
      GatheredInside(mgr.rows, table, g.blockSize, layer, count, kOut, d);
      status := Gathered;
    }

    /** Returns every owned block to the free list, in table order. */
    method ReleaseAll()
      requires Valid()
      modifies this, mgr
      ensures Valid() && mgr == old(mgr) && table == []
      ensures mgr != null ==> mgr.freeList == old(mgr.freeList) + old(table) && mgr.rows == old(mgr.rows)
    {
      if mgr != null {
        ReleaseKeepsOwned(mgr.geo, mgr.freeList, table);
        var i := 0;
        while i < |table|
          invariant 0 <= i <= |table|
          invariant mgr == old(mgr) && table == old(table) && mgr.Valid() && mgr.rows == old(mgr.rows)
          invariant mgr.freeList == old(mgr.freeList) + table[..i]
        {
          assert table[i] in table;
          mgr.Free(table[i]);
          assert table[..i + 1] == table[..i] + [table[i]];
          i := i + 1;
        }
        assert table[..|table|] == table;
      }
      table := [];
    }

    /** Move assignment: gives back what this cache owns, then takes over the other's
        blocks and leaves the other empty; moving a cache onto itself does nothing. */
    method MoveFrom(o: PagedKVCache)
      requires Valid() && o.Valid()
      requires this != o && mgr != null && mgr == o.mgr ==> forall b | b in table :: b !in o.table
      modifies this, mgr, o
      ensures this == o ==> mgr == old(mgr) && table == old(table)
      ensures this != o ==> mgr == old(o.mgr) && table == old(o.table) && o.mgr == null && o.table == []
      ensures this != o && old(mgr) != null ==> old(mgr).freeList == old(mgr.freeList) + old(table)
      ensures old(mgr) != null ==> old(mgr).rows == old(mgr.rows)
      ensures old(o.mgr) != null && (this == o || old(o.mgr) != old(mgr)) ==>
        old(o.mgr).freeList == old(o.mgr.freeList) && old(o.mgr).rows == old(o.mgr.rows)
      ensures Valid() && o.Valid()
    {
      if this != o {
        ReleaseAll();
        mgr := o.mgr;
        table := o.table;
        o.mgr := null;
        o.table := [];
      }
    }
  }
}
