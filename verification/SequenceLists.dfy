/** Lists of sequence objects and the values they show. */
module SequenceLists {
  import opened Numeric
  import opened Meaning
  import opened PagedStore
  import opened PagedKv
  import opened Recall
  import opened EngineCore
  import opened Sequences
  import opened SchedSpec
  import opened SeqProofs
  import opened Sums
  import opened LiveRows
  import opened SchedProofs

  ghost function Caches(ss: seq<Sequence>): set<object> {
    set s | s in ss :: s.kv
  }

  /** The objects `ss` are the values `qs`, on this pool; `made[k]` is the object with id `k`. */
  ghost predicate Shows(ss: seq<Sequence>, qs: seq<SeqV>, made: seq<Sequence>, mgr: BlockManager)
    reads ss, Caches(ss)
  {
    && |ss| == |qs|
    && forall i | 0 <= i < |ss| ::
      ss[i].View() == qs[i] && ss[i].kv.mgr == mgr && ss[i].id < |made| && made[ss[i].id] == ss[i]
  }

  /** No object and no cache twice. */
  ghost predicate Separate(made: seq<Sequence>) {
    forall i, j | 0 <= i < j < |made| :: made[i] != made[j] && made[i].kv != made[j].kv
  }

  lemma HeadAlone(q: SeqV, qs: seq<SeqV>)
    requires OneEach([q] + qs)
    ensures OneEach(qs) && forall x | x in qs :: x.id != q.id
  {
    forall id: nat ensures Sum([q] + qs, HasId(id)) == HasId(id)(q) + Sum(qs, HasId(id)) {
      SumCons(q, qs, HasId(id));
    }
    forall x | x in qs ensures x.id != q.id {
      var j :| 0 <= j < |qs| && qs[j] == x;
      SumSplit(qs, j, HasId(q.id));
      assert Sum([q] + qs, HasId(q.id)) <= 1;
    }
  }

  /** Other ids are other objects. */
  lemma Foreign(ss: seq<Sequence>, qs: seq<SeqV>, made: seq<Sequence>, mgr: BlockManager, s: Sequence)
    requires Shows(ss, qs, made, mgr) && Separate(made) && s.id < |made| && made[s.id] == s
    requires forall x | x in qs :: x.id != s.id
    ensures forall t | t in ss :: t != s && t.kv != s.kv
  {
    forall t | t in ss ensures t != s && t.kv != s.kv {
      var i :| 0 <= i < |ss| && ss[i] == t;
      assert qs[i] in qs;
      assert if t.id < s.id then made[t.id].kv != made[s.id].kv else made[s.id].kv != made[t.id].kv;
    }
  }

  /** No object and no cache occurs twice in a list without repeated ids. */
  lemma Strangers(ss: seq<Sequence>, qs: seq<SeqV>, made: seq<Sequence>, mgr: BlockManager)
    requires Shows(ss, qs, made, mgr) && Separate(made) && OneEach(qs)
    ensures Separate(ss)
  {
    forall i, j | 0 <= i < j < |ss| ensures ss[i] != ss[j] && ss[i].kv != ss[j].kv {
      SumTwo(qs, i, j, HasId(qs[i].id));
      assert Sum(qs, HasId(qs[i].id)) <= 1;
      assert ss[i].id == qs[i].id && ss[j].id == qs[j].id;
      var a, b := ss[i].id, ss[j].id;
      assert if a < b then made[a].kv != made[b].kv else made[b].kv != made[a].kv;
    }
  }

  lemma InCaches(list: seq<Sequence>, part: seq<Sequence>)
    requires forall s | s in part :: s in list
    ensures Caches(part) <= Caches(list)
  {
  }

  /** What is shown was made here. */
  lemma ShowsMade(ss: seq<Sequence>, qs: seq<SeqV>, made: seq<Sequence>, mgr: BlockManager)
    requires Shows(ss, qs, made, mgr)
    ensures |ss| == |qs| && Caches(ss) <= Caches(made) && forall s | s in ss :: s in made
  {
    forall s | s in ss ensures s in made {
      var i :| 0 <= i < |ss| && ss[i] == s;
      assert made[ss[i].id] == s;
    }
  }

  lemma ShowsHead(ss: seq<Sequence>, qs: seq<SeqV>, made: seq<Sequence>, mgr: BlockManager)
    requires Shows(ss, qs, made, mgr) && |ss| > 0
    ensures |ss| == |qs| && Shows([ss[0]], [qs[0]], made, mgr) && Shows(ss[1..], qs[1..], made, mgr)
  {
    forall i | 0 <= i < |ss[1..]|
      ensures ss[1..][i].View() == qs[1..][i] && ss[1..][i].kv.mgr == mgr && ss[1..][i].id < |made|
      ensures made[ss[1..][i].id] == ss[1..][i]
    {
      assert ss[1..][i] == ss[i + 1] && qs[1..][i] == qs[i + 1];
    }
  }

  lemma ShowsJoin(a: seq<Sequence>, aV: seq<SeqV>, b: seq<Sequence>, bV: seq<SeqV>, made: seq<Sequence>,
      mgr: BlockManager)
    requires Shows(a, aV, made, mgr) && Shows(b, bV, made, mgr)
    ensures Shows(a + b, aV + bV, made, mgr)
  {
  }

  lemma ShowsParts(a: seq<Sequence>, aV: seq<SeqV>, b: seq<Sequence>, bV: seq<SeqV>, made: seq<Sequence>,
      mgr: BlockManager)
    requires Shows(a + b, aV + bV, made, mgr) && |a| == |aV|
    ensures Shows(a, aV, made, mgr) && Shows(b, bV, made, mgr)
  {
    forall i | 0 <= i < |b|
      ensures b[i].View() == bV[i] && b[i].kv.mgr == mgr && b[i].id < |made| && made[b[i].id] == b[i]
    {
      assert (a + b)[|a| + i] == b[i] && (aV + bV)[|aV| + i] == bV[i];
    }
    forall i | 0 <= i < |a|
      ensures a[i].View() == aV[i] && a[i].kv.mgr == mgr && a[i].id < |made| && made[a[i].id] == a[i]
    {
      assert (a + b)[i] == a[i] && (aV + bV)[i] == aV[i];
    }
  }

  lemma CachesOf(ss: seq<Sequence>)
    ensures forall s | s in ss :: s.kv in Caches(ss)
  {
  }

  lemma Elsewhere(running: seq<Sequence>, others: seq<Sequence>, j: nat)
    requires Separate(running + others) && j < |running|
    ensures forall i | 0 <= i < |running| && i != j :: running[i] != running[j] && running[i].kv != running[j].kv
    ensures forall i | 0 <= i < |others| :: others[i] != running[j] && others[i].kv != running[j].kv
  {
    var all := running + others;
    forall i | 0 <= i < |running| && i != j ensures running[i] != running[j] && running[i].kv != running[j].kv {
      assert if i < j then all[i] != all[j] && all[i].kv != all[j].kv else all[j] != all[i] && all[j].kv != all[i].kv;
    }
    forall i | 0 <= i < |others| ensures others[i] != running[j] && others[i].kv != running[j].kv {
      assert all[j] != all[|running| + i] && all[j].kv != all[|running| + i].kv;
    }
  }

  /** A sequence that is right about its request and coexists with the others can take
      its turn. */
  lemma TurnReady(m: Model, s: Sequence, mgr: BlockManager, q: SeqV, others: seq<SeqV>, r: Request)
    requires m.Valid() && PoolFits(m, mgr.geo) && mgr.Valid() && s.View() == q && s.kv.mgr == mgr
    requires Coexist(m, mgr.geo, mgr.rows, mgr.freeList, [q] + others)
    requires SeqOk(m, mgr.geo.blockSize, r, q) && q.state != Finished
    ensures Ready(m, s, mgr, r)
  {
    hide PagedStore.Mirrors, PagedHolds, Owns, Exclusive, OneEach, Model.Valid, OnTrack, GreedyOf, CeilDiv;
    OwnsAt(mgr.geo, mgr.freeList, [q] + others, 0);
    assert q in [q] + others;
    Divides(mgr.geo.blockSize - 1, 0, mgr.geo.blockSize - 1, mgr.geo.blockSize);
    NothingNeeded(mgr.geo.blockSize);
  }

  lemma NothingNeeded(size: nat)
    requires size > 0 && (size - 1) / size == 0
    ensures CeilDiv(0, size) == 0
  {
  }

  /** Any one of a list, in front. */
  lemma InFront(qs: seq<SeqV>, j: nat)
    requires j < |qs|
    ensures multiset(qs) == multiset([qs[j]] + (qs[..j] + qs[j + 1..]))
  {
    assert qs == qs[..j] + [qs[j]] + qs[j + 1..];
  }

  /** Entry `j` takes a turn in place. */
  lemma CoexistAt(m: Model, g: Geometry, rows: Rows, rows': Rows, free: seq<nat>, free': seq<nat>, qs: seq<SeqV>,
      j: nat, q': SeqV)
    requires g.blockSize > 0 && j < |qs| && Coexist(m, g, rows, free, qs) && q'.id == qs[j].id
    requires SameBlocks(free, qs[j].table, free', q'.table) && SameOutside(rows, rows', q'.table)
    requires Held(m, rows', g.blockSize, q')
    ensures Coexist(m, g, rows', free', qs[j := q'])
  {
    hide Coexist, Held, SameOutside, SameBlocks;
    var rest := qs[..j] + qs[j + 1..];
    InFront(qs, j);
    CoexistPermutation(m, g, rows, free, qs, [qs[j]] + rest);
    CoexistTurn(m, g, rows, rows', free, free', rest, qs[j], q');
    InFront(qs[j := q'], j);
    assert qs[j := q'][..j] + qs[j := q'][j + 1..] == rest;
    CoexistPermutation(m, g, rows', free', [q'] + rest, qs[j := q']);
  }
}
