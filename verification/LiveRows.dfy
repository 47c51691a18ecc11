/** The stored rows of all live sequences together: one sequence's turn, or one
    batch, leaves what every other sequence has written as it was. */
module LiveRows {
  import opened Meaning
  import opened PagedStore
  import opened Recall
  import opened BatchStore
  import opened SchedSpec
  import opened SeqProofs
  import opened Sums

  /** The tokens whose keys and values a sequence has stored. */
  ghost function Fed(q: SeqV): seq<int> {
    if FedCount(q) <= |q.tokens| then q.tokens[..FedCount(q)] else []
  }

  ghost predicate Held(m: Model, rows: Rows, size: nat, q: SeqV)
    requires size > 0
  {
    PagedHolds(m, rows, q.table, size, Fed(q), m.layers)
  }

  ghost predicate AllHeld(m: Model, rows: Rows, size: nat, qs: seq<SeqV>)
    requires size > 0
  {
    forall q | q in qs :: Held(m, rows, size, q)
  }

  /** No block is free twice, held twice, or free and held. */
  ghost predicate Exclusive(blocks: nat, free: seq<nat>, qs: seq<SeqV>) {
    forall b: nat :: multiset(free)[b] + Sum(qs, CountOf(b)) <= if b < blocks then 1 else 0
  }

  lemma ExclusivePermutation(blocks: nat, free: seq<nat>, qs: seq<SeqV>, qs': seq<SeqV>)
    requires Exclusive(blocks, free, qs) && multiset(qs) == multiset(qs')
    ensures Exclusive(blocks, free, qs')
  {
    forall b: nat ensures Sum(qs', CountOf(b)) == Sum(qs, CountOf(b)) {
      SumPermutation(qs, qs', CountOf(b));
    }
  }

  lemma CountAt(qs: seq<SeqV>, i: nat, b: nat)
    requires i < |qs|
    ensures multiset(qs[i].table)[b] <= Sum(qs, CountOf(b))
  {
    SumSplit(qs, i, CountOf(b));
  }

  lemma TwiceIn(s: seq<nat>, i: nat, j: nat)
    requires i < j < |s| && s[i] == s[j]
    ensures multiset(s)[s[i]] >= 2
  {
    assert s == s[..j] + s[j..];
    assert s[i] in s[..j] && s[i] in s[j..];
    assert multiset(s)[s[i]] == multiset(s[..j])[s[i]] + multiset(s[j..])[s[i]];
  }

  lemma OnceMeansDistinct(s: seq<nat>)
    requires forall b: nat :: multiset(s)[b] <= 1
    ensures NoDuplicates(s)
  {
    forall i, j | 0 <= i < j < |s| ensures s[i] != s[j] {
      if s[i] == s[j] { TwiceIn(s, i, j); }
    }
  }

  lemma OwnsAt(g: Geometry, free: seq<nat>, qs: seq<SeqV>, i: nat)
    requires Exclusive(g.numBlocks, free, qs) && i < |qs|
    ensures Owns(g, free, qs[i].table)
  {
    forall b: nat ensures multiset(free)[b] + multiset(qs[i].table)[b] <= if b < g.numBlocks then 1 else 0 {
      CountAt(qs, i, b);
    }
    OnceMeansDistinct(free);
    OnceMeansDistinct(qs[i].table);
    forall b | b in qs[i].table ensures b < g.numBlocks && b !in free {
      assert b in multiset(qs[i].table);
      assert multiset(free)[b] + multiset(qs[i].table)[b] <= 1;
    }
    forall b | b in free ensures b < g.numBlocks {
      assert b in multiset(free);
    }
  }

  lemma ApartAt(blocks: nat, free: seq<nat>, qs: seq<SeqV>, i: nat, j: nat)
    requires Exclusive(blocks, free, qs) && i < |qs| && j < |qs| && i != j
    ensures Apart(qs[i].table, qs[j].table)
  {
    forall b | b in qs[i].table ensures b !in qs[j].table {
      SumTwo(qs, if i < j then i else j, if i < j then j else i, CountOf(b));
      assert b in multiset(qs[i].table);
      assert multiset(free)[b] + Sum(qs, CountOf(b)) <= 1;
      assert multiset(qs[j].table)[b] == 0;
    }
  }

  /** One sequence takes its turn: blocks stay counted once, and nobody else's rows move. */
  lemma TurnLeavesOthers(m: Model, blocks: nat, size: nat, rows: Rows, rows': Rows, free: seq<nat>, free': seq<nat>,
      qs: seq<SeqV>, q: SeqV, q': SeqV)
    requires size > 0 && Exclusive(blocks, free, [q] + qs) && SameBlocks(free, q.table, free', q'.table)
    requires SameOutside(rows, rows', q'.table) && AllHeld(m, rows, size, qs)
    ensures Exclusive(blocks, free', [q'] + qs)
    ensures AllHeld(m, rows', size, qs)
  {
    hide Holds, View, PagedHolds, SameOutside;
    forall b: nat ensures multiset(free')[b] + Sum([q'] + qs, CountOf(b)) <= if b < blocks then 1 else 0 {
      assert multiset(q'.table + free')[b] == multiset(q'.table)[b] + multiset(free')[b];
      assert multiset(q.table + free)[b] == multiset(q.table)[b] + multiset(free)[b];
      assert ([q] + qs)[1..] == qs && ([q'] + qs)[1..] == qs;
      assert multiset(free)[b] + Sum([q] + qs, CountOf(b)) <= if b < blocks then 1 else 0;
    }
    forall x | x in qs ensures Held(m, rows', size, x) {
      var j :| 0 <= j < |qs| && qs[j] == x;
      ApartAt(blocks, free', [q'] + qs, j + 1, 0);
      HeldFrame(m, size, rows, rows', q'.table, x);
    }
  }

  lemma HeldFrame(m: Model, size: nat, rows: Rows, rows': Rows, touched: seq<nat>, q: SeqV)
    requires size > 0 && Held(m, rows, size, q) && SameOutside(rows, rows', touched) && Apart(q.table, touched)
    ensures Held(m, rows', size, q)
  {
    hide Holds, View, Fed;
    ViewFrame(rows, rows', touched, q.table, size);
  }

  /** A sequence that has stored nothing that still counts. */
  lemma NothingFed(m: Model, rows: Rows, size: nat, q: SeqV)
    requires size > 0 && (q.state == Finished || q.state == Waiting)
    ensures Held(m, rows, size, q)
  {
    hide View;
  }

  /** No id twice. */
  ghost predicate OneEach(qs: seq<SeqV>) {
    forall id: nat :: Sum(qs, HasId(id)) <= 1
  }

  lemma OneEachPermutation(qs: seq<SeqV>, qs': seq<SeqV>)
    requires OneEach(qs) && multiset(qs) == multiset(qs')
    ensures OneEach(qs')
  {
    forall id: nat ensures Sum(qs', HasId(id)) <= 1 {
      SumPermutation(qs, qs', HasId(id));
      assert Sum(qs, HasId(id)) <= 1;
    }
  }

  /** Sequences that can share a pool: ids once, blocks once, rows in place.  The
      order of the list does not matter. */
  ghost predicate Coexist(m: Model, g: Geometry, rows: Rows, free: seq<nat>, qs: seq<SeqV>)
    requires g.blockSize > 0
  {
    OneEach(qs) && Exclusive(g.numBlocks, free, qs) && AllHeld(m, rows, g.blockSize, qs)
  }

  lemma CoexistPermutation(m: Model, g: Geometry, rows: Rows, free: seq<nat>, qs: seq<SeqV>, qs': seq<SeqV>)
    requires g.blockSize > 0 && Coexist(m, g, rows, free, qs) && multiset(qs) == multiset(qs')
    ensures Coexist(m, g, rows, free, qs')
  {
    hide Held;
    OneEachPermutation(qs, qs');
    ExclusivePermutation(g.numBlocks, free, qs, qs');
    forall q | q in qs' ensures Held(m, rows, g.blockSize, q) {
      assert q in multiset(qs') && q in multiset(qs);
    }
  }

  /** Sequences keep coexisting when one of them takes a turn. */
  lemma CoexistTurn(m: Model, g: Geometry, rows: Rows, rows': Rows, free: seq<nat>, free': seq<nat>, qs: seq<SeqV>,
      q: SeqV, q': SeqV)
    requires g.blockSize > 0 && Coexist(m, g, rows, free, [q] + qs) && q'.id == q.id
    requires SameBlocks(free, q.table, free', q'.table) && SameOutside(rows, rows', q'.table)
    requires Held(m, rows', g.blockSize, q')
    ensures Coexist(m, g, rows', free', [q'] + qs)
  {
    hide Held, SameOutside, SameBlocks;
    TurnLeavesOthers(m, g.numBlocks, g.blockSize, rows, rows', free, free', qs, q, q');
    forall id: nat ensures Sum([q'] + qs, HasId(id)) <= 1 {
      assert ([q] + qs)[1..] == qs && ([q'] + qs)[1..] == qs;
      assert Sum([q] + qs, HasId(id)) <= 1;
    }
  }
}
