/** Results in enqueue order. */
module SchedResults {
  import opened SchedSpec
  import opened Sums
  import opened SchedProofs

  ghost predicate Ascending(rs: seq<ResultV>) {
    forall i, j | 0 <= i < j < |rs| :: rs[i].id <= rs[j].id
  }

  function InsertById(rs: seq<ResultV>, x: ResultV): (out: seq<ResultV>)
    ensures multiset(out) == multiset(rs) + multiset{x}
    ensures Ascending(rs) ==> Ascending(out)
  {
    if |rs| == 0 then [x]
    else if rs[|rs| - 1].id <= x.id then rs + [x]
    else
      assert rs == rs[..|rs| - 1] + [rs[|rs| - 1]];
      var out := InsertById(rs[..|rs| - 1], x);
      assert Ascending(rs) ==> Ascending(out + [rs[|rs| - 1]]) by {
        InsertBelow(rs, x, out);
      }
      out + [rs[|rs| - 1]]
  }

  lemma InsertBelow(rs: seq<ResultV>, x: ResultV, out: seq<ResultV>)
    requires |rs| > 0 && x.id < rs[|rs| - 1].id
    requires multiset(out) == multiset(rs[..|rs| - 1]) + multiset{x}
    requires Ascending(rs) ==> Ascending(out)
    ensures Ascending(rs) ==> Ascending(out + [rs[|rs| - 1]])
  {
    if Ascending(rs) {
      forall i | 0 <= i < |out| ensures out[i].id <= rs[|rs| - 1].id {
        assert out[i] in multiset(out);
        assert out[i] == x || out[i] in rs[..|rs| - 1];
      }
    }
  }

  /** A copy sorted by id. */
  function SortedById(rs: seq<ResultV>): (out: seq<ResultV>)
    ensures multiset(out) == multiset(rs)
    ensures Ascending(out)
  {
    if |rs| == 0 then []
    else
      assert rs == rs[..|rs| - 1] + [rs[|rs| - 1]];
      InsertById(SortedById(rs[..|rs| - 1]), rs[|rs| - 1])
  }

  // ---- One entry per request ----

  /** How many results carry this id. */
  ghost function Entries(rs: seq<ResultV>, id: nat): nat {
    if |rs| == 0 then 0 else Entries(rs[..|rs| - 1], id) + if rs[|rs| - 1].id == id then 1 else 0
  }

  lemma {:induction false} EntriesAppend(a: seq<ResultV>, b: seq<ResultV>, id: nat)
    ensures Entries(a + b, id) == Entries(a, id) + Entries(b, id)
    decreases |b|
  {
    if |b| == 0 {
      assert a + b == a;
    } else {
      assert (a + b)[..|a + b| - 1] == a + b[..|b| - 1];
      EntriesAppend(a, b[..|b| - 1], id);
    }
  }

  lemma {:induction false} EntriesPermutation(a: seq<ResultV>, b: seq<ResultV>, id: nat)
    requires multiset(a) == multiset(b)
    ensures Entries(a, id) == Entries(b, id)
    decreases |a|
  {
    if |a| == 0 {
      assert |multiset(b)| == 0;
    } else {
      var last := a[|a| - 1];
      assert last in multiset(b);
      var i :| 0 <= i < |b| && b[i] == last;
      WithoutOne(a, b, i);
      EntriesPermutation(a[..|a| - 1], b[..i] + b[i + 1..], id);
      EntriesAt(b, i, id);
    }
  }

  lemma WithoutOne(a: seq<ResultV>, b: seq<ResultV>, i: nat)
    requires |a| > 0 && i < |b| && b[i] == a[|a| - 1] && multiset(a) == multiset(b)
    ensures multiset(a[..|a| - 1]) == multiset(b[..i] + b[i + 1..])
  {
    assert a == a[..|a| - 1] + [b[i]];
    TakenFrom(b, i);
    var rest, left := multiset(a[..|a| - 1]), multiset(b[..i] + b[i + 1..]);
    assert multiset(a) == rest + multiset{b[i]};
    forall x: ResultV ensures rest[x] == left[x] {
      assert (rest + multiset{b[i]})[x] == (left + multiset{b[i]})[x];
    }
  }

  lemma TakenFrom(b: seq<ResultV>, i: nat)
    requires i < |b|
    ensures multiset(b) == multiset(b[..i] + b[i + 1..]) + multiset{b[i]}
  {
    assert b == b[..i] + [b[i]] + b[i + 1..];
  }

  lemma EntriesAt(b: seq<ResultV>, i: nat, id: nat)
    requires i < |b|
    ensures Entries(b, id) == Entries(b[..i] + b[i + 1..], id) + if b[i].id == id then 1 else 0
  {
    assert b == b[..i] + ([b[i]] + b[i + 1..]);
    EntriesAppend(b[..i], [b[i]] + b[i + 1..], id);
    EntriesAppend([b[i]], b[i + 1..], id);
    EntriesAppend(b[..i], b[i + 1..], id);
    assert [b[i]][..0] == [];
    assert Entries([b[i]], id) == Entries([], id) + if b[i].id == id then 1 else 0;
  }

  lemma {:induction false} EntriesOfDone(qs: seq<SeqV>, id: nat)
    ensures Entries(Snapshots(qs), id) == Sum(qs, HasId(id))
    decreases |qs|
  {
    if |qs| > 0 {
      var front, last := qs[..|qs| - 1], qs[|qs| - 1];
      assert qs == front + [last];
      EntriesOfDone(front, id);
      SumAppend(front, [last], HasId(id));
      SumOne(last, HasId(id));
      assert Snapshots(qs)[..|qs| - 1] == Snapshots(front);
    }
  }

  lemma {:induction false} EntriesTwo(rs: seq<ResultV>, i: nat, j: nat)
    requires i < j < |rs| && rs[i].id == rs[j].id
    ensures Entries(rs, rs[i].id) >= 2
    decreases |rs|
  {
    var id := rs[i].id;
    assert rs == rs[..j] + rs[j..] && rs[..j] == rs[..i] + rs[i..j];
    EntriesAppend(rs[..j], rs[j..], id);
    EntriesAppend(rs[..i], rs[i..j], id);
    EntriesHead(rs[i..j]);
    EntriesHead(rs[j..]);
  }

  lemma EntriesHead(rs: seq<ResultV>)
    requires |rs| > 0
    ensures Entries(rs, rs[0].id) >= 1
  {
    assert rs == [rs[0]] + rs[1..];
    EntriesAppend([rs[0]], rs[1..], rs[0].id);
    assert [rs[0]][..0] == [];
    assert Entries([rs[0]], rs[0].id) == Entries([], rs[0].id) + 1;
  }

  lemma {:induction false} EntryExists(rs: seq<ResultV>, id: nat)
    requires Entries(rs, id) > 0
    ensures exists i :: 0 <= i < |rs| && rs[i].id == id
    decreases |rs|
  {
    if rs[|rs| - 1].id != id {
      EntryExists(rs[..|rs| - 1], id);
      var i :| 0 <= i < |rs| - 1 && rs[..|rs| - 1][i].id == id;
      assert rs[i].id == id;
    }
  }

  /** A sorted list with each of the ids below `n` once has id `k` at place `k`. */
  lemma {:induction false} InOrder(rs: seq<ResultV>, n: nat, k: nat)
    requires Ascending(rs) && k <= n
    requires forall id: nat :: Entries(rs, id) == if id < n then 1 else 0
    ensures k <= |rs| && forall i | 0 <= i < k :: rs[i].id == i
    decreases k
  {
    if k > 0 {
      InOrder(rs, n, k - 1);
      assert Entries(rs, k - 1) == 1;
      EntryExists(rs, k - 1);
      var j :| 0 <= j < |rs| && rs[j].id == k - 1;
      assert rs[k - 1].id <= rs[j].id;
      if rs[k - 1].id < k - 1 {
        var id := rs[k - 1].id;
        assert Entries(rs, id) == 1;
        EntriesTwo(rs, id, k - 1);
        assert false;
      }
    }
  }

  /** When the scheduler is idle and nothing was cleared, the results in order are one
      per request, in the order they were enqueued. */
  lemma ResultsAreComplete(c: Config, s: SchedV)
    requires c.Valid() && Inv(c, s) && s.Idle() && |s.results| == |s.done|
    ensures var out := SortedById(s.results); |out| == |s.requests| && forall i | 0 <= i < |out| :: out[i].id == i
  {
    hide Sorted, Conserved, Fifo, SortedById;
    var out, n := SortedById(s.results), |s.requests|;
    assert s.done[0..] == s.done;
    forall id: nat ensures Entries(out, id) == if id < n then 1 else 0 {
      EntriesPermutation(out, s.results, id);
      EntriesOfDone(s.done, id);
      assert AllSum(s, HasId(id)) == Sum(s.done, HasId(id));
    }
    InOrder(out, n, n);
    if |out| > n {
      assert Entries(out, out[n].id) == if out[n].id < n then 1 else 0;
      Overfull(out, n);
      assert false;
    }
  }

  lemma Overfull(rs: seq<ResultV>, n: nat)
    requires |rs| > n && forall i | 0 <= i < n :: rs[i].id == i
    ensures Entries(rs, rs[n].id) > if rs[n].id < n then 1 else 0
  {
    var x := rs[n];
    assert rs == rs[..n] + rs[n..];
    EntriesAppend(rs[..n], rs[n..], x.id);
    EntriesHead(rs[n..]);
    if x.id < n {
      EntriesTwo(rs, x.id, n);
    }
  }

  // ---- A step drops no result ----

  /** Results grow at the end, one for every sequence that is done. */
  ghost predicate NoResultLost(s: SchedV, s': SchedV) {
    s.results <= s'.results && |s'.results| - |s.results| == |s'.done| - |s.done|
  }

  lemma NoneLostTransitive(s: SchedV, t: SchedV, u: SchedV)
    requires NoResultLost(s, t) && NoResultLost(t, u)
    ensures NoResultLost(s, u)
  {
  }

  lemma SweepLosesNone(s: SchedV, s': SchedV)
    requires FinalizePrefilling(s, s') || FinalizeRunning(s, s')
    ensures NoResultLost(s, s')
  {
  }

  lemma {:induction false} AdmitLosesNone(c: Config, s: SchedV)
    ensures Admit(c, s).results == s.results && Admit(c, s).done == s.done
    decreases |s.waiting|
  {
    if |s.waiting| == 0 || |s.running| + |s.prefilling| >= c.maxConcurrent {
    } else {
      AdmitLosesNone(c,
        s.(waiting := s.waiting[1..], prefilling := s.prefilling + [s.waiting[0].(state := Prefilling)]));
    }
  }

  /** A step adds a result for each sequence it finds finished and takes none away. */
  lemma StepLosesNone(c: Config, s: SchedV, s': SchedV)
    requires c.Valid() && Step(c, s, s')
    ensures NoResultLost(s, s')
  {
    hide FinalizePrefilling, FinalizeRunning, HaveTokens, Admit, Advance, DecodePass;
    var s1, s2 :|
      && FinalizePrefilling(s, s1) && FinalizeRunning(s1, s2)
      && HaveTokens(Admit(c, s2).prefilling)
      && HaveTokens(AdvanceAll(c, Admit(c, s2)).running)
      && s' == DecodeAll(c, AdvanceAll(c, Admit(c, s2)));
    SweepLosesNone(s, s1);
    SweepLosesNone(s1, s2);
    AdmitLosesNone(c, s2);
  }
}
