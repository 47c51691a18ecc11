/** Sums over lists of sequences: the tool for conservation, counting and the
    termination measure. */
module Sums {
  import opened SchedSpec

  ghost function Sum(qs: seq<SeqV>, f: SeqV -> nat): nat
    decreases |qs|
  {
    if |qs| == 0 then 0 else f(qs[0]) + Sum(qs[1..], f)
  }

  lemma {:induction false} SumAppend(a: seq<SeqV>, b: seq<SeqV>, f: SeqV -> nat)
    ensures Sum(a + b, f) == Sum(a, f) + Sum(b, f)
    decreases |a|
  {
    if |a| == 0 {
      assert a + b == b;
    } else {
      assert (a + b)[1..] == a[1..] + b;
      SumAppend(a[1..], b, f);
    }
  }

  lemma SumOne(q: SeqV, f: SeqV -> nat)
    ensures Sum([q], f) == f(q)
  {
    assert Sum([q], f) == f(q) + Sum([q][1..], f);
  }

  lemma SumSplit(qs: seq<SeqV>, i: nat, f: SeqV -> nat)
    requires i < |qs|
    ensures Sum(qs, f) == Sum(qs[..i], f) + f(qs[i]) + Sum(qs[i + 1..], f)
  {
    assert qs == qs[..i] + ([qs[i]] + qs[i + 1..]);
    SumAppend(qs[..i], [qs[i]] + qs[i + 1..], f);
    SumAppend([qs[i]], qs[i + 1..], f);
    SumOne(qs[i], f);
  }

  lemma SumTwo(qs: seq<SeqV>, i: nat, j: nat, f: SeqV -> nat)
    requires i < j < |qs|
    ensures f(qs[i]) + f(qs[j]) <= Sum(qs, f)
  {
    SumSplit(qs, i, f);
    SumSplit(qs[i + 1..], j - i - 1, f);
  }

  /** A sum does not depend on the order of the list. */
  lemma {:induction false} SumPermutation(a: seq<SeqV>, b: seq<SeqV>, f: SeqV -> nat)
    requires multiset(a) == multiset(b)
    ensures Sum(a, f) == Sum(b, f)
    decreases |a|
  {
    if |a| == 0 {
      assert |multiset(b)| == 0;
    } else {
      assert a[0] in multiset(b);
      var i :| 0 <= i < |b| && b[i] == a[0];
      SameWithoutOne(a, b, i);
      SumPermutation(a[1..], b[..i] + b[i + 1..], f);
      SumSplit(b, i, f);
      SumAppend(b[..i], b[i + 1..], f);
    }
  }

  lemma SameWithoutOne(a: seq<SeqV>, b: seq<SeqV>, i: nat)
    requires |a| > 0 && i < |b| && b[i] == a[0] && multiset(a) == multiset(b)
    ensures multiset(a[1..]) == multiset(b[..i] + b[i + 1..])
  {
    var front, back := b[..i], b[i + 1..];
    assert a == [a[0]] + a[1..];
    assert b == front + ([a[0]] + back);
    assert multiset([a[0]] + a[1..]) == multiset([a[0]]) + multiset(a[1..]);
    assert multiset(front + ([a[0]] + back)) == multiset(front) + (multiset([a[0]]) + multiset(back));
    assert multiset(front + back) == multiset(front) + multiset(back);
    forall q: SeqV ensures multiset(a[1..])[q] == multiset(front + back)[q] {
      assert multiset(a)[q] == multiset([a[0]])[q] + multiset(a[1..])[q];
      assert multiset(b)[q] == multiset(front)[q] + multiset([a[0]])[q] + multiset(back)[q];
    }
  }

  lemma {:induction false} SumBelow(qs: seq<SeqV>, f: SeqV -> nat, g: SeqV -> nat)
    requires forall q | q in qs :: f(q) <= g(q)
    ensures Sum(qs, f) <= Sum(qs, g)
    decreases |qs|
  {
    if |qs| > 0 {
      assert qs[0] in qs && forall q | q in qs[1..] :: q in qs;
      SumBelow(qs[1..], f, g);
    }
  }

  lemma {:induction false} SumAtMost(qs: seq<SeqV>, f: SeqV -> nat, most: nat)
    requires forall q | q in qs :: f(q) <= most
    ensures Sum(qs, f) <= |qs| * most
    decreases |qs|
  {
    if |qs| > 0 {
      assert qs[0] in qs && forall q | q in qs[1..] :: q in qs;
      SumAtMost(qs[1..], f, most);
      assert |qs| * most == most + (|qs| - 1) * most;
    }
  }

  // ---- What is summed ----

  ghost function CountOf(b: nat): SeqV -> nat { (q: SeqV) => multiset(q.table)[b] }

  ghost function TableLen(): SeqV -> nat { (q: SeqV) => |q.table| }

  ghost function HasId(id: nat): SeqV -> nat { (q: SeqV) => if q.id == id then 1 else 0 }

  ghost function CursorOf(): SeqV -> nat { (q: SeqV) => q.cursor }

  /** Transitions a sequence still has before it is done: one to be admitted, one for
      every prompt position and every token to come, one to be cleared away. */
  function Weight(q: SeqV): nat {
    match q.state
    case Waiting => 4 + q.promptLen + q.maxNew
    case Prefilling => 3 + Minus(q.promptLen, q.cursor) + q.maxNew
    case Running => 2 + Minus(q.promptLen + q.maxNew, |q.tokens|)
    case Finished => 1
  }

  function Minus(a: nat, b: nat): nat { if a >= b then a - b else 0 }

  ghost function WeightOf(): SeqV -> nat { (q: SeqV) => Weight(q) }
}
