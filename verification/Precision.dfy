/** When the schedulers and `generate` agree: the paged pool keeps single precision in
    every mode, the contiguous cache only in the single-precision one.

    The arithmetic is held fixed here (casts, rotation, attention, residual addition,
    comparison); what a checkpoint brings (embedding, projections, feed-forward, head,
    sizes) ranges freely. */
module Precision {
  import opened Numeric
  import opened Meaning
  import opened Generation
  import opened EngineCore

  /** What the engine computes with, whatever the weights are. */
  datatype Arithmetic = Arithmetic(
    kvHeads: nat,
    headDim: nat,
    casts: Casts,
    rope: (nat, Row) -> Row,
    attend: (Row, seq<Row>, seq<Row>) -> Row,
    add: (Row, Row) -> Row,
    gt: (Float32, Float32) -> bool)
  {
    function KvDim(): nat { kvHeads * headDim }

    ghost predicate Valid() {
      && kvHeads >= 1 && headDim >= 1
      && (forall p: nat, r: Row :: |rope(p, r)| == |r|)
      && (forall x, y :: gt(x, y) ==> !gt(y, x))
    }
  }

  function ArithmeticOf(m: Model): Arithmetic {
    Arithmetic(m.kvHeads, m.headDim, m.casts, m.rope, m.attend, m.add, m.gt)
  }

  /** With this arithmetic, a cache of this precision decodes what the pool decodes, for
      all weights and all requests. */
  ghost predicate AgreesWithPool(a: Arithmetic, dt: Dtype) {
    forall m: Model, prompt: seq<int>, maxNew: nat
      | m.Valid() && ArithmeticOf(m) == a && RequestOk(m, prompt, maxNew) ::
      Greedy(m, dt, prompt, maxNew) == Greedy(m, F32, prompt, maxNew)
  }

  // ---- What it takes to notice ----

  /** Keys rotated to their positions. */
  function Rotated(a: Arithmetic, ks: seq<Row>): (rs: seq<Row>)
    ensures |rs| == |ks|
  {
    seq(|ks|, p requires 0 <= p < |ks| => a.rope(p, ks[p]))
  }

  /** The attention of the last of these positions, over rows stored in a precision. */
  function Attended(a: Arithmetic, dt: Dtype, q: Row, ks: seq<Row>, vs: seq<Row>): Row
    requires |ks| > 0
  {
    a.attend(a.rope(|ks| - 1, q), StoredRows(a.casts, dt, Rotated(a, ks)), StoredRows(a.casts, dt, vs))
  }

  ghost predicate IsHistory(a: Arithmetic, ks: seq<Row>, vs: seq<Row>) {
    && |ks| == |vs| > 0
    && (forall p | 0 <= p < |ks| :: |ks[p]| == |vs[p]| == a.KvDim())
  }

  /** Some history gives another attention output once its rows have been narrowed. */
  ghost predicate Reads(a: Arithmetic) {
    exists q: Row, ks: seq<Row>, vs: seq<Row> :: IsHistory(a, ks, vs) && ReadsOn(a, q, ks, vs)
  }

  ghost predicate ReadsOn(a: Arithmetic, q: Row, ks: seq<Row>, vs: seq<Row>)
    requires |ks| > 0
  {
    Attended(a, F16, q, ks, vs) != Attended(a, F32, q, ks, vs)
  }

  /** Two residual updates of one row can end differently. */
  ghost predicate Carries(a: Arithmetic) {
    exists h: Row, x: Row, y: Row, f: Row, g: Row :: CarriesOn(a, h, x, y, f, g)
  }

  ghost predicate CarriesOn(a: Arithmetic, h: Row, x: Row, y: Row, f: Row, g: Row) {
    a.add(h, x) != a.add(h, y) && a.add(a.add(h, x), f) != a.add(a.add(h, y), g)
  }

  /** Some logit beats another. */
  ghost predicate Chooses(a: Arithmetic) {
    exists x: Float32, y: Float32 :: a.gt(x, y)
  }

  // ---- All three are enough for weights whose tokens differ ----

  /** A one-layer model over the prompt 0, 1, ..., n - 1.  The embedding tells the
      positions apart, so the projections can give each its own query, key and value;
      the output projection and the feed-forward send the two attention outputs down
      the two branches; the head prefers token 1 on one of them. */
  function Witness(a: Arithmetic, q: Row, ks: seq<Row>, vs: seq<Row>, h: Row, x: Row, y: Row, f: Row, g: Row,
      hi: Float32, lo: Float32): Model
    requires |ks| == |vs| > 0
  {
    var n := |ks|;
    var wide := Attended(a, F32, q, ks, vs);
    var end := a.add(a.add(h, x), f);
    Model(1, a.kvHeads, a.headDim, a.KvDim(), n + 1, n + 1, {}, a.casts, [],
      (t: int) => Embedding(h, n, t),
      (_: nat, _: Row) => q,
      (_: nat, r: Row) => ks[PositionOf(h, n, r)],
      (_: nat, r: Row) => vs[PositionOf(h, n, r)],
      a.rope,
      a.attend,
      (_: nat, r: Row) => if r == wide then x else y,
      (_: nat, r: Row) => if r == a.add(h, x) then f else g,
      a.add,
      (r: Row) => Preferring(n + 1, r == end, hi, lo),
      a.gt)
  }

  /** The last position embeds as `h`, the others as longer rows, each of its own length. */
  function Embedding(h: Row, n: nat, t: int): Row {
    if 0 <= t < n - 1 then seq(|h| + 1 + t, _ => 0) else h
  }

  function PositionOf(h: Row, n: nat, r: Row): (p: nat)
    requires n > 0
    ensures p < n
  {
    if |h| < |r| < |h| + n then |r| - |h| - 1 else n - 1
  }

  lemma EmbeddingKnowsPosition(h: Row, n: nat, t: nat)
    requires t < n
    ensures PositionOf(h, n, Embedding(h, n, t)) == t
  {
  }

  /** Logits for `n` tokens that favour token 1, or nobody. */
  function Preferring(n: nat, second: bool, hi: Float32, lo: Float32): (xs: Row)
    ensures |xs| == n
  {
    seq(n, i => if i == 1 && second then hi else lo)
  }

  lemma {:induction false} ChampionOf(a: Arithmetic, n: nat, second: bool, hi: Float32, lo: Float32, k: nat)
    requires a.Valid() && a.gt(hi, lo) && 2 <= k <= n
    ensures Champion(a.gt, Preferring(n, second, hi, lo)[..k]) == if second then 1 else 0
    decreases k
  {
    var xs := Preferring(n, second, hi, lo);
    assert xs[..k][..k - 1] == xs[..k - 1];
    if k == 2 {
      assert xs[..1] == [xs[0]];
    } else {
      ChampionOf(a, n, second, hi, lo, k - 1);
    }
  }

  /** The tokens 0, 1, ..., n - 1. */
  function Counting(n: nat): (ts: seq<int>)
    ensures |ts| == n
  {
    seq(n, i => i)
  }

  lemma CountingPrefix(n: nat, p: nat)
    requires p < n
    ensures |Counting(n)[..p + 1]| == p + 1 && Counting(n)[..p + 1][p] == p
  {
  }

  lemma WitnessValid(a: Arithmetic, q: Row, ks: seq<Row>, vs: seq<Row>, h: Row, x: Row, y: Row, f: Row, g: Row,
      hi: Float32, lo: Float32)
    requires a.Valid() && IsHistory(a, ks, vs)
    ensures var m := Witness(a, q, ks, vs, h, x, y, f, g, hi, lo);
      m.Valid() && ArithmeticOf(m) == a && RequestOk(m, Counting(|ks|), 1)
  {
  }

  /** Its caches hold the keys and values asked for. */
  lemma WitnessRows(a: Arithmetic, q: Row, ks: seq<Row>, vs: seq<Row>, h: Row, x: Row, y: Row, f: Row, g: Row,
      hi: Float32, lo: Float32, dt: Dtype)
    requires |ks| == |vs| > 0
    ensures var m, ts := Witness(a, q, ks, vs, h, x, y, f, g, hi, lo), Counting(|ks|);
      Keys(m, dt, ts, 0) == StoredRows(a.casts, dt, Rotated(a, ks))
        && Values(m, dt, ts, 0) == StoredRows(a.casts, dt, vs)
  {
    hide PositionOf, Embedding, Hidden, Keys, Values;
    var m, ts := Witness(a, q, ks, vs, h, x, y, f, g, hi, lo), Counting(|ks|);
    forall p | 0 <= p < |ks|
      ensures ks[p] == m.kProj(0, Hidden(m, dt, ts[..p + 1], 0)) && vs[p] == m.vProj(0, Hidden(m, dt, ts[..p + 1], 0))
    {
      CountingPrefix(|ks|, p);
      EmbeddingKnowsPosition(h, |ks|, p);
      Embedded(m, dt, ts[..p + 1]);
    }
    RowsFrom(m, dt, ts, 0, ks, vs);
  }

  lemma Embedded(m: Model, dt: Dtype, ts: seq<int>)
    requires |ts| > 0
    ensures Hidden(m, dt, ts, 0) == m.embed(ts[|ts| - 1])
  {
  }

  /** And its last hidden row ends on the branch its attention output chose. */
  lemma WitnessHidden(a: Arithmetic, q: Row, ks: seq<Row>, vs: seq<Row>, h: Row, x: Row, y: Row, f: Row, g: Row,
      hi: Float32, lo: Float32, dt: Dtype)
    requires |ks| == |vs| > 0 && CarriesOn(a, h, x, y, f, g)
    ensures var m := Witness(a, q, ks, vs, h, x, y, f, g, hi, lo);
      Hidden(m, dt, Counting(|ks|), 1)
        == if Attended(a, dt, q, ks, vs) == Attended(a, F32, q, ks, vs) then a.add(a.add(h, x), f)
           else a.add(a.add(h, y), g)
  {
    hide Stored, StoredRows, Rotated, Keys, Values;
    var m, ts := Witness(a, q, ks, vs, h, x, y, f, g, hi, lo), Counting(|ks|);
    WitnessRows(a, q, ks, vs, h, x, y, f, g, hi, lo, dt);
    assert Hidden(m, dt, ts, 0) == h;
  }

  lemma WitnessToken(a: Arithmetic, q: Row, ks: seq<Row>, vs: seq<Row>, h: Row, x: Row, y: Row, f: Row, g: Row,
      hi: Float32, lo: Float32, dt: Dtype)
    requires a.Valid() && IsHistory(a, ks, vs) && CarriesOn(a, h, x, y, f, g) && a.gt(hi, lo)
    ensures var m := Witness(a, q, ks, vs, h, x, y, f, g, hi, lo);
      m.Valid() && NextToken(m, dt, Counting(|ks|))
        == if Attended(a, dt, q, ks, vs) == Attended(a, F32, q, ks, vs) then 1 else 0
  {
    hide Hidden, Attended;
    var m := Witness(a, q, ks, vs, h, x, y, f, g, hi, lo);
    var n := |ks| + 1;
    WitnessValid(a, q, ks, vs, h, x, y, f, g, hi, lo);
    WitnessHidden(a, q, ks, vs, h, x, y, f, g, hi, lo, dt);
    var second := Attended(a, dt, q, ks, vs) == Attended(a, F32, q, ks, vs);
    ChampionOf(a, n, second, hi, lo, n);
    assert Preferring(n, second, hi, lo)[..n] == Preferring(n, second, hi, lo);
  }

  lemma NoticedLossChangesTokens(a: Arithmetic)
    requires a.Valid() && Reads(a) && Carries(a) && Chooses(a)
    ensures !AgreesWithPool(a, F16)
  {
    hide NextToken, Attended, CarriesOn;
    var q, ks, vs :| IsHistory(a, ks, vs) && ReadsOn(a, q, ks, vs);
    var h, x, y, f, g :| CarriesOn(a, h, x, y, f, g);
    var hi, lo :| a.gt(hi, lo);
    var m, ts := Witness(a, q, ks, vs, h, x, y, f, g, hi, lo), Counting(|ks|);
    WitnessValid(a, q, ks, vs, h, x, y, f, g, hi, lo);
    WitnessToken(a, q, ks, vs, h, x, y, f, g, hi, lo, F16);
    WitnessToken(a, q, ks, vs, h, x, y, f, g, hi, lo, F32);
    OneToken(m, F16, ts);
    OneToken(m, F32, ts);
    assert (ts + [0])[|ts|] != (ts + [1])[|ts|];
  }

  lemma OneToken(m: Model, dt: Dtype, ts: seq<int>)
    requires m.Valid() && |ts| > 0 && m.eos == {}
    ensures Greedy(m, dt, ts, 1).tokens == ts + [NextToken(m, dt, ts)]
  {
    hide NextToken;
    assert Greedy(m, dt, ts + [NextToken(m, dt, ts)], 0).tokens == ts + [NextToken(m, dt, ts)];
  }

  // ---- And none can be missing ----

  /** If attention never tells, or the residual stream never carries on what it said,
      every hidden row is the same in both precisions. */
  lemma {:induction false} UnnoticedHidden(m: Model, ts: seq<int>, l: nat)
    requires m.Valid() && (!Reads(ArithmeticOf(m)) || !Carries(ArithmeticOf(m))) && |ts| > 0
    ensures Hidden(m, F16, ts, l) == Hidden(m, F32, ts, l)
    decreases l, 0
  {
    hide Reads, Carries;
    if l == 0 {
    } else {
      UnnoticedHidden(m, ts, l - 1);
      UnnoticedLayer(m, ts, l - 1);
    }
  }

  lemma UnnoticedLayer(m: Model, ts: seq<int>, l: nat)
    requires m.Valid() && (!Reads(ArithmeticOf(m)) || !Carries(ArithmeticOf(m))) && |ts| > 0
    requires Hidden(m, F16, ts, l) == Hidden(m, F32, ts, l)
    ensures Hidden(m, F16, ts, l + 1) == Hidden(m, F32, ts, l + 1)
    decreases l, 2
  {
    hide Reads, Carries, Hidden, EndLayer;
    var h := Hidden(m, F32, ts, l);
    var q := m.rope(|ts| - 1, m.qProj(l, h));
    var narrow := m.attend(q, Keys(m, F16, ts, l), Values(m, F16, ts, l));
    var wide := m.attend(q, Keys(m, F32, ts, l), Values(m, F32, ts, l));
    HiddenNext(m, F16, ts, l);
    HiddenNext(m, F32, ts, l);
    if !Reads(ArithmeticOf(m)) {
      UnreadAttention(m, ts, l, m.qProj(l, h));
    } else {
      UncarriedEnd(m, l, h, wide, narrow);
    }
  }

  lemma HiddenNext(m: Model, dt: Dtype, ts: seq<int>, l: nat)
    requires |ts| > 0
    ensures var h := Hidden(m, dt, ts, l);
      Hidden(m, dt, ts, l + 1)
        == EndLayer(m, l, h, m.attend(m.rope(|ts| - 1, m.qProj(l, h)), Keys(m, dt, ts, l), Values(m, dt, ts, l)))
  {
    hide EndLayer, Keys, Values;
  }

  lemma UncarriedEnd(m: Model, l: nat, h: Row, wide: Row, narrow: Row)
    requires !Carries(ArithmeticOf(m))
    ensures EndLayer(m, l, h, wide) == EndLayer(m, l, h, narrow)
  {
    var x, y := m.oProj(l, wide), m.oProj(l, narrow);
    assert !CarriesOn(ArithmeticOf(m), h, x, y, m.ffn(l, m.add(h, x)), m.ffn(l, m.add(h, y)));
  }

  lemma UnreadAttention(m: Model, ts: seq<int>, l: nat, q: Row)
    requires m.Valid() && !Reads(ArithmeticOf(m)) && |ts| > 0
    ensures m.attend(m.rope(|ts| - 1, q), Keys(m, F16, ts, l), Values(m, F16, ts, l))
         == m.attend(m.rope(|ts| - 1, q), Keys(m, F32, ts, l), Values(m, F32, ts, l))
    decreases l, 1
  {
    hide Reads, Hidden, Stored, Keys, Values;
    var a := ArithmeticOf(m);
    var ks := seq(|ts|, p requires 0 <= p < |ts| => m.kProj(l, Hidden(m, F32, ts[..p + 1], l)));
    var vs := seq(|ts|, p requires 0 <= p < |ts| => m.vProj(l, Hidden(m, F32, ts[..p + 1], l)));
    forall p | 0 <= p < |ts|
      ensures ks[p] == m.kProj(l, Hidden(m, F16, ts[..p + 1], l)) && vs[p] == m.vProj(l, Hidden(m, F16, ts[..p + 1], l))
    {
      UnnoticedHidden(m, ts[..p + 1], l);
    }
    RowsFrom(m, F16, ts, l, ks, vs);
    RowsFrom(m, F32, ts, l, ks, vs);
    NotRead(a, q, ks, vs);
  }

  lemma NotRead(a: Arithmetic, q: Row, ks: seq<Row>, vs: seq<Row>)
    requires !Reads(a) && IsHistory(a, ks, vs)
    ensures Attended(a, F16, q, ks, vs) == Attended(a, F32, q, ks, vs)
  {
    hide Attended;
    assert !ReadsOn(a, q, ks, vs);
  }

  /** What the caches return, from raw keys and values. */
  lemma RowsFrom(m: Model, dt: Dtype, ts: seq<int>, l: nat, ks: seq<Row>, vs: seq<Row>)
    requires |ts| == |ks| == |vs| > 0
    requires forall p | 0 <= p < |ts| ::
      ks[p] == m.kProj(l, Hidden(m, dt, ts[..p + 1], l)) && vs[p] == m.vProj(l, Hidden(m, dt, ts[..p + 1], l))
    ensures var a := ArithmeticOf(m);
      Keys(m, dt, ts, l) == StoredRows(a.casts, dt, Rotated(a, ks))
        && Values(m, dt, ts, l) == StoredRows(a.casts, dt, vs)
  {
    hide Hidden, Stored;
  }

  lemma {:induction false} NobodyChosen(gt: (Float32, Float32) -> bool, xs: Row)
    requires |xs| > 0 && forall x, y :: !gt(x, y)
    ensures Champion(gt, xs) == 0
    decreases |xs|
  {
    if |xs| == 1 {
    } else {
      NobodyChosen(gt, xs[..|xs| - 1]);
    }
  }

  lemma UnnoticedToken(m: Model, ts: seq<int>)
    requires m.Valid() && |ts| > 0
    requires var a := ArithmeticOf(m); !Reads(a) || !Carries(a) || !Chooses(a)
    ensures NextToken(m, F16, ts) == NextToken(m, F32, ts)
  {
    hide Reads, Carries, Hidden;
    if !Chooses(ArithmeticOf(m)) {
      assert forall x, y :: ArithmeticOf(m).gt(x, y) == m.gt(x, y);
      NobodyChosen(m.gt, Logits(m, F16, ts));
      NobodyChosen(m.gt, Logits(m, F32, ts));
    } else {
      UnnoticedHidden(m, ts, m.layers);
    }
  }

  lemma {:induction false} UnnoticedGreedy(m: Model, ts: seq<int>, left: nat)
    requires m.Valid() && |ts| > 0
    requires var a := ArithmeticOf(m); !Reads(a) || !Carries(a) || !Chooses(a)
    ensures Greedy(m, F16, ts, left) == Greedy(m, F32, ts, left)
    decreases left
  {
    hide Reads, Carries, Chooses, NextToken;
    if left == 0 {
    } else {
      UnnoticedToken(m, ts);
      UnnoticedGreedy(m, ts + [NextToken(m, F32, ts)], left - 1);
    }
  }

  /** For any fixed arithmetic: half-precision storage never changes a decoded token, for
      any weights, if and only if attention cannot tell narrowed rows from the rows they
      came from, or residual addition cannot pass a difference on, or no logit ever
      beats another. */
  lemma AgreesExactly(a: Arithmetic)
    requires a.Valid()
    ensures AgreesWithPool(a, F16) <==> !(Reads(a) && Carries(a) && Chooses(a))
  {
    hide Reads, Carries, Chooses, Greedy;
    if Reads(a) && Carries(a) && Chooses(a) {
      NoticedLossChangesTokens(a);
    } else {
      forall m: Model, prompt: seq<int>, maxNew: nat
        | m.Valid() && ArithmeticOf(m) == a && RequestOk(m, prompt, maxNew)
        ensures Greedy(m, F16, prompt, maxNew) == Greedy(m, F32, prompt, maxNew)
      {
        UnnoticedGreedy(m, prompt, maxNew);
      }
    }
  }

  // ---- 16 bits do not hold 32 ----

  /** The pattern of a positive normal number. */
  predicate Normal(x: Float32) {
    0x0080_0000 <= x < 0x7F80_0000
  }

  /** The pattern `n` after the smallest of them. */
  function NthNormal(n: nat): (x: Float32)
    requires n <= 0x1_0000
    ensures Normal(x) && x as int == 0x0080_0000 + n
  {
    (0x0080_0000 + n) as Float32
  }

  /** Every positive normal number survives the trip through the narrow precision. */
  ghost predicate KeepsNormals(c: Casts) {
    forall x: Float32 | Normal(x) :: c.widen(c.narrow(x)) == x
  }

  /** The narrow patterns of the first `n` normal numbers. */
  ghost function Narrowed(c: Casts, n: nat): (s: set<int>)
    requires n <= 0x1_0001
    ensures forall h | h in s :: 0 <= h < 0x1_0000
    ensures forall h | h in s :: exists i: nat :: i < n && c.narrow(NthNormal(i)) as int == h
  {
    if n == 0 then {} else Narrowed(c, n - 1) + {c.narrow(NthNormal(n - 1)) as int}
  }

  lemma SameNarrow(c: Casts, x: Float32, y: Float32)
    requires KeepsNormals(c) && Normal(x) && Normal(y) && c.narrow(x) == c.narrow(y)
    ensures x == y
  {
    assert c.widen(c.narrow(x)) == x && c.widen(c.narrow(y)) == y;
  }

  lemma {:induction false} NarrowedDistinct(c: Casts, n: nat)
    requires KeepsNormals(c) && n <= 0x1_0001
    ensures |Narrowed(c, n)| == n
    decreases n
  {
    if n == 0 {
    } else {
      NarrowedDistinct(c, n - 1);
      NewNarrow(c, n - 1);
    }
  }

  lemma NewNarrow(c: Casts, n: nat)
    requires KeepsNormals(c) && n <= 0x1_0000
    ensures c.narrow(NthNormal(n)) as int !in Narrowed(c, n)
  {
    forall i: nat | i < n ensures c.narrow(NthNormal(i)) != c.narrow(NthNormal(n)) {
      if c.narrow(NthNormal(i)) == c.narrow(NthNormal(n)) { SameNarrow(c, NthNormal(i), NthNormal(n)); }
    }
  }

  lemma {:induction false} AtMost(s: set<int>, n: nat)
    requires forall h | h in s :: 0 <= h < n
    ensures |s| <= n
    decreases n
  {
    if n == 0 {
      assert forall h: int :: h in s ==> 0 <= h < 0;
      assert s == {};
    } else {
      AtMost(s - {n - 1}, n - 1);
    }
  }

  /** Whatever the casts are, some positive normal number is lost. */
  lemma NeverLossless(c: Casts)
    ensures exists x: Float32 :: Normal(x) && c.widen(c.narrow(x)) != x
  {
    if KeepsNormals(c) {
      var n := 0x1_0001;
      NarrowedDistinct(c, n);
      AtMost(Narrowed(c, n), 0x1_0000);
    }
  }

  // ---- Attention that copies ----

  function Fill(d: nat, x: Float32): (row: Row)
    ensures |row| == d
  {
    seq(d, _ => x)
  }

  /** With some query and key, attention over a single position shows a normal value it
      was given: softmax of one score is one. */
  ghost predicate Copies(a: Arithmetic) {
    exists q: Row, k: Row :: |k| == a.KvDim() && CopiesWith(a, q, k)
  }

  ghost predicate CopiesWith(a: Arithmetic, q: Row, k: Row) {
    forall x: Float32, y: Float32 | Normal(x) && y != x :: Shown(a, F16, q, k, y) != Shown(a, F32, q, k, x)
  }

  function Shown(a: Arithmetic, dt: Dtype, q: Row, k: Row, x: Float32): Row {
    a.attend(a.rope(0, q), [Stored(a.casts, dt, a.rope(0, k))], [Fill(a.KvDim(), x)])
  }

  /** Then what the narrow precision loses is read. */
  lemma CopyingReads(a: Arithmetic)
    requires a.Valid() && Copies(a)
    ensures Reads(a)
  {
    NeverLossless(a.casts);
    var x: Float32 :| Normal(x) && a.casts.widen(a.casts.narrow(x)) != x;
    var q, k :| |k| == a.KvDim() && CopiesWith(a, q, k);
    OnePosition(a, F16, q, k, x);
    OnePosition(a, F32, q, k, x);
    assert IsHistory(a, [k], [Fill(a.KvDim(), x)]);
    assert ReadsOn(a, q, [k], [Fill(a.KvDim(), x)]);
  }

  lemma OnePosition(a: Arithmetic, dt: Dtype, q: Row, k: Row, x: Float32)
    ensures Attended(a, dt, q, [k], [Fill(a.KvDim(), x)])
         == Shown(a, dt, q, k, if dt == F32 then x else a.casts.widen(a.casts.narrow(x)))
  {
    var y := if dt == F32 then x else a.casts.widen(a.casts.narrow(x));
    assert Stored(a.casts, dt, Fill(a.KvDim(), x)) == Fill(a.KvDim(), y);
    assert StoredRows(a.casts, dt, [Fill(a.KvDim(), x)]) == [Fill(a.KvDim(), y)];
    assert StoredRows(a.casts, dt, Rotated(a, [k])) == [Stored(a.casts, dt, a.rope(0, k))];
  }

  /** So with attention that copies and residuals that carry, a mode's contiguous cache
      agrees with the pool for all weights exactly when it keeps single precision, that
      is in the fp32 mode, whatever the two casts are. */
  lemma AgreesOnlyInF32(a: Arithmetic, s: Storage)
    requires a.Valid() && Copies(a) && Carries(a) && Chooses(a)
    ensures AgreesWithPool(a, KvDtype(s)) <==> s == StoreF32
  {
    hide Copies, Carries, Chooses, Reads;
    if s != StoreF32 {
      CopyingReads(a);
      AgreesExactly(a);
    }
  }

  /** There is such an arithmetic for any casts: attention that returns the first value
      row, addition that keeps its second argument, the usual order on patterns. */
  lemma CopyingArithmetic(c: Casts) returns (a: Arithmetic)
    ensures a.casts == c && a.Valid() && Copies(a) && Carries(a) && Chooses(a)
  {
    a := Arithmetic(1, 1, c,
      (_: nat, r: Row) => r,
      (_: Row, _: seq<Row>, vs: seq<Row>) => if |vs| > 0 then vs[0] else [],
      (_: Row, y: Row) => y,
      (x: Float32, y: Float32) => x as int > y as int);
    forall x: Float32, y: Float32 | Normal(x) && y != x ensures Shown(a, F16, [], [0], y) != Shown(a, F32, [], [0], x) {
      assert Shown(a, F16, [], [0], y)[0] == y && Shown(a, F32, [], [0], x)[0] == x;
    }
    assert CopiesWith(a, [], [0]);
    assert [0 as Float32][0] != [1 as Float32][0];
    assert CarriesOn(a, [], [0], [1], [0], [1]);
    assert a.gt(1, 0);
  }
}
