/** What a forward pass and a greedy run mean, with no cache, no batch and no
    schedule: every row is recomputed from the tokens alone. */
module Meaning {
  import opened Numeric

  /** A loaded model.  Each weight is one uninterpreted projection of a row; the
      layer structure (norm and project, rotate, attend over the history,
      residual, feed-forward, residual) is kept. */
  datatype Model = Model(
    layers: nat,
    kvHeads: nat,
    headDim: nat,
    kvDim: nat,
    vocab: nat,
    maxPos: nat,
    eos: set<int>,
    casts: Casts,
    zero: Row,
    embed: int -> Row,
    qProj: (nat, Row) -> Row,
    kProj: (nat, Row) -> Row,
    vProj: (nat, Row) -> Row,
    rope: (nat, Row) -> Row,
    attend: (Row, seq<Row>, seq<Row>) -> Row,
    oProj: (nat, Row) -> Row,
    ffn: (nat, Row) -> Row,
    add: (Row, Row) -> Row,
    head: Row -> Row,
    gt: (Float32, Float32) -> bool)
  {
    ghost predicate Valid() {
      && layers >= 1 && vocab >= 1 && kvHeads >= 1 && headDim >= 1 && kvDim == kvHeads * headDim
      && (forall l: nat, h: Row :: |kProj(l, h)| == kvDim)
      && (forall l: nat, h: Row :: |vProj(l, h)| == kvDim)
      && (forall p: nat, r: Row :: |rope(p, r)| == |r|)
      && (forall h: Row :: |head(h)| == vocab)
    }
  }

  datatype Reason = Stop | Length | Capacity | Cancelled | Failed

  datatype Outcome = Outcome(tokens: seq<int>, reason: Reason)

  /** The hidden row of the last token of `ts` on entry to layer `l`. */
  ghost function Hidden(m: Model, dt: Dtype, ts: seq<int>, l: nat): Row
    requires |ts| > 0
    decreases l, 0
  {
    if l == 0 then
      m.embed(ts[|ts| - 1])
    else
      var h := Hidden(m, dt, ts, l - 1);
      var q := m.rope(|ts| - 1, m.qProj(l - 1, h));
      EndLayer(m, l - 1, h, m.attend(q, Keys(m, dt, ts, l - 1), Values(m, dt, ts, l - 1)))
  }

  /** Output projection, residual, feed-forward, residual. */
  function EndLayer(m: Model, l: nat, h: Row, attended: Row): Row {
    var mid := m.add(h, m.oProj(l, attended));
    m.add(mid, m.ffn(l, mid))
  }

  /** The key row the last token of `ts` contributes to layer `l`. */
  ghost function KeyRow(m: Model, dt: Dtype, ts: seq<int>, l: nat): Row
    requires |ts| > 0
    decreases l, 1
  {
    m.rope(|ts| - 1, m.kProj(l, Hidden(m, dt, ts, l)))
  }

  ghost function ValueRow(m: Model, dt: Dtype, ts: seq<int>, l: nat): Row
    requires |ts| > 0
    decreases l, 1
  {
    m.vProj(l, Hidden(m, dt, ts, l))
  }

  /** The keys of layer `l` for every position, as the cache returns them. */
  ghost function Keys(m: Model, dt: Dtype, ts: seq<int>, l: nat): (ks: seq<Row>)
    ensures |ks| == |ts|
    decreases l, 2
  {
    seq(|ts|, p requires 0 <= p < |ts| => Stored(m.casts, dt, KeyRow(m, dt, ts[..p + 1], l)))
  }

  ghost function Values(m: Model, dt: Dtype, ts: seq<int>, l: nat): (vs: seq<Row>)
    ensures |vs| == |ts|
    decreases l, 2
  {
    seq(|ts|, p requires 0 <= p < |ts| => Stored(m.casts, dt, ValueRow(m, dt, ts[..p + 1], l)))
  }

  ghost function Logits(m: Model, dt: Dtype, ts: seq<int>): Row
    requires |ts| > 0
  {
    m.head(Hidden(m, dt, ts, m.layers))
  }

  /** The index a left-to-right scan that replaces its champion on `gt` ends with. */
  function Champion(gt: (Float32, Float32) -> bool, xs: Row): (best: nat)
    requires |xs| > 0
    ensures best < |xs|
  {
    if |xs| == 1 then 0
    else
      var best := Champion(gt, xs[..|xs| - 1]);
      if gt(xs[|xs| - 1], xs[best]) then |xs| - 1 else best
  }

  /** When `gt` is a strict weak order (no NaN in play) the champion is the first
      greatest logit; nothing beats it, and it beats everything before it. */
  lemma {:induction false} ChampionIsFirstMaximum(gt: (Float32, Float32) -> bool, xs: Row)
    requires |xs| > 0
    requires forall x, y :: gt(x, y) ==> !gt(y, x)
    requires forall x, y, z :: !gt(x, y) && !gt(y, z) ==> !gt(x, z)
    ensures forall i | 0 <= i < |xs| :: !gt(xs[i], xs[Champion(gt, xs)])
    ensures forall i | 0 <= i < Champion(gt, xs) :: gt(xs[Champion(gt, xs)], xs[i])
  {
    if |xs| > 1 {
      var front := xs[..|xs| - 1];
      ChampionIsFirstMaximum(gt, front);
      var best := Champion(gt, front);
      forall i | 0 <= i < |xs| ensures !gt(xs[i], xs[Champion(gt, xs)]) {
        if i < |front| { assert xs[i] == front[i] && !gt(front[i], front[best]); }
      }
      forall i | 0 <= i < Champion(gt, xs) ensures gt(xs[Champion(gt, xs)], xs[i]) {
        assert xs[i] == front[i] && xs[best] == front[best];
        assert !gt(front[i], front[best]);
      }
    } else {
      assert !gt(xs[0], xs[0]);
    }
  }

  ghost function NextToken(m: Model, dt: Dtype, ts: seq<int>): (t: nat)
    requires m.Valid() && |ts| > 0
    ensures t < m.vocab
  {
    Champion(m.gt, Logits(m, dt, ts))
  }

  lemma LogitsFull(m: Model, dt: Dtype, ts: seq<int>)
    requires m.Valid() && |ts| > 0
    ensures |Logits(m, dt, ts)| == m.vocab > 0
  {
    hide Hidden;
  }

  /** Greedy decoding from `ts` with at most `left` tokens to come. */
  ghost function Greedy(m: Model, dt: Dtype, ts: seq<int>, left: nat): (o: Outcome)
    requires m.Valid() && |ts| > 0
    ensures o.reason == Stop || o.reason == Length
    ensures ts <= o.tokens && |o.tokens| <= |ts| + left
    ensures o.reason == Length ==> |o.tokens| == |ts| + left
    decreases left
  {
    if left == 0 then Outcome(ts, Length)
    else
      var next := NextToken(m, dt, ts);
      if next in m.eos then Outcome(ts, Stop) else Greedy(m, dt, ts + [next], left - 1)
  }

  /** A greedy run, step by step: each new token is the best of the logits so far and does
      not end the text; it stops at the cap or where the best token would end the text. */
  ghost predicate IsGreedyRun(m: Model, dt: Dtype, ts: seq<int>, left: nat, o: Outcome)
    requires m.Valid() && |ts| > 0
  {
    && ts <= o.tokens && |o.tokens| <= |ts| + left
    && (forall i | |ts| <= i < |o.tokens| ::
          o.tokens[i] == NextToken(m, dt, o.tokens[..i]) && o.tokens[i] !in m.eos)
    && if |o.tokens| == |ts| + left then o.reason == Length
       else o.reason == Stop && NextToken(m, dt, o.tokens) in m.eos
  }

  /** There is one such run, and it is `Greedy`. */
  lemma {:induction false} GreedyExactly(m: Model, dt: Dtype, ts: seq<int>, left: nat, o: Outcome)
    requires m.Valid() && |ts| > 0
    ensures o == Greedy(m, dt, ts, left) <==> IsGreedyRun(m, dt, ts, left, o)
    decreases left
  {
    hide NextToken;
    if left == 0 {
      assert ts <= o.tokens && |o.tokens| == |ts| ==> o.tokens == ts;
    } else {
      var next := NextToken(m, dt, ts);
      assert o.tokens[..|o.tokens|] == o.tokens;
      if next in m.eos {
        assert ts <= o.tokens ==> o.tokens[..|ts|] == ts;
        assert ts <= o.tokens && |o.tokens| == |ts| ==> o.tokens == ts;
      } else {
        GreedyExactly(m, dt, ts + [next], left - 1, o);
        OneStep(m, dt, ts, left, o);
      }
    }
  }

  lemma OneStep(m: Model, dt: Dtype, ts: seq<int>, left: nat, o: Outcome)
    requires m.Valid() && |ts| > 0 && left > 0 && NextToken(m, dt, ts) !in m.eos
    ensures IsGreedyRun(m, dt, ts, left, o) <==> IsGreedyRun(m, dt, ts + [NextToken(m, dt, ts)], left - 1, o)
  {
    hide NextToken;
    var longer := ts + [NextToken(m, dt, ts)];
    if IsGreedyRun(m, dt, ts, left, o) {
      assert |o.tokens| == |ts| ==> o.tokens == ts;
      assert o.tokens[..|ts|] == ts;
      assert o.tokens[|ts|] == NextToken(m, dt, o.tokens[..|ts|]);
      assert o.tokens[..|ts| + 1] == longer;
    }
    if IsGreedyRun(m, dt, longer, left - 1, o) {
      assert o.tokens[..|ts|] == longer[..|ts|] == ts;
      assert o.tokens[|ts|] == longer[|ts|];
    }
  }
}
