/** The forward pass the other way round: layer by layer over the whole sequence, every
    step written out.  It gives the rows that `Meaning` defines token by token. */
module Layers {
  import opened Numeric
  import opened Meaning

  /** All hidden rows on entry to each layer and after the last, with the keys and values
      each layer computes. */
  datatype Tableau = Tableau(hs: seq<seq<Row>>, ks: seq<seq<Row>>, vs: seq<seq<Row>>)

  ghost predicate Sized(m: Model, ts: seq<int>, x: Tableau) {
    && |x.hs| == m.layers + 1 && |x.ks| == |x.vs| == m.layers
    && (forall l | 0 <= l <= m.layers :: |x.hs[l]| == |ts|)
    && (forall l | 0 <= l < m.layers :: |x.ks[l]| == |x.vs[l]| == |ts|)
  }

  /** One position through one layer: project and rotate, attend over the positions so far
      as the cache returns them, project and add, feed forward and add, each with the
      weights of this layer. */
  ghost predicate StepAt(m: Model, dt: Dtype, x: Tableau, l: nat, p: nat)
    requires l < |x.ks| && l < |x.vs| && l + 1 < |x.hs|
    requires p < |x.ks[l]| == |x.vs[l]| == |x.hs[l]| == |x.hs[l + 1]|
  {
    var h := x.hs[l][p];
    var attended := m.attend(m.rope(p, m.qProj(l, h)), StoredRows(m.casts, dt, x.ks[l][..p + 1]),
      StoredRows(m.casts, dt, x.vs[l][..p + 1]));
    var mid := m.add(h, m.oProj(l, attended));
    && x.ks[l][p] == m.rope(p, m.kProj(l, h)) && x.vs[l][p] == m.vProj(l, h)
    && x.hs[l + 1][p] == m.add(mid, m.ffn(l, mid))
  }

  /** A forward pass over the whole sequence. */
  ghost predicate IsForward(m: Model, dt: Dtype, ts: seq<int>, x: Tableau) {
    && Sized(m, ts, x)
    && (forall p | 0 <= p < |ts| :: x.hs[0][p] == m.embed(ts[p]))
    && (forall l: nat, p: nat | l < m.layers && p < |ts| :: StepAt(m, dt, x, l, p))
  }

  lemma HiddenStep(m: Model, dt: Dtype, ts: seq<int>, l: nat)
    requires |ts| > 0
    ensures var h := Hidden(m, dt, ts, l);
      var attended := m.attend(m.rope(|ts| - 1, m.qProj(l, h)), Keys(m, dt, ts, l), Values(m, dt, ts, l));
      var mid := m.add(h, m.oProj(l, attended));
      Hidden(m, dt, ts, l + 1) == m.add(mid, m.ffn(l, mid))
  {
    hide Keys, Values;
  }

  /** What a layer keeps for a position, given the right hidden rows up to it. */
  lemma RowsAre(m: Model, dt: Dtype, ts: seq<int>, x: Tableau, l: nat, p: nat)
    requires IsForward(m, dt, ts, x) && l < m.layers && p < |ts|
    requires forall i | 0 <= i < |ts| :: x.hs[l][i] == Hidden(m, dt, ts[..i + 1], l)
    ensures StoredRows(m.casts, dt, x.ks[l][..p + 1]) == Keys(m, dt, ts[..p + 1], l)
    ensures StoredRows(m.casts, dt, x.vs[l][..p + 1]) == Values(m, dt, ts[..p + 1], l)
  {
    hide Hidden, Stored;
    forall i: nat | i <= p
      ensures x.ks[l][i] == KeyRow(m, dt, ts[..p + 1][..i + 1], l)
      ensures x.vs[l][i] == ValueRow(m, dt, ts[..p + 1][..i + 1], l)
    {
      assert ts[..p + 1][..i + 1] == ts[..i + 1];
      assert StepAt(m, dt, x, l, i);
    }
  }

  /** Every row of the pass is the one `Meaning` computes for that prefix on its own. */
  lemma {:induction false} ForwardIsHidden(m: Model, dt: Dtype, ts: seq<int>, x: Tableau, l: nat)
    requires IsForward(m, dt, ts, x) && l <= m.layers
    ensures forall p | 0 <= p < |ts| :: x.hs[l][p] == Hidden(m, dt, ts[..p + 1], l)
    decreases l
  {
    hide StepAt, Keys, Values;
    if l == 0 {
    } else {
      ForwardIsHidden(m, dt, ts, x, l - 1);
      forall p: nat | p < |ts| ensures x.hs[l][p] == Hidden(m, dt, ts[..p + 1], l) {
        ForwardStep(m, dt, ts, x, l - 1, p);
      }
    }
  }

  lemma ForwardStep(m: Model, dt: Dtype, ts: seq<int>, x: Tableau, l: nat, p: nat)
    requires IsForward(m, dt, ts, x) && l < m.layers && p < |ts|
    requires forall i | 0 <= i < |ts| :: x.hs[l][i] == Hidden(m, dt, ts[..i + 1], l)
    ensures x.hs[l + 1][p] == Hidden(m, dt, ts[..p + 1], l + 1)
  {
    hide Hidden, Keys, Values, StoredRows;
    assert StepAt(m, dt, x, l, p);
    RowsAre(m, dt, ts, x, l, p);
    HiddenStep(m, dt, ts[..p + 1], l);
  }

  /** So the logits of every prefix are the head's, on the last row. */
  lemma ForwardLogits(m: Model, dt: Dtype, ts: seq<int>, x: Tableau, p: nat)
    requires IsForward(m, dt, ts, x) && p < |ts|
    ensures Logits(m, dt, ts[..p + 1]) == m.head(x.hs[m.layers][p])
  {
    hide Hidden, IsForward;
    ForwardIsHidden(m, dt, ts, x, m.layers);
  }

  // ---- There is such a pass ----

  ghost function HiddenRows(m: Model, dt: Dtype, ts: seq<int>, l: nat): (rows: seq<Row>)
    ensures |rows| == |ts| && forall p | 0 <= p < |ts| :: rows[p] == Hidden(m, dt, ts[..p + 1], l)
  {
    seq(|ts|, p requires 0 <= p < |ts| => Hidden(m, dt, ts[..p + 1], l))
  }

  ghost function TableauOf(m: Model, dt: Dtype, ts: seq<int>): Tableau {
    Tableau(
      seq(m.layers + 1, l requires 0 <= l <= m.layers => HiddenRows(m, dt, ts, l)),
      seq(m.layers, l requires 0 <= l < m.layers =>
        seq(|ts|, p requires 0 <= p < |ts| => KeyRow(m, dt, ts[..p + 1], l))),
      seq(m.layers, l requires 0 <= l < m.layers =>
        seq(|ts|, p requires 0 <= p < |ts| => ValueRow(m, dt, ts[..p + 1], l))))
  }

  lemma ForwardExists(m: Model, dt: Dtype, ts: seq<int>)
    ensures IsForward(m, dt, ts, TableauOf(m, dt, ts))
  {
    hide Hidden, StepAt, HiddenRows;
    var x := TableauOf(m, dt, ts);
    forall p | 0 <= p < |ts| ensures x.hs[0][p] == m.embed(ts[p]) { Embedded(m, dt, ts[..p + 1]); }
    forall l: nat, p: nat | l < m.layers && p < |ts| ensures StepAt(m, dt, x, l, p) { TableauStep(m, dt, ts, l, p); }
  }

  lemma Embedded(m: Model, dt: Dtype, ts: seq<int>)
    requires |ts| > 0
    ensures Hidden(m, dt, ts, 0) == m.embed(ts[|ts| - 1])
  {
  }

  lemma TableauStep(m: Model, dt: Dtype, ts: seq<int>, l: nat, p: nat)
    requires l < m.layers && p < |ts| && Sized(m, ts, TableauOf(m, dt, ts))
    ensures StepAt(m, dt, TableauOf(m, dt, ts), l, p)
  {
    hide Hidden, Stored;
    var x, front := TableauOf(m, dt, ts), ts[..p + 1];
    HiddenStep(m, dt, front, l);
    forall i: nat | i <= p
      ensures x.ks[l][i] == KeyRow(m, dt, front[..i + 1], l) && x.vs[l][i] == ValueRow(m, dt, front[..i + 1], l) {
      assert front[..i + 1] == ts[..i + 1];
    }
    assert StoredRows(m.casts, dt, x.ks[l][..p + 1]) == Keys(m, dt, front, l);
    assert StoredRows(m.casts, dt, x.vs[l][..p + 1]) == Values(m, dt, front, l);
  }

  // ---- One layer ----

  /** A residual that absorbs what a projection of layer `l` puts out. */
  ghost predicate Absorbs(m: Model, f: (nat, Row) -> Row, l: nat) {
    forall h: Row, x: Row :: m.add(h, f(l, x)) == h
  }

  /** A layer's two halves.  If addition absorbs its feed-forward only the attention is
      left; if it absorbs its output projection only the feed-forward; if both, nothing. */
  lemma LayerHalves(m: Model, dt: Dtype, ts: seq<int>, l: nat)
    requires |ts| > 0
    ensures Absorbs(m, m.ffn, l) ==>
      var h := Hidden(m, dt, ts, l);
      var attended := m.attend(m.rope(|ts| - 1, m.qProj(l, h)), Keys(m, dt, ts, l), Values(m, dt, ts, l));
      Hidden(m, dt, ts, l + 1) == m.add(h, m.oProj(l, attended))
    ensures Absorbs(m, m.oProj, l) ==>
      Hidden(m, dt, ts, l + 1) == m.add(Hidden(m, dt, ts, l), m.ffn(l, Hidden(m, dt, ts, l)))
    ensures Absorbs(m, m.ffn, l) && Absorbs(m, m.oProj, l) ==> Hidden(m, dt, ts, l + 1) == Hidden(m, dt, ts, l)
  {
    hide Hidden, Keys, Values;
    HiddenStep(m, dt, ts, l);
  }

  /** The same shape, and layer `l` with the same weights; other layers may differ. */
  ghost predicate SameLayer(m: Model, n: Model, l: nat) {
    && m.casts == n.casts && m.rope == n.rope && m.attend == n.attend && m.add == n.add
    && forall x: Row ::
        && m.qProj(l, x) == n.qProj(l, x) && m.kProj(l, x) == n.kProj(l, x) && m.vProj(l, x) == n.vProj(l, x)
        && m.oProj(l, x) == n.oProj(l, x) && m.ffn(l, x) == n.ffn(l, x)
  }

  /** A layer uses its own weights: two models that share layer `l`, and enter it with the
      same rows, leave it with the same row, whatever their other layers are. */
  lemma LayerIsItsOwn(m: Model, n: Model, dt: Dtype, ts: seq<int>, l: nat)
    requires |ts| > 0 && SameLayer(m, n, l)
    requires HiddenRows(m, dt, ts, l) == HiddenRows(n, dt, ts, l)
    ensures Hidden(m, dt, ts, l + 1) == Hidden(n, dt, ts, l + 1)
  {
    hide Hidden, Keys, Values, SameLayer;
    HiddenStep(m, dt, ts, l);
    HiddenStep(n, dt, ts, l);
    SameCaches(m, n, dt, ts, l);
    SameProjections(m, n, l);
    assert ts[..|ts|] == ts;
    assert HiddenRows(m, dt, ts, l)[|ts| - 1] == HiddenRows(n, dt, ts, l)[|ts| - 1];
  }

  lemma SameProjections(m: Model, n: Model, l: nat)
    requires SameLayer(m, n, l)
    ensures m.rope == n.rope && m.attend == n.attend && m.add == n.add
    ensures forall x: Row ::
      m.qProj(l, x) == n.qProj(l, x) && m.oProj(l, x) == n.oProj(l, x) && m.ffn(l, x) == n.ffn(l, x)
  {
  }

  lemma SameCaches(m: Model, n: Model, dt: Dtype, ts: seq<int>, l: nat)
    requires SameLayer(m, n, l) && HiddenRows(m, dt, ts, l) == HiddenRows(n, dt, ts, l)
    ensures Keys(m, dt, ts, l) == Keys(n, dt, ts, l) && Values(m, dt, ts, l) == Values(n, dt, ts, l)
  {
    hide Hidden, Stored;
    forall p | 0 <= p < |ts|
      ensures Keys(m, dt, ts, l)[p] == Keys(n, dt, ts, l)[p] && Values(m, dt, ts, l)[p] == Values(n, dt, ts, l)[p] {
      assert HiddenRows(m, dt, ts, l)[p] == HiddenRows(n, dt, ts, l)[p];
    }
  }
}
