/** What a matmul's elements are, without the recursion that defines them: the partial
    sums in order, the element a one-hot row picks, and the plain sum over the reals. */
module DotProducts {
  import opened Layout
  import opened Kernels
  import Lanes

  lemma ElementIsDot<T>(ops: Ops<T>, a: seq<T>, w: seq<T>, m: nat, n: nat, k: nat, out: seq<T>, i: nat, j: nat)
    requires m * k <= |a| && n * k <= |w| && i < m && j < n
    requires IsProduct(ProductOf(ops, a, w, m, n, k), m, n, out)
    ensures 0 <= i * k && i * k + k <= |a| && 0 <= j * k && j * k + k <= |w| && 0 <= i * n + j < |out|
    ensures out[i * n + j] == Dot(ops, a[i * k..i * k + k], w[j * k..j * k + k], k)
  {
    hide Dot, ProductOf;
    ElementOf(ops, a, w, m, n, k, i, j);
    DigitsBound(i, j, m, n);
    RowFits(i, m, k);
    RowFits(j, n, k);
    assert ElementIs(ProductOf(ops, a, w, m, n, k), n, out, i, j);
  }

  /** The partial sums of a dot product, from zero, left to right. */
  lemma {:induction false} PartialSums<T>(ops: Ops<T>, a: seq<T>, w: seq<T>, k: nat) returns (sums: seq<T>)
    requires k <= |a| && k <= |w|
    ensures |sums| == k + 1 && sums[0] == ops.zero && sums[k] == Dot(ops, a, w, k)
    ensures forall p | 0 <= p < k :: sums[p + 1] == ops.add(sums[p], ops.mul(a[p], w[p]))
    decreases k
  {
    if k == 0 {
      sums := [ops.zero];
    } else {
      sums := PartialSums(ops, a, w, k - 1);
      sums := sums + [ops.add(sums[k - 1], ops.mul(a[k - 1], w[k - 1]))];
    }
  }

  /** Every element of a product is where these sums end: it starts from zero and takes
      in every product of its two rows, in order. */
  lemma ElementAccumulates<T>(ops: Ops<T>, a: seq<T>, w: seq<T>, m: nat, n: nat, k: nat, out: seq<T>, i: nat,
      j: nat)
    returns (sums: seq<T>)
    requires m * k <= |a| && n * k <= |w| && i < m && j < n
    requires IsProduct(ProductOf(ops, a, w, m, n, k), m, n, out)
    ensures 0 <= i * k && i * k + k <= |a| && 0 <= j * k && j * k + k <= |w| && 0 <= i * n + j < |out|
    ensures |sums| == k + 1 && sums[0] == ops.zero && sums[k] == out[i * n + j]
    ensures forall p | 0 <= p < k :: sums[p + 1] == ops.add(sums[p], ops.mul(a[i * k + p], w[j * k + p]))
  {
    hide Dot, ProductOf, IsProduct;
    ElementIsDot(ops, a, w, m, n, k, out, i, j);
    sums := StretchSums(ops, a, i * k, w, j * k, k);
  }

  lemma StretchSums<T>(ops: Ops<T>, a: seq<T>, from: nat, w: seq<T>, at: nat, k: nat) returns (sums: seq<T>)
    requires from + k <= |a| && at + k <= |w|
    ensures |sums| == k + 1 && sums[0] == ops.zero && sums[k] == Dot(ops, a[from..from + k], w[at..at + k], k)
    ensures forall p | 0 <= p < k :: sums[p + 1] == ops.add(sums[p], ops.mul(a[from + p], w[at + p]))
  {
    hide Dot;
    var x, y := a[from..from + k], w[at..at + k];
    sums := PartialSums(ops, x, y, k);
    assert forall p | 0 <= p < k :: x[p] == a[from + p] && y[p] == w[at + p];
  }

  // ---- Units ----

  /** Zero is neutral and absorbing, one is neutral. */
  ghost predicate Units<T(!new)>(ops: Ops<T>, one: T) {
    forall x: T ::
      ops.add(ops.zero, x) == ops.add(x, ops.zero) == ops.mul(one, x) == x && ops.mul(ops.zero, x) == ops.zero
  }

  lemma {:induction false} OneHotDot<T(!new)>(ops: Ops<T>, one: T, a: seq<T>, w: seq<T>, p: nat, k: nat)
    requires k <= |a| && k <= |w| && p < |a| && Units(ops, one)
    requires forall t | 0 <= t < |a| :: a[t] == if t == p then one else ops.zero
    ensures Dot(ops, a, w, k) == if p < k then w[p] else ops.zero
    decreases k
  {
    if k == 0 {
    } else {
      OneHotDot(ops, one, a, w, p, k - 1);
    }
  }

  /** An activation row that is one at place `p` and zero elsewhere picks weight `p`. */
  lemma OneHotPicks<T(!new)>(ops: Ops<T>, one: T, a: seq<T>, w: seq<T>, m: nat, n: nat, k: nat, out: seq<T>, i: nat,
      j: nat, p: nat)
    requires m * k <= |a| && n * k <= |w| && i < m && j < n && p < k && Units(ops, one)
    requires IsProduct(ProductOf(ops, a, w, m, n, k), m, n, out) && 0 <= i * k && i * k + k <= |a|
    requires var row := a[i * k..i * k + k]; forall t | 0 <= t < k :: row[t] == if t == p then one else ops.zero
    ensures 0 <= j * k + p < |w| && 0 <= i * n + j < |out| && out[i * n + j] == w[j * k + p]
  {
    hide Dot, ProductOf, IsProduct, Units;
    ElementIsDot(ops, a, w, m, n, k, out, i, j);
    OneHotDot(ops, one, a[i * k..i * k + k], w[j * k..j * k + k], p, k);
  }

  // ---- The reals ----

  /** A value map that carries zero, addition and multiplication to the reals. */
  ghost predicate Values<T(!new)>(ops: Ops<T>, val: T -> real) {
    && val(ops.zero) == 0.0
    && forall x: T, y: T :: val(ops.add(x, y)) == val(x) + val(y) && val(ops.mul(x, y)) == val(x) * val(y)
  }

  ghost function Valued<T>(val: T -> real, row: seq<T>): (xs: seq<real>)
    ensures |xs| == |row| && forall p | 0 <= p < |row| :: xs[p] == val(row[p])
  {
    seq(|row|, p requires 0 <= p < |row| => val(row[p]))
  }

  lemma {:induction false} DotValued<T(!new)>(ops: Ops<T>, val: T -> real, a: seq<T>, w: seq<T>, k: nat)
    requires k <= |a| && k <= |w| && Values(ops, val)
    ensures val(Dot(ops, a, w, k)) == Lanes.Dot(Valued(val, a), Valued(val, w), k)
    decreases k
  {
    if k == 0 {
    } else {
      DotValued(ops, val, a, w, k - 1);
    }
  }

  /** The scalar kernel and the vector kernels compute the same sum: an element's value is
      what the lanes of `Lanes` add up to. */
  lemma ProductOverReals<T(!new)>(ops: Ops<T>, val: T -> real, a: seq<T>, w: seq<T>, m: nat, n: nat, k: nat,
      out: seq<T>,
      i: nat, j: nat)
    requires m * k <= |a| && n * k <= |w| && i < m && j < n && Values(ops, val)
    requires IsProduct(ProductOf(ops, a, w, m, n, k), m, n, out)
    ensures 0 <= i * k && i * k + k <= |a| && 0 <= j * k && j * k + k <= |w| && 0 <= i * n + j < |out|
    ensures val(out[i * n + j])
         == Lanes.Dot(Valued(val, a[i * k..i * k + k]), Valued(val, w[j * k..j * k + k]), k)
  {
    hide Dot, ProductOf, IsProduct, Values, Valued, Lanes.Dot;
    ElementIsDot(ops, a, w, m, n, k, out, i, j);
    DotValued(ops, val, a[i * k..i * k + k], w[j * k..j * k + k], k);
  }

  /** The real numbers themselves are such scalars. */
  const REALS: Ops<real> := Ops(0.0, (x: real, y: real) => x + y, (x: real, y: real) => x * y)

  lemma RealsAreValues()
    ensures Values(REALS, (x: real) => x) && Units(REALS, 1.0)
  {
  }
}
