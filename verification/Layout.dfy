/** Row-major layout: row `r` of a flat buffer with `d` elements a row. */
module Layout {
  function RowOf<T>(a: seq<T>, r: nat, d: nat): (row: seq<T>)
    requires (r + 1) * d <= |a|
    ensures |row| == d
  {
    assert (r + 1) * d == r * d + d;
    a[r * d..r * d + d]
  }

  /** Row `r` of the buffer is `row`. */
  predicate RowIs<T(==)>(a: seq<T>, r: nat, d: nat, row: seq<T>) {
    r * d + d <= |a| && a[r * d..r * d + d] == row
  }

  /** The first `n` rows of a buffer that may be longer. */
  function RowsOf<T>(a: seq<T>, n: nat, d: nat): (rows: seq<seq<T>>)
    requires n * d <= |a|
    ensures |rows| == n
    ensures forall r | 0 <= r < n :: |rows[r]| == d
    decreases n
  {
    if n == 0 then [] else
      RowFits(n - 1, n, d);
      RowsOf(a, n - 1, d) + [a[(n - 1) * d..(n - 1) * d + d]]
  }

  lemma {:induction false} RowsOfAt<T>(a: seq<T>, n: nat, d: nat, r: nat)
    requires n * d <= |a| && r < n
    ensures RowIs(a, r, d, RowsOf(a, n, d)[r])
    decreases n
  {
    RowFits(n - 1, n, d);
    if r < n - 1 {
      RowsOfAt(a, n - 1, d, r);
    }
  }

  function Splice<T>(a: seq<T>, off: nat, src: seq<T>): (b: seq<T>)
    requires off + |src| <= |a|
    ensures |b| == |a|
  {
    a[..off] + src + a[off + |src|..]
  }

  lemma RowFits(r: nat, n: nat, d: nat)
    requires r < n
    ensures 0 <= r * d && r * d + d == (r + 1) * d <= n * d
  {
    var rest := n - r - 1;
    assert n * d == (r + 1) * d + rest * d;
    assert rest * d >= 0;
  }

  /** A stretch of a buffer that another stretch misses, or is. */
  lemma SpliceSlice<T>(a: seq<T>, from: nat, src: seq<T>, at: nat, d: nat)
    requires from + |src| <= |a| && at + d <= |a|
    ensures from + |src| <= at || at + d <= from ==> Splice(a, from, src)[at..at + d] == a[at..at + d]
    ensures from == at && |src| == d ==> Splice(a, from, src)[at..at + d] == src
  {
  }

  /** Overwriting row `r` leaves every other row alone. */
  lemma SpliceRow<T>(a: seq<T>, n: nat, d: nat, r: nat, src: seq<T>, q: nat)
    requires n * d <= |a| && r < n && q < n && |src| == d
    ensures 0 <= r * d && r * d + d <= |a| && (q + 1) * d <= |a|
    ensures RowOf(Splice(a, r * d, src), q, d) == if q == r then src else RowOf(a, q, d)
  {
    RowFits(r, n, d);
    RowFits(q, n, d);
    if q < r { RowFits(q, r, d); }
    if q > r { RowFits(r, q, d); }
    hide Splice;
    SpliceSlice(a, r * d, src, q * d, d);
  }

  lemma SpliceIs<T>(a: seq<T>, n: nat, d: nat, r: nat, src: seq<T>, q: nat, row: seq<T>)
    requires n * d <= |a| && r < n && q < n && |src| == d
    requires if q == r then row == src else RowIs(a, q, d, row)
    ensures r * d + d <= |a| && RowIs(Splice(a, r * d, src), q, d, row)
  {
    RowFits(r, n, d);
    RowFits(q, n, d);
    SpliceRow(a, n, d, r, src, q);
  }

  /** A two-digit number in mixed radix determines its digits. */
  lemma Digits(a: nat, b: nat, a': nat, b': nat, d: nat)
    requires b < d && b' < d && a * d + b == a' * d + b'
    ensures a == a' && b == b'
  {
    if a < a' {
      RowFits(a, a', d);
    } else if a' < a {
      RowFits(a', a, d);
    }
  }

  lemma DigitsBound(a: nat, b: nat, n: nat, d: nat)
    requires a < n && b < d
    ensures 0 <= a * d + b < n * d
  {
    RowFits(a, n, d);
  }

  lemma ThreeDigits(a: nat, b: nat, c: nat, a': nat, b': nat, c': nat, radix: nat, size: nat)
    requires b < radix && b' < radix && c < size && c' < size
    requires (a * radix + b) * size + c == (a' * radix + b') * size + c'
    ensures a == a' && b == b' && c == c'
  {
    Digits(a * radix + b, c, a' * radix + b', c', size);
    Digits(a, b, a', b', radix);
  }
}
