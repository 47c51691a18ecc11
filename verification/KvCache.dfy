/** The contiguous cache of one request: two flat buffers, one row per layer and
    position, stored in single or half precision. */
module KvCache {
  import opened Numeric
  import opened Layout

  /** One stored element; the precision is fixed when the cache is built. */
  datatype Cell = Single(x: Float32) | Half(h: Float16)

  function Load(c: Casts, cell: Cell): Float32 {
    match cell
    case Single(x) => x
    case Half(h) => c.widen(h)
  }

  function Save(c: Casts, dt: Dtype, x: Float32): Cell {
    match dt
    case F32 => Single(x)
    case F16 => Half(c.narrow(x))
  }

  function SaveRow(c: Casts, dt: Dtype, row: Row): (cells: seq<Cell>)
    ensures |cells| == |row|
  {
    seq(|row|, i requires 0 <= i < |row| => Save(c, dt, row[i]))
  }

  function LoadRow(c: Casts, cells: seq<Cell>): (row: Row)
    ensures |row| == |cells|
  {
    seq(|cells|, i requires 0 <= i < |cells| => Load(c, cells[i]))
  }

  /** Storing and loading a row is the cast round trip, the identity in F32. */
  lemma LoadSaved(c: Casts, dt: Dtype, row: Row)
    ensures LoadRow(c, SaveRow(c, dt, row)) == Stored(c, dt, row)
  {
  }

  /** Row `layer * maxSeq + pos` of the buffer loads as `rows` says. */
  ghost predicate Mirrors(c: Casts, cells: seq<Cell>, rows: History, layers: nat, maxSeq: nat, d: nat) {
    && |cells| == layers * maxSeq * d
    && (forall at: Loc {:trigger at in rows} :: at in rows <==> at.layer < layers && at.pos < maxSeq)
    && (forall at: Loc {:trigger LoadsAt(c, cells, rows, maxSeq, d, at)} | at in rows ::
      LoadsAt(c, cells, rows, maxSeq, d, at))
  }

  ghost predicate LoadsAt(c: Casts, cells: seq<Cell>, rows: History, maxSeq: nat, d: nat, at: Loc)
    requires at in rows
  {
    var r := at.layer * maxSeq + at.pos;
    r * d + d <= |cells| && LoadRow(c, cells[r * d..r * d + d]) == rows[at]
  }

  lemma PutKeepsMirror(c: Casts, dt: Dtype, cells: seq<Cell>, rows: History, layers: nat, maxSeq: nat, d: nat, at: Loc,
      row: Row)
    requires Mirrors(c, cells, rows, layers, maxSeq, d)
    requires at.layer < layers && at.pos < maxSeq && |row| == d
    ensures var r := at.layer * maxSeq + at.pos;
      && r * d + d <= |cells|
      && Mirrors(c, Splice(cells, r * d, SaveRow(c, dt, row)), rows[at := Stored(c, dt, row)], layers, maxSeq, d)
  {
    var r := at.layer * maxSeq + at.pos;
    DigitsBound(at.layer, at.pos, layers, maxSeq);
    RowFits(r, layers * maxSeq, d);
    var after := Splice(cells, r * d, SaveRow(c, dt, row));
    var rows' := rows[at := Stored(c, dt, row)];
    LoadSaved(c, dt, row);
    forall o: Loc | o in rows' ensures LoadsAt(c, after, rows', maxSeq, d, o) {
      OtherRow(c, cells, rows, layers, maxSeq, d, at, r, SaveRow(c, dt, row), o);
    }
  }

  lemma OtherRow(c: Casts, cells: seq<Cell>, rows: History, layers: nat, maxSeq: nat, d: nat, at: Loc, r: nat,
      src: seq<Cell>, o: Loc)
    requires Mirrors(c, cells, rows, layers, maxSeq, d) && at in rows && o in rows && |src| == d
    requires r == at.layer * maxSeq + at.pos && 0 <= r * d && r * d + d <= |cells|
    ensures LoadsAt(c, Splice(cells, r * d, src), rows[at := LoadRow(c, src)], maxSeq, d, o)
  {
    hide LoadRow;
    var q := o.layer * maxSeq + o.pos;
    DigitsBound(at.layer, at.pos, layers, maxSeq);
    DigitsBound(o.layer, o.pos, layers, maxSeq);
    RowFits(q, layers * maxSeq, d);
    if o != at && q == r {
      Digits(at.layer, at.pos, o.layer, o.pos, maxSeq);
    }
    assert LoadsAt(c, cells, rows, maxSeq, d, o);
    SpliceRow(cells, layers * maxSeq, d, r, src, q);
  }

  /** A buffer of one value throughout loads as one row throughout. */
  lemma BlankMirrors(c: Casts, dt: Dtype, cells: seq<Cell>, rows: History, layers: nat, maxSeq: nat, d: nat,
      blank: Cell)
    requires |cells| == layers * maxSeq * d && forall i | 0 <= i < |cells| :: cells[i] == blank
    requires forall at: Loc {:trigger at in rows} :: at in rows <==> at.layer < layers && at.pos < maxSeq
    requires forall at: Loc {:trigger rows[at]} | at in rows :: rows[at] == seq(d, _ => Load(c, blank))
    ensures Mirrors(c, cells, rows, layers, maxSeq, d)
  {
    hide Load;
    forall at: Loc | at in rows ensures LoadsAt(c, cells, rows, maxSeq, d, at) {
      var r := at.layer * maxSeq + at.pos;
      DigitsBound(at.layer, at.pos, layers, maxSeq);
      RowFits(r, layers * maxSeq, d);
      assert LoadRow(c, cells[r * d..r * d + d]) == seq(d, _ => Load(c, blank));
    }
  }

  lemma MirrorsAt(c: Casts, cells: seq<Cell>, rows: History, layers: nat, maxSeq: nat, d: nat, at: Loc)
    requires Mirrors(c, cells, rows, layers, maxSeq, d) && at.layer < layers && at.pos < maxSeq
    ensures at in rows && LoadsAt(c, cells, rows, maxSeq, d, at)
  {
    assert at in rows;
  }

  /** The first `count` rows of a layer are a stretch of the buffer. */
  lemma LayerFits(layer: nat, count: nat, layers: nat, maxSeq: nat, d: nat)
    requires layer < layers && count <= maxSeq
    ensures 0 <= layer * maxSeq * d && layer * maxSeq * d + count * d <= layers * maxSeq * d
  {
    RowFits(layer, layers, maxSeq);
    var first, last, end := layer * maxSeq, layer * maxSeq + count, layers * maxSeq;
    assert last * d == first * d + count * d;
    assert last * d + (end - last) * d == end * d;
  }

  /** That stretch, loaded element by element and cut into rows, is the stored rows. */
  lemma FlatIsLayer(c: Casts, cells: seq<Cell>, rows: History, layers: nat, maxSeq: nat, d: nat, layer: nat, count: nat,
      base: nat, buf: seq<Float32>)
    requires Mirrors(c, cells, rows, layers, maxSeq, d) && layer < layers && count <= maxSeq && count * d <= |buf|
    requires base == layer * maxSeq * d && Widened(c, cells, base, count * d, buf)
    ensures forall p: nat | p < count :: Loc(layer, p) in rows && RowsOf(buf, count, d)[p] == rows[Loc(layer, p)]
  {
    hide Mirrors, RowsOf, LoadRow, Load, Widened;
    forall p: nat | p < count ensures Loc(layer, p) in rows && RowsOf(buf, count, d)[p] == rows[Loc(layer, p)] {
      MirrorsAt(c, cells, rows, layers, maxSeq, d, Loc(layer, p));
      FlatRow(c, cells, layer * maxSeq, base, count, d, buf, p);
    }
  }

  /** The first `n` elements of a buffer are consecutive cells, loaded. */
  ghost predicate Widened(c: Casts, cells: seq<Cell>, base: nat, n: int, buf: seq<Float32>) {
    base + n <= |cells| && n <= |buf| && forall j | 0 <= j < n :: buf[j] == Load(c, cells[base + j])
  }

  lemma FlatRow(c: Casts, cells: seq<Cell>, first: nat, base: nat, count: nat, d: nat, buf: seq<Float32>, p: nat)
    requires p < count && base == first * d && count * d <= |buf| && Widened(c, cells, base, count * d, buf)
    ensures 0 <= (first + p) * d && (first + p) * d + d <= |cells|
    ensures RowsOf(buf, count, d)[p] == LoadRow(c, cells[(first + p) * d..(first + p) * d + d])
  {
    RowsOfAt(buf, count, d, p);
    RowFits(p, count, d);
    var off, at := p * d, (first + p) * d;
    assert at == base + off;
    var row := RowsOf(buf, count, d)[p];
    hide RowsOf;
    forall i | 0 <= i < d ensures row[i] == Load(c, cells[at..at + d][i]) {
      assert row[i] == buf[off..off + d][i] == buf[off + i];
    }
  }

  class ContiguousKVCache {
    const numLayers: nat
    const maxSeqLen: nat
    const perToken: nat
    const dtype: Dtype
    const casts: Casts
    const kCells: array<Cell>
    const vCells: array<Cell>
    ghost var kRows: History
    ghost var vRows: History

    ghost predicate Valid()
      reads this, kCells, vCells
    {
      && kCells != vCells
      && Mirrors(casts, kCells[..], kRows, numLayers, maxSeqLen, perToken)
      && Mirrors(casts, vCells[..], vRows, numLayers, maxSeqLen, perToken)
    }

    constructor (casts: Casts, numLayers: nat, maxSeqLen: nat, numKvHeads: nat, headDim: nat, dtype: Dtype)
      requires numLayers > 0 && maxSeqLen > 0 && numKvHeads > 0 && headDim > 0
      ensures Valid() && fresh(kCells) && fresh(vCells)
      ensures this.numLayers == numLayers && this.maxSeqLen == maxSeqLen && this.perToken == numKvHeads * headDim
      ensures this.dtype == dtype && this.casts == casts
      ensures kCells.Length == vCells.Length == numLayers * maxSeqLen * (numKvHeads * headDim)
      ensures forall i | 0 <= i < kCells.Length :: kCells[i] == vCells[i] == Save(casts, dtype, 0)
    {
      var d := numKvHeads * headDim;
      var blank := Save(casts, dtype, 0);
      this.casts, this.numLayers, this.maxSeqLen, this.perToken, this.dtype := casts, numLayers, maxSeqLen, d, dtype;
      kCells := new Cell[numLayers * maxSeqLen * d](_ => blank);
      vCells := new Cell[numLayers * maxSeqLen * d](_ => blank);
      ghost var zero: Row := seq(d, _ => Load(casts, blank));
      hide Mirrors, Save;
      kRows := imap at: Loc | at.layer < numLayers && at.pos < maxSeqLen :: zero;
      vRows := imap at: Loc | at.layer < numLayers && at.pos < maxSeqLen :: zero;
      new;
      BlankMirrors(casts, dtype, kCells[..], kRows, numLayers, maxSeqLen, d, blank);
      BlankMirrors(casts, dtype, vCells[..], vRows, numLayers, maxSeqLen, d, blank);
    }

    /** Stores one token's key and value; out-of-range coordinates change nothing. */
    method Write(layer: int, pos: int, k: Row, v: Row) returns (r: Result<()>)
      requires Valid() && |k| == |v| == perToken
      modifies this, kCells, vCells
      ensures Valid()
      ensures r == if 0 <= layer < numLayers && 0 <= pos < maxSeqLen then Success(()) else Failure(OutOfRange)
      ensures r.Success? ==>
        && kRows == old(kRows)[Loc(layer, pos) := Stored(casts, dtype, k)]
        && vRows == old(vRows)[Loc(layer, pos) := Stored(casts, dtype, v)]
      ensures r.Failure? ==> kRows == old(kRows) && vRows == old(vRows)
    {
      if layer < 0 || layer >= numLayers { return Failure(OutOfRange); }
      if pos < 0 || pos >= maxSeqLen { return Failure(OutOfRange); }
      var at := Loc(layer, pos);
      var off := (layer * maxSeqLen + pos) * perToken;
      PutKeepsMirror(casts, dtype, kCells[..], kRows, numLayers, maxSeqLen, perToken, at, k);
      PutKeepsMirror(casts, dtype, vCells[..], vRows, numLayers, maxSeqLen, perToken, at, v);
      Put(kCells, off, k);
      Put(vCells, off, v);
      kRows := kRows[at := Stored(casts, dtype, k)];
      vRows := vRows[at := Stored(casts, dtype, v)];
      r := Success(());
    }

    method Put(cells: array<Cell>, off: nat, row: Row)
      requires off + |row| <= cells.Length
      modifies cells
      ensures cells[..] == Splice(old(cells[..]), off, SaveRow(casts, dtype, row))
    {
      var i := 0;
      while i < |row|
        invariant 0 <= i <= |row|
        invariant forall j | 0 <= j < cells.Length ::
          cells[j] == if off <= j < off + i then Save(casts, dtype, row[j - off]) else old(cells[j])
      {
        cells[off + i] := Save(casts, dtype, row[i]);
        i := i + 1;
      }
    }

    /** Copies positions [0, count) of a layer, widened to single precision, to the front
        of two flat buffers. */
    method GatherLayer(layer: int, count: int, kIn: seq<Float32>, vIn: seq<Float32>)
      returns (r: Result<()>, kOut: seq<Float32>, vOut: seq<Float32>)
      requires Valid()
      requires 0 <= layer < numLayers && 0 <= count <= maxSeqLen ==>
        count * perToken <= |kIn| && count * perToken <= |vIn|
      ensures r.Success? <==> 0 <= layer < numLayers && 0 <= count <= maxSeqLen
      ensures r.Failure? ==> r.error == OutOfRange && kOut == kIn && vOut == vIn
      ensures |kOut| == |kIn| && |vOut| == |vIn|
      ensures r.Success? ==> IsLayer(layer, count, RowsOf(kOut, count, perToken), RowsOf(vOut, count, perToken))
    {
      kOut, vOut := kIn, vIn;
      if layer < 0 || layer >= numLayers { return Failure(OutOfRange), kOut, vOut; }
      if count < 0 || count > maxSeqLen { return Failure(OutOfRange), kOut, vOut; }
      kOut := ReadFlat(kCells, kRows, layer, count, kIn);
      vOut := ReadFlat(vCells, vRows, layer, count, vIn);
      r := Success(());
    }

    /** Loads `n` consecutive elements into the front of a buffer. */
    method Widen(cells: array<Cell>, base: nat, n: nat, buf: seq<Float32>) returns (out: seq<Float32>)
      requires base + n <= cells.Length && n <= |buf|
      ensures |out| == |buf| && (forall j | 0 <= j < n :: out[j] == Load(casts, cells[base + j]))
      ensures out[n..] == buf[n..]
    {
      out := buf;
      var i := 0;
      while i < n
        invariant 0 <= i <= n && |out| == |buf| && out[n..] == buf[n..]
        invariant forall j | 0 <= j < i :: out[j] == Load(casts, cells[base + j])
      {
        out := out[i := Load(casts, cells[base + i])];
        i := i + 1;
      }
    }

    method ReadFlat(cells: array<Cell>, ghost rows: History, layer: nat, count: nat, buf: seq<Float32>)
      returns (out: seq<Float32>)
      requires Mirrors(casts, cells[..], rows, numLayers, maxSeqLen, perToken)
      requires layer < numLayers && count <= maxSeqLen && count * perToken <= |buf|
      ensures |out| == |buf|
      ensures forall p: nat | p < count :: RowsOf(out, count, perToken)[p] == rows[Loc(layer, p)]
    {
      var base := layer * maxSeqLen * perToken;
      LayerFits(layer, count, numLayers, maxSeqLen, perToken);
      out := Widen(cells, base, count * perToken, buf);
      FlatIsLayer(casts, cells[..], rows, numLayers, maxSeqLen, perToken, layer, count, base, out);
    }

    /** The zero-copy reading of a layer that only a single-precision cache offers. */
    method LayerF32(layer: nat, count: nat) returns (r: Result<(seq<Row>, seq<Row>)>)
      requires Valid() && layer < numLayers && count <= maxSeqLen
      ensures r.Success? <==> dtype == F32
      ensures r.Failure? ==> r.error == RuntimeError
      ensures r.Success? ==> IsLayer(layer, count, r.value.0, r.value.1)
    {
      if dtype != F32 { return Failure(RuntimeError); }
      var ks, vs := ReadRows(layer, count);
      r := Success((ks, vs));
    }

    ghost predicate IsLayer(layer: nat, count: nat, ks: seq<Row>, vs: seq<Row>)
      requires Valid() && layer < numLayers && count <= maxSeqLen
      reads this, kCells, vCells
    {
      && |ks| == |vs| == count
      && (forall p: nat | p < count :: ks[p] == kRows[Loc(layer, p)])
      && (forall p: nat | p < count :: vs[p] == vRows[Loc(layer, p)])
    }

    method ReadRows(layer: nat, count: nat) returns (ks: seq<Row>, vs: seq<Row>)
      requires Valid() && layer < numLayers && count <= maxSeqLen
      ensures IsLayer(layer, count, ks, vs)
    {
      hide Mirrors, LoadRow;
      ks, vs := [], [];
      var p := 0;
      while p < count
        invariant 0 <= p <= count && IsLayer(layer, p, ks, vs)
      {
        MirrorsAt(casts, kCells[..], kRows, numLayers, maxSeqLen, perToken, Loc(layer, p));
        MirrorsAt(casts, vCells[..], vRows, numLayers, maxSeqLen, perToken, Loc(layer, p));
        var off := (layer * maxSeqLen + p) * perToken;
        ks := ks + [LoadRow(casts, kCells[off..off + perToken])];
        vs := vs + [LoadRow(casts, vCells[off..off + perToken])];
        p := p + 1;
      }
    }
  }
}
