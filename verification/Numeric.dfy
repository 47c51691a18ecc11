/** Scalars, rows and stored precision, plus small result types.

    A 32-bit float is its bit pattern.  The model never looks inside a pattern:
    every floating-point operation is a function handed in by the caller, so a
    claim of equality is a claim that the bits are identical and no law of
    arithmetic (associativity, say) is available to the proofs. */
module Numeric {
  newtype Float32 = x: int | 0 <= x < 0x1_0000_0000
  newtype Float16 = x: int | 0 <= x < 0x1_0000

  type Row = seq<Float32>

  datatype Option<+T> = None | Some(value: T)

  datatype Error = InvalidArgument | RuntimeError | OutOfRange

  datatype Result<+T> = Success(value: T) | Failure(error: Error)

  /** Storage precision of the contiguous KV cache. */
  datatype Dtype = F32 | F16

  /** The two casts between the storage precisions. */
  datatype Casts = Casts(narrow: Float32 -> Float16, widen: Float16 -> Float32)

  /** What a row reads back as after a round trip through the cache. */
  function Stored(c: Casts, dt: Dtype, row: Row): (r: Row)
    ensures |r| == |row|
  {
    match dt
    case F32 => row
    case F16 => seq(|row|, i requires 0 <= i < |row| => c.widen(c.narrow(row[i])))
  }

  /** The same for every row. */
  function StoredRows(c: Casts, dt: Dtype, rows: seq<Row>): (rs: seq<Row>)
    ensures |rs| == |rows|
  {
    seq(|rows|, p requires 0 <= p < |rows| => Stored(c, dt, rows[p]))
  }

  /** A place in a sequence's history: a layer and a position. */
  datatype Loc = Loc(layer: nat, pos: nat)

  /** The key rows, or the value rows, of one sequence. */
  type History = imap<Loc, Row>

  /** Ceiling division, the number of blocks that hold `count` positions. */
  function CeilDiv(count: nat, size: nat): nat
    requires size > 0
  {
    (count + size - 1) / size
  }
}
