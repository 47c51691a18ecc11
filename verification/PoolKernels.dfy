/** The fork-join pool under the kernels: what a returned job has run is a schedule of
    its chunks, so every kernel result that holds of all schedules holds of the pool. */
module PoolKernels {
  import opened Numeric
  import opened ForkJoin
  import opened Layout
  import opened Kernels
  import Attention

  /** The chunks of one job among some calls, in the order of the calls. */
  function ChunksCalled(calls: seq<Call>, job: nat): seq<nat> {
    if |calls| == 0 then []
    else
      var last := calls[|calls| - 1];
      ChunksCalled(calls[..|calls| - 1], job) + if last.job == job then [last.chunk] else []
  }

  /** Every call of the job is over the same range. */
  predicate OverRange(calls: seq<Call>, job: nat, total: int) {
    forall i | 0 <= i < |calls| && calls[i].job == job :: calls[i].total == total
  }

  lemma {:induction false} ChunksCounted(calls: seq<Call>, job: nat, total: int, chunk: nat)
    requires OverRange(calls, job, total)
    ensures multiset(ChunksCalled(calls, job))[chunk] == multiset(calls)[Call(job, chunk, total)]
    decreases |calls|
  {
    if |calls| == 0 {
    } else {
      var front, last := calls[..|calls| - 1], calls[|calls| - 1];
      ChunksCounted(front, job, total, chunk);
      assert calls == front + [last];
    }
  }

  lemma {:induction false} SpanCounts(n: nat, k: nat)
    ensures multiset(Span(0, n))[k] == if k < n then 1 else 0
    decreases n
  {
    if n == 0 {
    } else {
      SpanCounts(n - 1, k);
      SpanSnoc(0, n - 1);
    }
  }

  /** In whatever order the calls of a run were made, the chunks called for a job whose
      call has returned are each of its chunks once. */
  lemma CallsAreSchedule(wrap: nat, run: seq<State>, job: nat, calls: seq<Call>)
    requires IsRun(wrap, run) && !run[|run| - 1].Active() && 1 <= job <= |run[|run| - 1].totals|
    requires multiset(calls) == run[|run| - 1].calls
    ensures Schedule(ChunksCalled(calls, job), run[|run| - 1].Threads())
  {
    hide Next, Init, ChunksCalled;
    ReturnMeansDone(wrap, run);
    var s := run[|run| - 1];
    var n, total := s.Threads(), s.totals[job - 1];
    forall i | 0 <= i < |calls| && calls[i].job == job ensures calls[i].total == total {
      assert calls[i] in multiset(calls) && s.calls[calls[i]] > 0;
    }
    forall k: nat ensures multiset(ChunksCalled(calls, job))[k] == multiset(Span(0, n))[k] {
      ChunksCounted(calls, job, total, k);
      SpanCounts(n, k);
    }
  }

  /** A matmul handed to the pool: when the call has returned, whatever the interleaving
      of the protocol, of the chunks and of the element writes, the output is the product. */
  lemma MatmulOnPool(wrap: nat, run: seq<State>, job: nat, calls: seq<Call>, val: (nat, nat) -> Float32, m: nat, n: nat,
      out: seq<Float32>, interleaved: seq<(nat, nat)>)
    requires IsRun(wrap, run) && !run[|run| - 1].Active() && 1 <= job <= |run[|run| - 1].totals|
    requires multiset(calls) == run[|run| - 1].calls && run[|run| - 1].totals[job - 1] == n && |out| == m * n
    requires multiset(interleaved)
          == multiset(FlatMap(Column(m), FlatMap(ChunkSpan(n, run[|run| - 1].Threads()), ChunksCalled(calls, job))))
    ensures IsProduct(val, m, n, Fold(PutCell(val, n), out, interleaved))
  {
    hide Next, Init, IsProduct, Fold, PutCell, FlatMap, Column, ChunkSpan, ChunksCalled, Schedule;
    CallsAreSchedule(wrap, run, job, calls);
    var threads, order := run[|run| - 1].Threads(), ChunksCalled(calls, job);
    RowsReached(n, threads, order);
    OrderIsProduct(val, m, n, out, FlatMap(ChunkSpan(n, threads), order), interleaved);
  }

  /** Attention handed to the pool: every head's slice is that head computed on its own,
      whatever the interleaving of the protocol, of the chunks and of the heads. */
  lemma AttentionOnPool(wrap: nat, run: seq<State>, job: nat, calls: seq<Call>, ops: Attention.HeadOps<Float32>,
      s: Attention.Shape, q: seq<Float32>, k: seq<Float32>, v: seq<Float32>, out: seq<Float32>, interleaved: seq<nat>)
    requires IsRun(wrap, run) && !run[|run| - 1].Active() && 1 <= job <= |run[|run| - 1].totals|
    requires multiset(calls) == run[|run| - 1].calls && run[|run| - 1].totals[job - 1] == s.Heads()
    requires s.Valid() && |q| == |out| == s.Heads() * s.dim && |k| == |v| == s.HistorySize()
    requires multiset(interleaved)
          == multiset(FlatMap(ChunkSpan(s.Heads(), run[|run| - 1].Threads()), ChunksCalled(calls, job)))
    ensures forall h: nat | h < s.Heads() ::
      RowIs(Fold(PutHead(Attention.Head(ops, s, q, k, v), s.dim), out, interleaved), h, s.dim,
        Attention.HeadOf(ops, s, q, k, v, h))
  {
    hide Next, Init, Fold, PutHead, FlatMap, ChunkSpan, ChunksCalled, Schedule, Attention.HeadOf, RowIs;
    CallsAreSchedule(wrap, run, job, calls);
    var threads, order := run[|run| - 1].Threads(), ChunksCalled(calls, job);
    RowsReached(s.Heads(), threads, order);
    var head := Attention.Head(ops, s, q, k, v);
    assert forall h: nat | h < s.Heads() :: head(h) == Attention.HeadOf(ops, s, q, k, v, h);
    HeadsInAnyOrder(head, s.dim, s.Heads(), out, interleaved);
  }
}
