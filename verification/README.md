# Verified model of llmengine's inference core

llmengine decodes greedily from a Llama model in several ways: one request at a time over a contiguous KV cache
(`generate`, `generate_streaming`), and many requests at once over a pool of KV blocks (the static and the continuous
batch scheduler). Its promise is that every fast path computes what one simple loop computes. This project states that
promise and proves it.

The reference is `Meaning.dfy`: hidden rows, keys, values and logits as functions of the tokens alone, with no cache,
no batch and no schedule, and `Greedy`, the loop over them. Floating-point operations and layer arithmetic are
functions about which nothing is assumed (fields of `Model`), so equality means equal bits. Reals appear only where
the claim is about size or reassociation: int8 error, lane splitting, rotary frequencies. The kernels are written for
any type of scalar: of floats they say which bits, of reals they say which number (`DotProducts`, `AttentionReals`; `DotProducts.RealsAreValues`).

| part | files |
|---|---|
| reference semantics and the same layer by layer, scalars, row-major layout | `Meaning`, `Layers`, `Numeric`, `Layout` |
| contiguous cache; paged store and cache; runs of several paged caches, on values and on objects | `KvCache`; `PagedStore`, `PagedKv`; `PagedRuns`, `CacheTwins` |
| what a cache remembers; forward passes over shared scratch; batches | `Recall`; `EngineCore`; `BatchStore` |
| generation, its reference loop, streaming, storage precision | `Generation`, `Streaming`, `Precision` |
| schedulers on values: operations, one sequence, invariant, runs, what is fed, what a step gets done, memory, results | `SchedSpec`, `SeqProofs`, `Sums`, `SchedProofs`, `SchedTheorems`, `SchedFeeds`, `SchedProgress`, `SchedMemory`, `SchedResults`, `StaticSpec` |
| schedulers as objects: sequences, lists, batches, the two classes | `Sequences`, `SequenceLists`, `LiveRows`, `BatchTurns`, `DecodeRows`, `Scheduler`, `StaticScheduler` |
| callers of the schedulers | `Serving` |
| chunk split, fork-join protocol, the pool under the kernels | `Chunks`, `ForkJoin`, `PoolKernels` |
| batched projections on flat buffers | `BatchKernels` |
| numeric kernels, and what they compute | `Kernels`, `Attention`, `Lanes`, `Quantize`, `Rope`; `DotProducts`, `AttentionReals` |

How the pieces meet: a scheduler class keeps a ghost value of type `SchedSpec.SchedV`; every method proves that its
change of the fields, the sequence objects, the block pool and the stored rows is the specification's change of that
value. The continuous scheduler also keeps the run that led to it, and `Valid()` says that it is one. Everything
promised about a schedule is then proved once about runs of those values, over every interleaving of enqueues, steps,
sweeps, budget changes and clearing of results, and applies to the object at any moment. The value also carries the
prompt positions fed so far, which the prefill loops of the class produce. The engine's methods are proved against
`Meaning` in the same way, from any contents of the shared scratch. `Serving` puts the pieces together: it enqueues, runs
and collects with either scheduler, and compares with `generate` on each request alone.

Two results say when the code does less than its comments:

* A scheduler agrees with `generate` for all weights exactly in fp32 storage mode (`Precision.AgreesOnlyInF32`). In the
  other modes the contiguous cache narrows its rows (src/engine.cpp:688-692) and the pool does not. Casts, rotation,
  attention, residual addition and comparison are held fixed here. For any such arithmetic the two agree if and only if
  attention cannot tell narrowed rows from the originals, or residual addition cannot pass a difference on, or no logit
  ever beats another (`Precision.AgreesExactly`). The code's arithmetic is of the kind that differs: over one position
  attention returns the value it was given (`Attention.OnePositionCopies`), and 16 bits cannot hold all normal numbers of
  32 (`Precision.NeverLossless`); `Precision.CopyingArithmetic` is a small example. The schedulers' results are
  therefore stated against the single-precision `Greedy`.
* Chunks that are empty are not always the trailing ones, against src/parallel.cpp:21: they are exactly when the range
  is empty or has at least as many rows as there are threads (`Chunks.EmptyChunksTrailExactly`). A range of one row
  (`Chunks.EmptyChunksAreNotTrailing`) is an instance of the failing family.

`dafny verify dfyconfig.toml` checks the whole project.

## Model

| member | source | states |
|---|---|---|
| Meaning.ChampionIsFirstMaximum | src/engine.cpp:52-58 | for a strict weak order, argmax is the first index at which no other logit is greater |
| EngineCore.Argmax | src/engine.cpp:52-58 | the scan with its running maximum ends at the champion of the whole row |
| Meaning.GreedyExactly | src/engine.cpp:758-773 | `Greedy` is the one run in which every new token is the best of the logits so far and does not end the text, and which stops at the cap or where the best token would |
| Layers.ForwardIsHidden | src/engine.cpp:105-261 | a forward pass written layer by layer over the whole sequence, every norm-and-projection, rotation, attention and residual spelled out with its own layer's weights and its own position, gives the rows of the token-by-token definition |
| Layers.ForwardLogits | src/engine.cpp:105-261 | and its last rows give the logits of every prefix |
| Layers.ForwardExists | src/engine.cpp:105-261 | there is such a pass for every model and sequence |
| Layers.LayerHalves | src/engine.cpp:191-247 | of a layer whose feed-forward is absorbed by addition only the attention half is left, of one whose output projection is absorbed only the feed-forward half, of one with both nothing |
| Layers.LayerIsItsOwn | src/engine.cpp:105-261 | models that share layer l and enter it with the same rows leave it with the same row, whatever their other layers are |
| KvCache.ContiguousKVCache.constructor | src/kv_cache.cpp:9-33 | a new cache has one row for every layer and position, the stored precision asked for, and zeros everywhere |
| KvCache.ContiguousKVCache.Write | src/kv_cache.cpp:45-64 | exactly the row of that layer and position changes, to the cast of the input; out-of-range coordinates fail and change nothing |
| KvCache.ContiguousKVCache.GatherLayer | src/kv_cache.cpp:66-85 | succeeds exactly in range, and then both buffers begin with the stored rows of positions [0, count) of the layer, widened; otherwise they are as they were |
| KvCache.ContiguousKVCache.LayerF32 | src/kv_cache.cpp:87-97 | the direct reading exists exactly for single precision and equals the gathered one |
| KvCache.PutKeepsMirror | src/kv_cache.cpp:52-63 | overwriting the computed offset changes one logical row and no other |
| PagedStore.OffsetIsRowMajor | src/paged_kv.cpp:49-66 | pool offsets of every block, K or V half, layer and slot are in bounds and row-major |
| PagedStore.RowIndexInjective | src/paged_kv.cpp:49-66 | block, half, layer and slot are recovered from the row number |
| PagedStore.SlotsDisjoint | src/paged_kv.cpp:49-66 | different slots occupy disjoint stretches of the pool |
| PagedStore.PutKeepsMirror | src/paged_kv.cpp:104-109 | copying a row over one slot changes that slot's logical row and no other |
| PagedStore.SlotOfInjective | src/paged_kv.cpp:90-102 | through a table without duplicates, different layers, positions or halves reach different slots |
| PagedStore.TakeKeepsOwned | src/paged_kv.cpp:97-101 | taking a block keeps the table duplicate-free, in range and disjoint from the free list |
| PagedStore.ReleaseKeepsOwned | src/paged_kv.cpp:135-139 | giving a table back leaves the free list duplicate-free and in range |
| PagedKv.BlockManager.constructor | src/paged_kv.cpp:8-28 | a pool of the computed size, all zeros, with blocks 0..n-1 free in order |
| PagedKv.BlockManager.Allocate | src/paged_kv.cpp:30-36 | the front of the free list, or -1 and no change when it is empty |
| PagedKv.BlockManager.Free | src/paged_kv.cpp:38-42 | an id in range goes to the back of the free list, any other is ignored |
| PagedKv.PagedKVCache.Write | src/paged_kv.cpp:88-111 | takes a block exactly when the position is past the table; stores exactly one key and one value row, or fails with free list, table and all rows as they were |
| PagedKv.PagedKVCache.Gather | src/paged_kv.cpp:113-133 | fails without a manager or beyond the table; otherwise each buffer begins with the stored rows of the layer in order |
| PagedKv.PagedKVCache.ReleaseAll | src/paged_kv.cpp:135-139 | every owned block is back on the free list, in table order, and no row changes |
| PagedKv.PagedKVCache.MoveFrom | src/paged_kv.cpp:77-86 | blocks held before go back, blocks of the source change owner, the source is left empty, no stored row changes, self-assignment does nothing |
| Recall.StoreIsPrivateWrite | src/paged_kv.cpp:88-111 | seen through its own table, a successful paged write is a write at one place of a private history |
| Recall.ViewFrame | src/paged_kv.cpp:88-111 | writes to blocks a cache does not own do not change what it reads |
| PagedRuns.WriteAgrees | src/paged_kv.cpp:88-111 | one cache's write keeps every cache on the pool in agreement with its private contiguous cache |
| PagedRuns.ReleaseAgrees | src/paged_kv.cpp:135-139 | and so does a release |
| PagedRuns.RunAgrees | src/paged_kv.cpp:88-139 | any interleaving of writes and releases by any number of caches keeps that agreement |
| PagedRuns.SharedPoolIsPrivate | src/paged_kv.cpp:88-139 | after any such run a gather succeeds for the positions written and returns what a private history of the same writes holds |
| CacheTwins.WriteBoth | tests/test_paged_kv.py:20-43 | one write to a paged cache and, if the pool took it, to a single-precision contiguous cache keeps the second in agreement with its history |
| CacheTwins.Play | src/paged_kv.cpp:88-139 | any interleaving of writes and releases, made on paged cache objects that share a pool and on contiguous cache objects that share nothing, leaves the first in the state of the run and each of the second holding its private history |
| CacheTwins.PagedIsContiguous | tests/test_paged_kv.py:20-43 | and then gathering written positions from a paged cache returns, row for row, what gathering them from its contiguous cache returns |
| Recall.HoldsLayer | src/engine.cpp:163-170 | writing the last token's rows of a layer, given the earlier ones, completes that layer of the history |
| Recall.HoldsFeeds | src/engine.cpp:172-189 | what a completed layer returns is the reference's keys and values for every position |
| EngineCore.Engine.ForwardStep | src/engine.cpp:105-261 | over a cache that holds a history, one step extends what it holds by the token and returns the reference logits, in either stored precision and from any scratch |
| EngineCore.Engine.ReadLayer | src/engine.cpp:172-185 | attention reads the stored rows of the layer, in place in single precision and through the grown scratch in half |
| EngineCore.Engine.EnsurePagedScratch | src/engine.cpp:263-271 | the gather buffers, which grow together, are large enough afterwards, whatever they held |
| EngineCore.Engine.ForwardStepPaged | src/engine.cpp:273-282 | a bad token is refused before anything changes; otherwise the locked step |
| EngineCore.Engine.ForwardStepPagedLocked | src/engine.cpp:284-435 | one paged step: reference logits and history extended, or, exactly when a block is needed and none is free, failure with table, free list and all rows unchanged |
| EngineCore.Engine.PagedLayer | src/engine.cpp:307-413 | one layer of that step; a refused write leaves all rows unchanged |
| EngineCore.TableGrows | src/paged_kv.cpp:97-101 | a table for n positions has ceil(n / block size) blocks before and after a write; a block is needed exactly at block boundaries |
| EngineCore.Engine.EnsureBatchScratch | src/engine.cpp:469-486 | every batch buffer has room for the batch afterwards |
| EngineCore.Engine.AttendRow | src/engine.cpp:568-594 | one live row: its own cache takes the token's rows, its attention output is the reference's, every other row of the scratch is untouched |
| EngineCore.Engine.DecodeLayer | src/engine.cpp:527-664 | one layer of the batch: every live row's hidden row is the reference's, blocks are taken in row order, rows of other caches do not change |
| EngineCore.Engine.ForwardDecodeBatch | src/engine.cpp:488-682 | every live row gets the reference logits and extends its own history, every dead row keeps its history, nothing outside the batch's tables changes, whatever dead rows and old scratch hold |
| BatchStore.BatchTakeCounts | src/engine.cpp:581-589 | a row dies exactly when it needs a block and at least as many earlier rows need one as blocks were free |
| BatchStore.BatchTakeFree | src/engine.cpp:581-589 | rows in need take from the head of the free list until it is empty |
| BatchStore.BatchTakeIdle | src/engine.cpp:527-589 | once every live row is inside its table a further layer takes nothing and kills nobody, so a write can fail only at layer 0 |
| BatchStore.RowTakes | src/engine.cpp:568-589 | a row that takes a block keeps all tables disjoint |
| BatchStore.BatchRow | src/engine.cpp:568-594 | one row's write leaves what every other row holds as it was |
| Generation.ForwardLogits | src/engine.cpp:694-716 | refuses bad tokens and over-long input with the code's errors; otherwise the reference logits of every prefix |
| Generation.Generate | src/engine.cpp:718-774 | accepts exactly the requests with a prompt of legal tokens, a cap that is not negative and room below the position limit, with the code's error otherwise, and returns the greedy outcome in the mode's stored precision |
| Generation.Prefill | src/engine.cpp:753-756 | after the prompt the cache holds it and the logits are those of its last position |
| Generation.Decode | src/engine.cpp:758-773 | the loop that skips the last forward pass returns the greedy outcome |
| Generation.ReferenceGenerate | tests/test_kv_cache.py:51-61 | recomputing the logits of the whole growing sequence gives the same outcome as `Generate`, in every storage mode |
| Generation.ForwardLogitsPaged | src/engine.cpp:437-467 | succeeds exactly when tokens, length and free blocks allow it, returns the single-precision reference logits, and gives every block back either way |
| Generation.PagedPass | src/engine.cpp:450-464 | fails exactly when the pool has fewer blocks than the length needs |
| Precision.AgreesOnlyInF32 | src/engine.cpp:684-692 | for any fixed arithmetic whose attention copies a single value, whose residuals carry a difference and whose comparison chooses, the cache `generate` uses decodes what the pool decodes, for all weights and requests, if and only if the storage mode is fp32 |
| Precision.AgreesExactly | src/engine.cpp:684-692 | for any fixed arithmetic, half-precision storage changes no decoded token, for any weights and requests, if and only if attention cannot tell narrowed rows, or residual addition cannot carry a difference, or no logit beats another |
| Precision.NoticedLossChangesTokens | src/engine.cpp:105-261 | if attention on some history tells, residuals carry and the comparison chooses, there are weights and a request whose tokens differ |
| Precision.UnnoticedHidden | src/engine.cpp:105-261 | if either of the first two is missing, every hidden row of every model is the same in both precisions |
| Precision.CopyingReads | src/kernels.cpp:438-471 | attention that returns the single value it is given tells what the narrow precision loses |
| Precision.NeverLossless | include/llmengine/kv_cache.hpp:29-31 | whatever the casts between 32 and 16 bits are, some positive normal number does not come back |
| Streaming.GenerateStreaming | src/engine.cpp:776-866 | under any interference the environment alone decides the ending, without counting what was asked: the first poll that says yes, the first step or the first callback that throws, each at its place in the order of the code, with the tokens chosen by then, and otherwise `generate`'s; a report that throws is made once more as "error" if nothing had been caught before, and escapes otherwise; the mutex is never held in a callback or after return |
| Streaming.Stream.Attempt | src/engine.cpp:798-854 | that ending for every request: a bad token or a failed load is caught, the other refusals report "error" on their own, an accepted request ends as its environment says |
| Streaming.Stream.FeedPrompt | src/engine.cpp:823-829 | prefill asks poll i and then makes step 2 + i for every position i; a stop is the first of them to happen |
| Streaming.Stream.StepOn | src/engine.cpp:823-829 | one forward step extends what the cache holds by the token, or the fault script says that this step throws |
| Streaming.Stream.Round | src/engine.cpp:834-854 | round k asks poll |prompt| + k, then samples, then calls back, then makes step 2 + |prompt| + k unless this was the last token; it keeps the stream on generation's path or ends it as the environment says |
| Streaming.Stream.EmitTokens | src/engine.cpp:831-854 | the decoding loop around callbacks ends as the environment says |
| Streaming.Stream.Deliver | src/engine.cpp:839-845 | the callback runs with the mutex free and it is held again afterwards unless the callback threw |
| Streaming.Stream.Finish | src/engine.cpp:789-792 | releases the mutex if held and calls `on_done` once, which may throw |
| Streaming.OneReport | src/engine.cpp:794-866 | `on_done` is called exactly once if and only if it does not throw or is called from the handler |
| Streaming.UndisturbedIsGenerate | src/engine.cpp:776-866 | left alone, prompt plus streamed tokens and reason are `generate`'s outcome |
| Streaming.ChosenIsPrefix | src/engine.cpp:831-854 | the tokens are always the first ones `generate` would add |
| Streaming.CancelIsHeeded | src/engine.cpp:823-838 | a cancel seen during the prompt lets no token out, one seen at the poll before token k lets out at most k |
| Streaming.CancelledExactly | src/engine.cpp:823-838 | if nothing throws, the reason is "cancelled" if and only if one of the |prompt| + |added| polls, and one more below the cap, says yes |
| Streaming.FailedExactly | src/engine.cpp:798-854 | if nobody cancels and no callback throws, the reason is "error" if and only if one of the steps generation takes throws |
| Streaming.EndingIsUnique | src/engine.cpp:776-866 | a request and an environment have one ending: reason and tokens |
| SchedSpec.PrefillTokens | src/scheduler.cpp:185-197 | feeding a prompt changes neither tokens nor request, and ends a sequence only with "capacity" |
| SeqProofs.PrefillRunFacts | src/scheduler.cpp:185-197 | the budget spent is the positions fed; blocks are conserved and cover exactly the cursor; it stops at the end of the prompt, of the budget or of the free list |
| SeqProofs.PrefillTurnOk | src/scheduler.cpp:183-232 | a prefill turn keeps a sequence on its own greedy run; left-over budget means it is no longer prefilling; "capacity" means an empty free list and unmet need |
| SeqProofs.SampledTracks | src/scheduler.cpp:209-225 | sampling with the cap check right after the push follows the greedy run, and a finished sequence has exactly its outcome |
| SeqProofs.DecodeTurnOk | src/scheduler.cpp:264-283 | a decode turn keeps a sequence on its own greedy run and conserves blocks |
| SeqProofs.FinishedIsFaithful | src/scheduler.cpp:18-20 | a finished sequence's snapshot is the greedy outcome, or for "capacity" a prefix of its tokens |
| SeqProofs.NeedIsReached | src/scheduler.cpp:264-283 | the need of a request is tight: a sequence that generates all its tokens ends holding exactly so many blocks |
| SchedProofs.AdvanceKeeps | src/scheduler.cpp:177-233 | the prefill pass keeps every sequence right, every block and every id counted once, and moves only running ones |
| SchedProofs.AdvanceSpends | src/scheduler.cpp:177-233 | cursors advance by the budget spent, never more than the budget; budget is left only if everything still listed is finished |
| SchedProofs.AdvanceLighter | src/scheduler.cpp:177-233 | a pass over a list that is not empty lowers the work left |
| SchedFeeds.TraceIs | src/scheduler.cpp:185-197 | the successful forwards of one turn are as many as the budget it spends and are at its next positions in order |
| SchedFeeds.AdvanceFeeds | src/scheduler.cpp:177-233 | a pass makes exactly as many successful prefill forwards as it spends budget, and only for sequences on its list |
| SchedFeeds.AdvanceInOrder | src/scheduler.cpp:177-233 | if each listed sequence was fed 0, 1, ..., cursor - 1 before the pass it was after it, and those that start running were fed their whole prompt |
| SchedFeeds.StepFeeds | src/scheduler.cpp:297-313 | a step keeps that for every sequence, appends at most the budget, and appends fewer only if everything left in the prefilling list is finished |
| SchedFeeds.RunFeedsInOrder | src/scheduler.cpp:177-233 | in every run each request's prompt positions are fed once each in the order 0, 1, 2, ...: none while it waits, as many as its cursor while it prefills, the whole prompt from the moment it runs, and never anything else |
| SchedFeeds.StepOfRunSpends | src/scheduler.cpp:177-233 | each step of every run makes at most `max_prefill_tokens_per_step` prefill forwards, and fewer only if everything left in the prefilling list is finished |
| SchedProgress.AdvanceServesFront | src/scheduler.cpp:177-233 | while a sequence still has prompt to feed, nobody behind it in the list is fed |
| SchedProgress.AdvanceKeepsOrder | src/scheduler.cpp:177-233 | what stays in the list and what moves on keep the order of the list |
| SchedProgress.PassTakesTurns | src/scheduler.cpp:235-284 | in a decode pass every running sequence takes exactly one turn: one more token, or an end at an end-of-text token, at the cap or for want of a block |
| SchedProgress.StepProgresses | src/scheduler.cpp:297-313 | a step sweeps up everything finished, lets in the first of the queue until it is empty or the cap is reached, keeps everybody unfinished live, and decodes once for whoever ran before or started to run in it, the newcomers behind the others |
| SchedProgress.StepOfRunProgresses | src/scheduler.cpp:297-313 | so after each step of every run the queue is empty or exactly max_concurrent sequences are live |
| SchedProgress.RunHasTwoTokens | src/scheduler.cpp:209-283 | at any moment of any run a running sequence has generated at least two tokens: its first is followed by a decode in the same step |
| SchedProofs.DecodeKeeps | src/scheduler.cpp:235-284 | the decode pass keeps the same |
| SchedProofs.AdmitKeeps | src/scheduler.cpp:301-307 | admission takes the head of the queue, never exceeds the cap, and admits somebody when nothing is live |
| SchedProgress.AdmitFills | src/scheduler.cpp:301-307 | with k the smaller of the queue and the room below the cap, the first k of the queue start prefilling in order behind the others, and nothing else changes |
| SchedProofs.FinalizePrefillingKeeps | src/scheduler.cpp:286-295 | whatever order the partition leaves, sweeping a list keeps the invariant and removes exactly the finished |
| SchedProofs.FinalizeRunningKeeps | src/scheduler.cpp:286-295 | the same for the running list |
| SchedProofs.ReleaseCounts | src/scheduler.cpp:290-291 | released blocks are added to the free list one for one |
| SchedProofs.EnqueueKeeps | src/scheduler.cpp:153-175 | a new request keeps the invariant |
| SchedTheorems.StepKeeps | src/scheduler.cpp:297-313 | a step keeps the invariant, and from a state that is not idle strictly lowers the work left |
| SchedTheorems.NextKeeps | src/scheduler.cpp:153-319 | so does everything a caller can do, and requests are never lost |
| SchedTheorems.RunKeeps | src/scheduler.cpp:136-319 | the invariant holds at the end of every run |
| SchedTheorems.ReachableState | src/scheduler.cpp:286-319 | in every reachable state each block the scheduler was built on is once free or once held, waiting sequences own none, tables are ceil(fed / block size), positions stay below the limit, the cap holds and the queue is in arrival order |
| SchedTheorems.RunRefinesGenerate | src/scheduler.cpp:177-319 | for every run, each result that is not "capacity" is exactly the greedy outcome of its request, and each "capacity" result a prefix of it |
| SchedTheorems.IdleMeansDone | src/scheduler.cpp:297-319 | at the end of every run that is idle the free list is the one it was built on, up to order, and every request is done exactly once |
| SchedMemory.RunNeverStarves | src/scheduler.cpp:297-313 | with max_concurrent times the largest need in blocks no sequence of any run ends with "capacity" |
| SchedMemory.EnoughMemoryMeansGenerate | src/scheduler.cpp:177-319 | with that much memory every result of every run is exactly the greedy outcome |
| SchedMemory.AdvanceNeverStarves | src/scheduler.cpp:177-233 | free and held blocks that cover the list's needs are enough for the prefill pass |
| SchedMemory.DecodeNeverStarves | src/scheduler.cpp:235-284 | and for the decode pass |
| SchedResults.SortedById | include/llmengine/scheduler.hpp:121-128 | a permutation of the results in ascending id |
| SchedResults.ResultsAreComplete | include/llmengine/scheduler.hpp:118-128 | when idle and not cleared, results hold each enqueued id exactly once, result k at place k |
| SchedResults.StepLosesNone | src/scheduler.cpp:286-313 | a step appends one result for each sequence it finds finished and takes none away |
| LiveRows.TurnLeavesOthers | src/scheduler.cpp:184-197 | one sequence's turn keeps all blocks counted once and every other sequence's stored rows |
| BatchTurns.BatchIsPass | src/scheduler.cpp:235-284 | one batched decode gives every sequence and the free list what single decode turns in list order give |
| DecodeRows.BatchHeld | src/scheduler.cpp:259-283 | after a batched step every live sequence, in the batch or not, still has its history stored |
| Sequences.Sequence.constructor | include/llmengine/scheduler.hpp:30-36 | a new request waits with cursor 0 and an empty table on the pool |
| Sequences.FeedOne | src/scheduler.cpp:186-196 | one prompt position: cursor, table and history advance together, or "capacity" with nothing stored |
| Sequences.FeedPrompt | src/scheduler.cpp:185-197 | the inner loop is the specification's, makes the forwards it records, and leaves other caches' rows alone |
| Sequences.PrefillOne | src/scheduler.cpp:183-232 | a sequence's turn is the specification's turn, makes the forwards it records, its rows are in place, rows outside its table are unchanged |
| Scheduler.Partition | src/scheduler.cpp:288-289 | some permutation split into unfinished and finished |
| Scheduler.ContinuousBatchScheduler.constructor | src/scheduler.cpp:136-151 | over any free list without duplicates, a new scheduler is an initial state of the specification and the start of a run, and has made nothing |
| Scheduler.ContinuousBatchScheduler.Enqueue | src/scheduler.cpp:153-175 | accepts exactly what `generate` accepts; a refusal changes nothing; acceptance appends to the queue with the next id and to the run; the sequence made and its cache are new objects, so the caller may go on and run |
| Scheduler.ContinuousBatchScheduler.Sweep | src/scheduler.cpp:286-295 | finished sequences leave in partition order: results appended, blocks to the back of the free list, other sequences untouched |
| Scheduler.ContinuousBatchScheduler.AdmitWaiting | src/scheduler.cpp:301-307 | exactly as many of the queue as there is room for start prefilling, in order, as in the specification's admission |
| Scheduler.ContinuousBatchScheduler.AdvancePrefilling | src/scheduler.cpp:177-233 | the in-place pass with erasures is the specification's pass, the forwards it made included, and every live sequence's rows are stored |
| Scheduler.ContinuousBatchScheduler.DecodeRunning | src/scheduler.cpp:235-284 | the batched pass is the specification's decode pass |
| Scheduler.ContinuousBatchScheduler.Step | src/scheduler.cpp:297-313 | one iteration is a step of the specification, extends the run by it, gets all of that done, leaves the queue empty or the cap reached, and reports whether work is left |
| Scheduler.ContinuousBatchScheduler.RunUntilIdle | src/scheduler.cpp:315-319 | terminates, idle, having extended the run; the free list is what it was at construction up to order, every request is done exactly once, no result is lost, and with enough memory none starved |
| Scheduler.ContinuousBatchScheduler.SetMaxPrefillTokensPerStep | include/llmengine/scheduler.hpp:111-116 | refuses a budget below one, else changes the budget only |
| Scheduler.ContinuousBatchScheduler.Results | include/llmengine/scheduler.hpp:121-128 | results sorted by id, each faithful to its request and with enough memory exactly its greedy outcome, complete when idle and not cleared |
| StaticSpec.PrefillWholeOk | src/scheduler.cpp:60-94 | a whole prompt in one turn ends running or finished and on its own greedy run |
| StaticSpec.RoundLighter | src/scheduler.cpp:97-124 | a lockstep round in which anything runs lowers the work left |
| StaticSpec.PrefillNeverStarves | src/scheduler.cpp:60-94 | blocks for the sum of all needs are enough for the prefill sweep |
| StaticScheduler.PrefillAlone | src/scheduler.cpp:61-93 | a sequence's sequential prefill is the specification's, rows stored and others untouched |
| StaticScheduler.DecodeAlone | src/scheduler.cpp:100-121 | a sequence's lockstep turn is the specification's |
| StaticScheduler.StaticBatchScheduler.Enqueue | src/scheduler.cpp:29-52 | accepts exactly the legal requests, in order; a refusal changes nothing; the sequence made and its cache are new objects, so the caller may go on and run |
| StaticScheduler.StaticBatchScheduler.PrefillAll | src/scheduler.cpp:59-94 | the prefill sweep is the specification's, in list order |
| StaticScheduler.StaticBatchScheduler.DecodeRound | src/scheduler.cpp:97-123 | one round is the specification's decode pass, gives every running sequence exactly one turn, and reports whether anything ran |
| StaticScheduler.StaticBatchScheduler.Drain | src/scheduler.cpp:126-131 | every table goes back in order and results are appended in enqueue order |
| StaticScheduler.StaticBatchScheduler.RunUntilDone | src/scheduler.cpp:54-132 | terminates; one faithful result for each pending request, in order; the free list is a permutation of what it was; with the sum of all needs free at the start none is "capacity" |
| StaticScheduler.Drained | src/scheduler.cpp:126-132 | prefill and rounds conserve blocks, so draining restores the free list up to order |
| Serving.EnqueueAll | tests/test_scheduler.py:85-86 | enqueuing a list adds the legal requests in order and refuses the others, and everything made is new |
| Serving.ServeContinuous | tests/test_scheduler.py:73-94 | a new scheduler, any list of requests, `run_until_idle`, results: one result for each legal request in order, greedy or a capacity prefix, all greedy with memory for max_concurrent of the largest, and the free list as before up to order |
| Serving.ServeStatic | tests/test_scheduler.py:47-68 | the same for the static scheduler, all greedy with memory for the sum of the needs |
| Serving.CompareAll | tests/test_scheduler.py:1-7 | in fp32 mode with that memory, both schedulers and `generate` on each request alone return the same tokens and reasons |
| Chunks.ChunksPartition | src/parallel.cpp:19-27 | chunks are contiguous, cover [0, total), contain each index in exactly one, and differ in size by at most one |
| Chunks.NoOverflow | src/parallel.cpp:24-25 | the 64-bit products do not overflow for int totals and 64 threads |
| Chunks.EmptyChunksAreNotTrailing | src/parallel.cpp:21-27 | an input at which the comment fails: with one row only the last chunk is not empty |
| Chunks.EmptyChunksTrailExactly | src/parallel.cpp:21-27 | every chunk after an empty one is empty if and only if there are no rows or at least as many rows as threads |
| Chunks.NoChunkEmpty | src/parallel.cpp:21-27 | no chunk is empty if and only if there are at least as many rows as threads |
| ForkJoin.NextKeeps | src/parallel.cpp:42-97 | every step of caller or worker, spurious wakeups and shutdown included, keeps the protocol invariant |
| ForkJoin.ReturnMeansDone | src/parallel.cpp:54-97 | in every interleaving, when no call is outstanding each chunk of each job has run exactly once, nothing else was called, no worker holds a job and all have seen the current generation |
| ForkJoin.EveryIndexOnce | src/parallel.cpp:54-97 | each index of each job is in exactly one chunk that was run, and that chunk ran once |
| PoolKernels.CallsAreSchedule | src/parallel.cpp:54-97 | in whatever order a run's calls were made, the chunks called for a returned job are a schedule of its chunks |
| PoolKernels.MatmulOnPool | src/kernels.cpp:46-57 | so a product handed to the pool is right under every interleaving of the protocol, of the chunks and of the element writes |
| PoolKernels.AttentionOnPool | src/kernels.cpp:413-474 | and attention handed to the pool is each head computed on its own, under every interleaving of the protocol, of the chunks and of the heads |
| ForkJoin.WorkersAreRecent | src/parallel.cpp:75-89 | a worker's generation is the current or the previous one, across wrap-around, and a running worker calls the current job |
| ForkJoin.NoLostWakeup | src/parallel.cpp:56-97 | a sleeper whose condition holds still has a notification to come |
| ForkJoin.SomebodyMoves | src/parallel.cpp:54-97 | while the caller is in the pool or its destructor somebody can step without a spurious wakeup |
| ForkJoin.MovesLower | src/parallel.cpp:54-97 | every step that is not a spurious wakeup lowers a measure of the call |
| ForkJoin.CallsReturn | src/parallel.cpp:42-97 | so an execution without spurious wakeups is at most the measure long, and where it stops the caller has returned |
| ForkJoin.GoneMeansExited | src/parallel.cpp:42-50 | when the destructor has run every worker has left its loop |
| ForkJoin.CallsHoldNoLock | src/parallel.cpp:54-97 | in every state of every run nobody inside a job function holds the mutex |
| Kernels.DispatchIsPermutation | include/llmengine/parallel.hpp:41-49 | serially or over chunks in any order, each row is dispatched exactly once |
| Kernels.ForksExactly | include/llmengine/parallel.hpp:41-49 | the order can differ from the serial one if and only if there are two rows or more, work at or above the threshold and more than one thread |
| Kernels.ParallelIsSerial | include/llmengine/parallel.hpp:33-49 | for units of work that write disjoint outputs every interleaving of any dispatch equals the serial loop |
| Kernels.MatmulIsProduct | src/kernels.cpp:33-57 | for every thread count, threshold, chunk order and interleaving each output element is its own dot product |
| Kernels.ProductIsUnique | src/kernels.cpp:39-45 | there is only one such output, so the result is bit-identical to any other order |
| DotProducts.ElementAccumulates | src/kernels.cpp:46-56 | every output element is where the partial sums end that start at zero and add every product of the two rows in order, bit for bit |
| DotProducts.OneHotPicks | src/kernels.cpp:46-56 | an activation row that is one at place p and zero elsewhere picks weight p of each output channel |
| DotProducts.ProductOverReals | src/kernels.cpp:209-238 | under any map that carries the scalars to the reals an element's value is the sum the vector kernels' lanes add up to |
| Kernels.RowOfProduct | src/scheduler.cpp:242-245 | row i of a product with M activation rows is, bit for bit, the product with that row alone |
| BatchKernels.ProjectRowIsProduct | src/kernels.cpp:33-57 | a row's projection is the product with that row as the only activation row |
| BatchKernels.ProductIsRows | src/engine.cpp:540-560 | a flat product over a batch, cut into rows, is each row's own projection |
| BatchKernels.ProjectFlat | src/engine.cpp:540-560 | the dispatched product on flat buffers begins with exactly the rows that the projection on one row per sequence returns |
| Kernels.DotLoop | src/kernels.cpp:51-53 | the accumulating loop is the left-to-right dot product with uninterpreted operations |
| Kernels.MatmulChannels | src/kernels.cpp:46-56 | a chunk's body writes exactly its channels, weight row outer |
| Kernels.Matmul | src/kernels.cpp:33-57 | the dispatched weight-stationary product satisfies that definition |
| Kernels.MatmulSerial | src/kernels.cpp:39-45 | and so does the activation-row-outer loop |
| Kernels.PutHeadCommutes | src/kernels.cpp:424-428 | heads write disjoint slices, so their order does not matter |
| Kernels.AttentionWritesHeads | src/kernels.cpp:424-473 | under every schedule and interleaving each head's slice of the output is that head's row |
| Kernels.AttentionIsSerial | src/kernels.cpp:424-473 | splitting heads over the pool gives the serial result for every thread count and order |
| Attention.ScoreHead | src/kernels.cpp:442-452 | the loop over the history leaves the scaled dot products in the score buffer and their maximum |
| Attention.Softmax | src/kernels.cpp:454-461 | in place, every score is moved by the top, exponentiated and multiplied by one common factor; where those keep the order, the weights are in the order of the scores |
| Attention.MixHead | src/kernels.cpp:463-470 | the cleared slice accumulates to the weighted sum of the value rows, and nothing else changes |
| Attention.AttendHead | src/kernels.cpp:438-471 | one head, from whatever the reused score buffer held, writes exactly its slice with its row |
| Attention.AttendHeads | src/kernels.cpp:431-473 | a chunk's body is the fold of those writes over its heads |
| Attention.AttentionIsHeads | src/kernels.cpp:413-474 | under every dispatch and interleaving of whole heads the output holds, for each head, softmax of its scaled scores times the values of its group |
| Attention.HeadReadsItsGroup | src/kernels.cpp:438-442 | query heads of group g read key and value head g and nothing else of the history |
| AttentionReals.SoftmaxOverReals | src/kernels.cpp:454-461 | over the reals the buffer holds positive weights that add up to one, in the proportions of the exponentials of the scores |
| AttentionReals.HeadIsAverage | src/kernels.cpp:413-474 | over the reals a head's output is the average of its group's value rows, weighted by the exponentials of the scaled products of query and keys, with every index into the flat buffers written out |
| AttentionReals.AttendOverReals | src/kernels.cpp:438-471 | and that is what the kernel leaves in the head's slice, from whatever the buffers held |
| AttentionReals.SharedValueComesBack | src/kernels.cpp:463-470 | a value that all positions share comes back as itself |
| Attention.OnePositionCopies | src/kernels.cpp:438-471 | over one position, with a score that is a number and one over one equal to one, a head returns its value row through one multiplication by one and one addition to zero |
| Lanes.FmaAddsFour | src/kernels.cpp:224-227 | a vector step of one accumulator is four steps of the plain sum |
| Lanes.LaneDot | src/kernels.cpp:209-238 | four accumulators, the four-wide loop and the scalar tail equal the plain sum for every length |
| Lanes.ScalarDot | src/kernels.cpp:51-53 | the scalar loop equals the same sum, so the vector kernels refine the scalar ones |
| Quantize.QuantizePerRow | src/model.cpp:67-105 | refuses a shape mismatch with nothing written and, as soon as there is an element to read, a precision other than the three; otherwise every row holds its nearest multiples and its stored scale |
| Quantize.DoneRowIs | src/model.cpp:83-104 | row j of the flat outputs is the quantized row j of the flat input, element by element, with its own scale |
| Quantize.FindScale | src/model.cpp:84-92 | the scale is the largest magnitude over 127, or one for a vanishing row |
| Quantize.LoudRow | src/model.cpp:83-101 | a row with a magnitude above 1e-12: the largest becomes 127, its scale is that magnitude over 127, every other value is the nearest whole number on that scale, ties to even |
| Quantize.QuietRow | src/model.cpp:91-101 | a row of magnitudes up to 1e-12 becomes zeros with scale one |
| Quantize.NearestTies | src/model.cpp:98-98 | rounding takes ties to the even neighbour |
| Quantize.ClampIsIdle | src/model.cpp:99-100 | rounded values lie in [-127, 127], so the clamps never change one |
| Quantize.HalfUnit | src/model.cpp:91-101 | a dequantized value is within half a unit of the original |
| Quantize.ScaleAtTheEnd | src/kernels.cpp:101-104 | scaling the accumulator once equals scaling every weight |
| Quantize.DotsAreSums | src/kernels.cpp:88-108 | the integer accumulator is the plain sum of products, as in the vector kernels |
| Quantize.WeightError | src/model.cpp:91-103 | with a stored scale of relative error delta a weight is off by at most scale * (1/2 + 127 delta) |
| Quantize.ProductError | src/kernels.cpp:88-108 | and a product by at most that times the sum of the activations' magnitudes |
| Quantize.QuantizingIsIdempotent | src/model.cpp:83-104 | re-quantizing the dequantized row returns the same integers and scale |
| Rope.ScaledIsBlend | src/kernels.cpp:143-155 | the three wavelength bands are one blend factor, a clamped line in cycles over the trained context |
| Rope.ScaledInRange | src/kernels.cpp:143-155 | a scaled frequency lies between the frequency over the factor and the frequency |
| Rope.ScaledGrows | src/kernels.cpp:143-155 | scaling keeps the strict order of frequencies across all three bands |
| Rope.FrequencyIsPower | src/kernels.cpp:127-132 | the first frequency is one and the i-th is one over the i-th power of the base |
| Rope.ScaledInBands | src/kernels.cpp:143-155 | in turns over the trained context: below the low edge a frequency is divided by the factor, above the high edge it stays, between them it moves in a straight line |
| Rope.InverseFrequencies | src/kernels.cpp:114-160 | the table holds the scaled frequencies, strictly decreasing, positive and within those bounds |

## Left out

Stated weaker than the code on purpose:

- EngineCore.Engine.ForwardDecodeBatch: all caches of a batch are on one manager, as both schedulers build them; the batch buffers are one row per sequence instead of flat arrays, so offsets inside them are not modelled.
- EngineCore.Engine.DecodeLayer: the batched products act row by row; that flat products do so is `BatchKernels.ProductIsRows`, and the offsets of the other steps in the flat buffers are not modelled.
- EngineCore.Engine.EnsureBatchScratch: counts rows, as the buffers do here, and not floats.
- EngineCore.Engine.ForwardStep: single-row scratch is a value per buffer; the two norms, SwiGLU and the switch over three weight storages are inside one uninterpreted projection per weight, so their arithmetic is not modelled.
- PagedKv.PagedKVCache.Gather: returns the two buffers instead of overwriting the caller's memory, as does `KvCache.ContiguousKVCache.GatherLayer`.
- PagedKv.PagedKVCache.Write: positions are inside the table or at the next block, the only ones for which the code's table access is defined.
- Precision.AgreesExactly: projections, feed-forward and head are any functions of a row, where the code's are built from norms, matrix products and SwiGLU, so the weights that show a difference need not be ones a checkpoint can hold.
- Precision.AgreesOnlyInF32: likewise.
- Precision.NoticedLossChangesTokens: likewise.
- CacheTwins.PagedIsContiguous: an emptied contiguous cache is a new object, as the engine makes one for each request.
- Streaming.GenerateStreaming: other calls on the engine are modelled as arbitrary changes of the shared scratch while the mutex is free.
- ForkJoin.CallsReturn: infinitely many spurious wakeups could delay a return for ever; they are bounded by nothing, so the bound counts the other steps.
- ForkJoin.ReturnMeansDone: job functions return normally, one caller submits at a time, and a pool without workers (which runs the function directly) is the serial case of `Kernels.Dispatched`.
- Kernels.Matmul: chunks run one after the other in an arbitrary order; finer interleavings are `Kernels.MatmulIsProduct` and `PoolKernels.MatmulOnPool`, which take each element's write as one unit; the output buffer has exactly the size of the product.
- Kernels.AttentionWritesHeads: a head is one unit with any row for its result; what the row is and how it is accumulated is `Attention.AttendHead`.
- Kernels.AttentionIsSerial: likewise.
- Attention.AttentionIsHeads: interleaves whole heads; each thread has its own score buffer in the code, so nothing else is shared.
- Attention.Softmax: of floats, exp, division and the order are uninterpreted, so accuracy and overflow are not modelled; `AttentionReals` interprets them over the reals.
- Lanes.LaneDot: over the reals; rounding in single precision differs between the two orders.
- Quantize.QuantizePerRow: over the reals, with the fp16 cast of the scale and the readings of the two narrow precisions as any functions.
- Rope.InverseFrequencies: over the reals, with theta^(2 / head_dim) as one ratio above one; the casts to and from double are not modelled.
- Scheduler.Partition: `std::partition` is used through its contract; what it does to memory on the way is not modelled, and likewise `std::sort` in `results()`.

Assumed: at least one layer, a pool whose dimensions match the model, job functions of the pool that do not throw, a free list without duplicates when a scheduler is built, nobody else taking or freeing blocks between its calls, constructor guards as preconditions.

Not part of the model:

- Checkpoint and configuration parsing, memory mapping, tied heads and weight materialization: input and output with shape checks.
- The HTTP server, its event stream and the tokenizer; the Python bindings and the interpreter lock.
- IEEE rounding, fast-math, accuracy of exp, sqrt, sin and cos, drift against other implementations.
- The cos and sin tables and the in-place rotation: one uninterpreted function of position and row.
- `matmul_f16w_f32a` and the scalar int8 product as loops of their own: the loop nest is `matmul_f32`'s, and `Kernels.MatmulIsProduct` takes any element value.
- `ContiguousKVCache::reset`, which nothing in the core calls, read-only accessors, and the static scheduler's `results()`, the same as the continuous one's.
- The paged cache's move constructor, which is move assignment to an empty cache, and its destructor, which is a release.
- The block manager's mutex, and the engine's mutex outside streaming: the modelled calls run one at a time.
- Thread-count discovery, timing and throughput.
