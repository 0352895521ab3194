# A verified model of the damacy batch loader

damacy turns a stream of sample queries over sharded Zarr arrays into dense batches. A query picks an interval
or a list of indices on every axis of an array. The library finds the chunks the query touches, looks up where
each one is stored, reads and decodes them, and scatters their elements into a batch tensor. All of this is
pipelined and asynchronous, within fixed memory budgets.

This project models that path in Dafny and proves what the library is for:

- **A batch holds what was asked for.** `LoadBatch` copies the queries, plans and renders. It succeeds exactly
  when all queries are valid and the batch satisfies a condition on the metadata and the limits. Every position
  of the tensor then holds the array element that the query names there, found through the shard index or
  replaced by the fill value, and converted, whatever the order in which chunks are decoded. Each position is
  written by exactly one chunk use.
- **Reading is a refinement.** Aligning, sorting, coalescing, interleaving, grouping and packing reads never
  changes which file bytes a chunk denotes. Reads are merged greedily within the caps, emitted in turn over
  the files, every chunk goes out in exactly one wave, and the reads of a wave bring exactly the bytes that its
  chunks need to where the decoder looks for them.
- **The asynchronous parts keep their invariants over every run.** Samples are conserved and stay in order, a
  pinned cache entry never disappears under its owner, gate counts are exact, events retire exactly when all
  earlier jobs are done, every metadata request ends with one callback, and no decode writes into a buffer
  that a live batch refers to.
- **What pop hands out.** One machine composes planner, ring of prepared batches, executor and pop. Over all its
  runs the n-th popped batch is the n-th planned one with all its chunks decoded, row i of it is sample
  n times the batch size plus i plus the number of samples dropped before that one, and pop finds nothing left
  only if every pushed sample was popped, in order.
- **Failures are exact.** Planning, dispatching and reserving report the status of the first fault in the order of
  the code. A metadata request reports the last error among its completions, and without one the length it is
  about, all of it read. Over every run of the planner a cache handle reports exactly the outcome delivered for
  its own fetch, a staged sample has been fetched, and a failed one has its error from one of its own fetches or
  from a lack of memory or owner entries. The loader fails if and only if one of its parts reports an error other
  than "try again", with the first of these, and hands out nothing more: so does a chunk that cannot be decoded.
- **Nothing gets stuck.** With the cache sizes that start-up demands no request ever finds a cache saturated by
  pinned entries. So in every run without faults the next sample has a step that takes it further unless its
  fetch is under way, and from every state of such a run all pushed samples can be delivered, in order. The
  executor's step function refines the machine, and `PopAll` drives it: from every reachable state all planned
  batches can be popped if reads and decodes succeed.
- **Order can fail, and the project says exactly when.** Rows are in sample order if and only if no dropped
  sample comes before a delivered one. In a run that reports no failure the dropped samples are those that were
  swallowed: a metadata fetch that fails to start is recorded as "try again", the planner consumes the sample,
  sees that code and takes it for "nothing ready yet". `SwallowedSampleShiftsBatches` is such a run,
  `InOrderIffDropsBehind` and `PoppedInOrderIff` give the exact condition, `RowsShift` and `PoppedInSequence`
  say by how much rows move, and `SwallowedHasCause` traces every swallowed sample to a fetch of its own that
  ended with that code.

## How it is organised

Imperative parts of the library are methods and classes with loop invariants, proved against specification
functions; the asynchronous parts are state machines on values, with a lemma that every step keeps the
invariant, and thin classes whose methods are the steps. Every invariant is established by a constructor or an
initial-state lemma.

| file | part of the library |
|---|---|
| `Selection`, `SelectionGrid`, `Odometer` | query copies, chunk spans, the iterator over touched grid cells |
| `PlanWalk`, `ChunkTable`, `PlanBuilder` | shard and chunk walks, chunk deduplication, the batch plan |
| `Tensor`, `Assemble`, `BatchRender`, `WholeBatch` | tensor layout, scattering a chunk, rendering a batch, a batch from queries to tensor |
| `ReadOpSort`, `Interleave`, `Coalesce` | sorting, merging and ordering of reads |
| `GroupChunks`, `Dispatch`, `RenderJob` | grouping by read, the dispatch plan, waves and rollback |
| `CpuReadPlan`, `CpuExecutor` | the CPU executor and its memory budget |
| `IoQueue`, `MetadataJobs` | the I/O queue and the asynchronous metadata store |
| `PrefetchCache`, `Prefetcher`, `Delivery`, `Progress` | metadata prefetching and planning order, what their runs deliver, and that they can always go on |
| `Lookahead`, `Pipeline`, `Loader`, `ExecutorStep` | the sample queue, the scheduler, the whole loader as one machine, the calls on the executor as its runs |
| `Crc32c` | the checksum of shard indexes |
| `Status`, `Arith`, `Seqs`, `Rings` | status codes, arithmetic, sequences, ring buffers |

I/O results, allocation failures, evictions and the order of completions are parameters of the steps that meet
them, so the statements hold for all of them. Decoding and element conversion are arbitrary functions.

## Model

| member | source | states |
|---|---|---|
| Selection.QueryCopyAxis | src/query/selection.c:109-129 | an axis is accepted if and only if it is a non-empty interval or a non-empty list of valid indices; the copy has the same (source, output) pairs, sorted, and tight bounds |
| Selection.QueryCopy | src/query/selection.c:77-132 | a sample is accepted if and only if its rank is in range and all its axes are, and every axis is then copied |
| Selection.CopyMeansQuery | src/query/selection.c:77-132 | sorting the indices loses nothing: reading the copy at output position o gives the source coordinate the caller listed at position o |
| Selection.LowerBound | src/query/selection.c:134-147 | the binary search returns the number of entries below the given source |
| Selection.ChunkSpan | src/query/selection.c:149-166 | the span holds exactly the selected positions whose source lies in the chunk, also when the chunk end saturates |
| SelectionGrids.CellStartExact | src/query/selection.c:168-173 | the saturated start of a cell still splits valid coordinates exactly at the cell boundary |
| SelectionGrids.InitAxis | src/query/selection.c:187-227 | the axis cursor starts at the first of exactly the distinct cells the selection touches inside the clip, and counts them |
| SelectionGrids.StepAxis | src/query/selection.c:247-264 | a step goes to the next distinct touched cell, skipping repeated entries, or wraps to the first |
| SelectionGrids.IndexedCellsAreTouched | src/query/selection.c:207-226 | the distinct cells of the entries inside the window are exactly the touched cells, in order |
| SelectionGrids.PlainCellsAreTouched | src/query/selection.c:194-205 | for an interval every cell between the bounds is touched |
| SelectionGrids.SelectionGrid.Init | src/query/selection.c:175-237 | succeeds if and only if rank, axes and shape are valid and no partial product of cell counts exceeds the limit, and otherwise reports INVAL or BUDGET, whichever the first offending axis calls for; then what remains to be yielded is the product of the touched cells, and the count is its length |
| SelectionGrids.SelectionGrid.Next | src/query/selection.c:239-269 | yields the head of what remains and leaves the tail; it ends exactly when nothing remains |
| Odometer.FromStep | src/query/selection.c:239-269 | one step of the carry loop moves from a digit vector to the next element of the row-major product |
| Odometer.Advance | src/executor/cpu_executor.c:273-280 | the carry loop that starts at any axis computes the next digit vector, or reports the last one |
| PlanWalk.GridYields | src/query/selection.c:175-269 | a coordinate is yielded if and only if the selection touches it inside the clip; coordinates are distinct and in strict lexicographic order |
| PlanWalk.ClippedCell | src/planner/plan_builder.c:254-267 | clipping to one shard keeps exactly the touched chunks of that shard |
| PlanWalk.TwoLevelIsDirect | src/planner/plan_builder.c:204-326 | walking touched shards and then touched chunks inside each visits exactly the touched chunks of the direct grid, each once, so the measured room is exactly enough |
| PlanWalk.ClipWithinBudget | src/planner/plan_builder.c:254-267 | a selection within the chunk limit stays within it in every shard, so the clipped grid never fails once the sample was measured |
| ChunkTables.BucketsFor | src/planner/plan_builder.c:144-146 | the table size is the least power of two that is at least twice the capacity |
| ChunkTables.ChunkTable.Probe | src/planner/plan_builder.c:299-307 | probing ends, finds the chunk with this key if there is one, and an empty bucket proves that there is none |
| ChunkTables.InsertKeepsTable | src/planner/plan_builder.c:309-313 | inserting at the first empty bucket keeps every chunk reachable from its home bucket |
| ChunkTables.ChunkTable.FindOrInsert | src/planner/plan_builder.c:299-315 | a chunk is added if and only if its key is new, and keys stay distinct |
| ChunkTables.ChunkTable.AddUse | src/planner/plan_builder.c:299-324 | the use is recorded with its chunk and threaded into the chunk's list, which stays complete |
| ChunkTables.SharedChunkIffSameKey | src/planner/plan_builder.c:299-315 | two uses share a chunk if and only if they name the same array and coordinate |
| ChunkTables.ChainVisitsUses | src/planner/plan_builder.c:320-324 | following a chunk's list visits each of its uses exactly once and nothing else |
| PlanBuilder.SampleGeometry | src/planner/plan_builder.c:29-68 | a sample is accepted if and only if it fits the array and the batch, its chunk fits the byte limit and its chunks fit the count limit, and otherwise the first of these that fails decides the status; the count is that of the touched chunks |
| PlanBuilder.CheckExtents | src/planner/plan_builder.c:40-54 | the extents are accepted if and only if every axis fits the array and the batch and the decoded chunk fits the byte limit; INVAL if and only if an axis is bad before the bytes exceed the limit, BUDGET otherwise |
| PlanBuilder.InnerPerShard | src/zarr/zarr_metadata.c:434-456 | chunks per shard are computed if and only if chunks divide shards evenly and the total fits in 64 bits |
| PlanBuilder.ShardPlace | src/planner/plan_builder.c:268-272 | a chunk lies in exactly one shard and at exactly one place inside it: on each axis its coordinate is the shard times the chunks per shard plus a rest below that number |
| PlanBuilder.EntryLocation | src/planner/plan_builder.c:279-298 | an index entry is accepted if and only if it is the absent marker or a non-empty byte range without overflow, and the location is that entry |
| PlanBuilder.AddShard | src/planner/plan_builder.c:231-325 | succeeds if and only if the shard is known or known to be absent and all its touched chunks have usable entries, and otherwise reports what the first that is not calls for; then it appends one use for each of them, in order |
| PlanBuilder.AddSample | src/planner/plan_builder.c:214-330 | succeeds if and only if the touched shards are within the limit, as many as were prefetched, and all usable, and otherwise reports the first fault in that order; then the uses of the two-level walk are appended |
| PlanBuilder.MeasureSamples | src/planner/plan_builder.c:111-143 | succeeds if and only if every sample is acceptable and the chunks of all samples together fit the limit, and otherwise the first sample at which that fails decides the status; the capacity is their exact number |
| PlanBuilder.PreparedPlanBuild | src/planner/plan_builder.c:89-335 | a plan is built if and only if the batch is plannable, and otherwise the status is that of the first fault in the order of the code; then it has one region per sample, one use per touched chunk of each sample in walk order, one chunk per distinct key, each located where the catalog keeps it, and exactly as many uses as were measured |
| Tensor.RavelBijective | src/executor/cpu_executor.c:251-263 | two in-range coordinates have the same flat position only if they are equal |
| Tensor.RavelUnravel | src/executor/cpu_executor.c:251-263 | every flat position belongs to an in-range coordinate |
| Tensor.HornerPosition | src/planner/plan_builder.c:269-272 | the running multiply-add computes the row-major position |
| Tensor.StridePosition | src/executor/cpu_executor.c:251-263 | the sum of coordinate times stride is the row-major position |
| Tensor.BatchSpecLayout | src/pipeline/components.c:10-36 | succeeds if and only if the specification is valid and the element and byte counts fit, with INVAL or BUDGET otherwise; shape, strides and byte size are then those of the dense batch |
| Assemble.SpanComplete | src/executor/cpu_executor.c:239-246 | every output position whose source lies in the chunk is inside the chunk's span |
| Assemble.RowContiguous | src/executor/cpu_executor.c:249-281 | along a row of an interval axis both the chunk offset and the batch position advance by one |
| Assemble.CopyRow | src/executor/cpu_executor.c:184-225 | a row of the buffer becomes the converted elements, or the converted fill value, and nothing else changes |
| Assemble.GatherChunk | src/executor/cpu_executor.c:227-283 | every output position whose source lies in the chunk receives that element, converted, or the fill value; every other position is unchanged |
| Assemble.CopyChunk | src/executor/cpu_executor.c:300-344 | the same for interval selections, where the intersection box is copied row by row |
| Assemble.BoxTouches | src/executor/cpu_executor.c:303-312 | the intersection of chunk and selection is non-empty if and only if the selection touches the chunk |
| BatchRender.CoveredOnce | src/executor/cpu_executor.c:285-347 | every position of the batch is written by exactly one planned use |
| BatchRender.UseWritesExpected | src/executor/cpu_executor.c:285-347 | whatever a use writes at a position is the value the batch must hold there |
| BatchRender.AssembleChunk | src/executor/cpu_executor.c:285-347 | walking the chunk's list of uses writes the expected values at the positions of its uses and nowhere else |
| BatchRender.RenderBatch | src/executor/cpu_executor.c:405-446 | assembling all planned chunks in any order, repeated or not, leaves the expected value at every position |
| BatchRender.WantedIsSource | src/query/selection.c:77-132 | the planned source coordinate at an output position is the one the caller's query names |
| BatchRender.BatchMeansQueries | src/planner/plan_builder.c:89-335 | the expected value at row i, position o is the converted array element at the coordinate that query i names at o, read through the entry of the shard index at the place of its chunk, or the fill value |
| BatchRender.ElementMeans | src/planner/plan_builder.c:231-298 | an array element is found by dividing its coordinate into shard, chunk in the shard and position in the chunk: the index entry at the row-major place of the chunk names the bytes, whose decoding holds the element at its row-major position; without a shard, or if both halves of the entry are the largest 64-bit number, it is the fill value |
| BatchRender.ElementPlaced | src/planner/plan_builder.c:268-272 | every coordinate of an array has such a place |
| WholeBatch.CopyQueries | src/query/selection.c:77-132 | all queries of a batch are copied if and only if all of them are valid, with INVAL otherwise |
| WholeBatch.LoadBatch | src/planner/plan_builder.c:89-335 | a batch is loaded if and only if all its queries are valid and it is plannable, and otherwise the status is INVAL or that of the first planning fault; then row i, position o of the tensor is the converted element of array i at the coordinate that query i names at o, for every order of decoding |
| ReadOpSort.LessTotalOrder | src/executor/read_op_sort.c:9-22 | the comparison by path, offset and index is a strict total order |
| ReadOpSort.RankOrder | src/executor/read_op_sort.c:9-22 | the order is that of a number per window, and different windows have different numbers |
| ReadOpSort.LessMeans | src/executor/read_op_sort.c:9-22 | a window comes before another if and only if its path is smaller byte by byte, or equal with a smaller offset, or both equal with a smaller index |
| ReadOpSort.InsertionSort | src/executor/read_op_sort.c:24-39 | sorts a segment in place and moves nothing outside it |
| ReadOpSort.MedianOfThree | src/executor/read_op_sort.c:54-76 | leaves a pivot next to the end and sentinels at both ends of the segment |
| ReadOpSort.ScanUp | src/executor/read_op_sort.c:80-81 | the unguarded upward scan stops inside the segment, at the first element not below the pivot |
| ReadOpSort.ScanDown | src/executor/read_op_sort.c:82-83 | the unguarded downward scan stops inside the segment |
| ReadOpSort.Partition | src/executor/read_op_sort.c:76-94 | splits the segment strictly inside it, with everything left of the pivot below and everything right of it above |
| ReadOpSort.QuickSort | src/executor/read_op_sort.c:41-107 | sorts the segment as a permutation of itself; recursion on the smaller part halves the length, so the depth is logarithmic |
| ReadOpSort.PermSort | src/executor/read_op_sort.c:109-114 | the result is the strictly sorted permutation of the given indices |
| Interleave.RunStarts | src/executor/coalesce.c:97-101 | the starts found are exactly the first positions of the runs of equal paths |
| Interleave.Positions | src/executor/coalesce.c:95-111 | the rounds end and assign the slots as a bijection ordered by round and then by run |
| Interleave.FileOrderKept | src/executor/coalesce.c:102-110 | reads of one file keep their order |
| Interleave.SpreadAcrossFiles | src/executor/coalesce.c:92-111 | two reads of one file are adjacent only when all reads of other files are already out |
| Coalesce.FuseReads | src/executor/coalesce.c:47-88 | every window lies inside its merged read at its recorded offset, every merged byte was asked for, merged reads respect both caps and stay sorted, and a new read starts only when its first window could not join the one before |
| Coalesce.AppendFills | src/executor/coalesce.c:113-123 | placeholders keep one read each, in their order, after all merged reads |
| Coalesce.CoalesceReads | src/executor/coalesce.c:13-131 | after merging and renumbering in place all of this still holds of the emitted list, whose merged reads are emitted in turn over the files |
| Coalesce.EmittedSpread | src/executor/coalesce.c:90-127 | emitted reads of one file are in offset order, and adjacent only when no other file has reads left |
| GroupChunks.CountReads | src/executor/group_chunks.c:24-31 | the counting pass succeeds if and only if every read index is in range, and counts the chunks of each read |
| GroupChunks.PrefixSums | src/executor/group_chunks.c:32-33 | each head is the position where the read's chunks start in the grouped order |
| GroupChunks.ScatterChunks | src/executor/group_chunks.c:50-58 | the chunks end up stably grouped by read, in place |
| GroupChunks.GroupedPermutes | src/executor/group_chunks.c:50-58 | grouping is a permutation of the chunks |
| GroupChunks.GroupByRead | src/executor/group_chunks.c:5-68 | succeeds if and only if there is nothing to do or the group table is large enough and all indices are valid; a failure changes nothing; otherwise each group is exactly the chunks of its read, in order, with their total decoded size |
| Dispatch.BuildOne | src/executor/dispatch.c:198-216 | the aligned window covers the chunk's bytes at the recorded offset; it is built if and only if it fits in 32 bits without wrapping |
| Dispatch.RewriteDenotes | src/executor/coalesce.c:164-174 | renumbering after the merge leaves the file bytes each chunk denotes unchanged |
| Dispatch.RewritePlans | src/executor/coalesce.c:164-174 | the width check after the merge can never fail |
| Dispatch.GroupsUniform | src/render_job/render_job.c:267-303 | the chunks of one group are all fills or all stored, so looking at the first one is enough |
| Dispatch.PlannedItemOk | src/executor/dispatch.c:152-168 | every use of a built plan meets what dispatching assumes about its chunk |
| Dispatch.DispatchPlanBuild | src/executor/dispatch.c:85-227 | succeeds if and only if the arguments are valid and all aligned windows fit, with the status of the first fault otherwise; then every use has exactly one chunk plan that denotes its file bytes, the reads are the greedy merge of the aligned windows in turn over the files, the plans are grouped by read, groups are uniform, and no group exceeds the chunk limit of a wave |
| Dispatch.MergedAligned | src/executor/coalesce.c:133-174 | merging aligned windows gives aligned reads |
| RenderJobs.GroupTableTiles | src/executor/group_chunks.c:35-48 | the groups tile the chunk plans without gap or overlap |
| RenderJobs.PackGroups | src/render_job/render_job.c:256-303 | the packed groups fit all three limits, the packing stops at the first group that would not and names the first limit, in order, that it breaks, and the offsets are those of the packed buffers |
| RenderJobs.RenderJob.Reserve | src/render_job/render_job.c:240-328 | an empty wave comes back if and only if the job has no plans yet or all its chunks are dispatched; BUDGET if and only if the first remaining group alone does not fit, and then no field changes, offsets included; otherwise the wave is the next maximal run of groups, its reads and offsets are theirs, offsets of other chunks are kept, and waves tile the dispatched chunks |
| RenderJobs.ReserveAll | src/render_job/render_job.c:240-328 | reserving again and again ends with every chunk plan of the job in a wave if and only if each remaining group fits a wave of its own; otherwise it ends with BUDGET and chunks left |
| RenderJobs.RenderJob.Rollback | src/render_job/render_job.c:330-337 | rolling back the last wave restores the counters from before it, and the waves still tile what is dispatched |
| RenderJobs.ChunkInOneWave | src/render_job/render_job.c:240-337 | after any sequence of reservations and rollbacks each dispatched chunk is in exactly one wave |
| RenderJobs.DecodedDisjoint | src/render_job/render_job.c:295-301 | the decoded ranges of two chunks of a wave are disjoint and inside the device buffer |
| RenderJobs.InputsDisjoint | src/render_job/render_job.c:284-301 | stored chunks of a wave lie inside their read's input range, ranges of different reads are disjoint, and all are inside the input buffer |
| RenderJobs.WaveReadsServe | src/render_job/render_job.c:267-303 | for every stored chunk of a wave there is a read in the wave, of the right file, that covers the chunk's file bytes and puts them where the chunk's input offset points |
| RenderJobs.WaveReadsNeeded | src/render_job/render_job.c:267-303 | every read of a wave serves a stored chunk of the same wave in this way |
| RenderJobs.WaveReadsApart | src/render_job/render_job.c:284-301 | the reads of a wave fill consecutive, disjoint parts of the input buffer, within what the wave is accounted for |
| RenderJobs.DispatchedTables | src/executor/group_chunks.c:35-48 | the tables that dispatch builds are ones a job accepts |
| RenderJobs.PlanJob | src/executor/dispatch.c:85-227 | a batch is planned and committed to a job if and only if the arguments are valid and all windows fit; the job's chunk plans then denote the file bytes of the batch, one per use, and a failure leaves the job as it was |
| RenderJobs.NeverTooManyChunks | src/render_job/render_job.c:275-318 | after dispatching, the chunk limit is never what makes a first group too large |
| RenderJobs.FindJobWithWork | src/render_job/render_job.c:225-238 | finds a job if and only if one is planned and has chunks not yet dispatched; it is the one with the lowest batch number, and the first of these in the table |
| CpuReadPlans.ThreadChunks | src/executor/cpu_executor.c:166-174 | following a read's list gives exactly the chunks it serves, in increasing order |
| CpuReadPlans.FlatIsAll | src/executor/cpu_executor.c:166-174 | over all reads the lists hold every chunk exactly once |
| CpuReadPlans.ReadSmall | src/executor/cpu_executor.c:149-163 | every merged read fits an empty input buffer, so a wave can always take at least one |
| CpuReadPlans.BuildReadPlan | src/executor/cpu_executor.c:108-182 | reports BUDGET if and only if the plan cannot fit even with nothing in progress, AGAIN if and only if it fits only then, OK if and only if it fits now and memory is there; the reads are the greedy merge of the chunks' windows in turn over the files, and each chunk's bytes are at its offset in the read that serves it |
| CpuExecutors.PackWave | src/executor/cpu_executor.c:664-695 | takes at least one read and as many as fit; each stored chunk finds exactly its file bytes at its input position, and reads do not overlap in the input buffer |
| CpuExecutors.CpuExecutor.Submit | src/executor/cpu_executor.c:605-648 | when each status is returned, in both directions; a refusal changes nothing, and an accepted batch is in a free slot with all its chunks outstanding |
| CpuExecutors.SubmitKeeps | src/executor/cpu_executor.c:605-648 | submitting keeps the executor's invariant: exact chunk accounting, committed memory within the budget, buffer references, and batches in order |
| CpuExecutors.CpuExecutor.DispatchWave | src/executor/cpu_executor.c:650-713 | the free wave takes the next reads of the oldest batch that has any, as many as fit; nothing changes if there are none or the store refuses |
| CpuExecutors.DispatchKeeps | src/executor/cpu_executor.c:650-713 | dispatching moves chunks from not dispatched to in flight, each once |
| CpuExecutors.CpuExecutor.StartDecode | src/executor/cpu_executor.c:788-806 | decoding starts if and only if none is running and a wave is ready, and with the oldest one |
| CpuExecutors.CollectCounts | src/executor/cpu_executor.c:732-742 | the outstanding count never goes below zero and reaches zero exactly when every chunk has been decoded once and no wave holds the batch |
| CpuExecutors.DecodedIsOrder | src/executor/cpu_executor.c:735-742 | the chunks decoded for a finished batch are an order in which all its chunks occur, which is what rendering a batch asks for |
| CpuExecutors.CpuExecutor.Collect | src/executor/cpu_executor.c:715-747 | a finished decode is accounted once; the last one finishes the batch, frees its plan and returns its memory; if chunks could not be decoded, the status is that of the first of them and nothing changes, and an unfinished decode changes nothing either |
| CpuExecutors.CpuExecutor.CheckResults | src/executor/cpu_executor.c:722-731 | the scan returns the first result that is not OK |
| CpuExecutors.CollectKeeps | src/executor/cpu_executor.c:715-747 | collecting keeps the executor's invariant |
| CpuExecutors.NeverStuck | src/executor/cpu_executor.c:749-808 | while a batch is in progress and no read or decode is under way, a wave is ready for decoding, or both waves are free and the batch has reads to dispatch |
| CpuExecutors.SentLowers | src/executor/cpu_executor.c:650-713 | dispatching a wave lowers the work left |
| CpuExecutors.WaveMovedLowers | src/executor/cpu_executor.c:770-806 | so does the arrival of reads and the start of a decode |
| CpuExecutors.CollectedLowers | src/executor/cpu_executor.c:715-747 | so does collecting a decoded wave: between two submissions only finitely many steps can be taken |
| CpuExecutors.CpuExecutor.ReadsArrived | src/executor/cpu_executor.c:770-786 | the wave whose reads have arrived is ready, nothing else changes, and less work is left; a failed read is reported as it is and changes nothing |
| CpuExecutors.WritesAreSafe | src/executor/cpu_executor.c:405-446 | whenever a decode runs, no live batch refers to the buffer it writes |
| CpuExecutors.CpuExecutor.FreeHeld | src/executor/cpu_executor.c:756-762 | exactly the held slots whose buffer only the executor refers to become free |
| CpuExecutors.FreeKeeps | src/executor/cpu_executor.c:756-762 | a slot that becomes free has no live batch |
| CpuExecutors.OldestIsNext | src/executor/cpu_executor.c:810-823 | the slot with the lowest pending number holds the next batch to hand out |
| CpuExecutors.CpuExecutor.Take | src/executor/cpu_executor.c:810-829 | hands out batches strictly in submission order, AGAIN if and only if the next one is not finished |
| CpuExecutors.CpuExecutor.Retain | src/pipeline/components.c:219-224 | one more reference to a live batch, and nothing else changes |
| CpuExecutors.CpuExecutor.Release | src/pipeline/components.c:226-234 | a batch goes with its last reference and then drops one buffer reference |
| CpuExecutors.DropKeeps | src/pipeline/components.c:177-234 | buffer references stay the executor's own plus one per live batch, also after a stop |
| CpuExecutors.CpuExecutor.Stop | src/executor/cpu_executor.c:455-506 | after a stop only the live batches keep buffers alive, and they survive it |
| IoQueues.EventMeaning | src/io_queue/io_queue.posix.c:57-72 | an event has retired if and only if every job posted before it has finished |
| IoQueues.RetiredIsLeast | src/io_queue/io_queue.posix.c:57-72 | the retired number is one below the least unfinished job, or everything posted |
| IoQueues.LeastPendingRetires | src/io_queue/io_queue.posix.c:58-72 | the minimum over queue front and workers yields exactly that number, and it never goes back |
| IoQueues.FinishKeeps | src/io_queue/io_queue.posix.c:104-107 | finishing in any order keeps the queue's history and its workers consistent |
| IoQueues.IoQueue.Grow | src/io_queue/io_queue.posix.c:210-230 | growing keeps the queued jobs and their order |
| IoQueues.IoQueue.Post | src/io_queue/io_queue.posix.c:232-259 | appends the job with the next number unless the full ring cannot grow, and then changes nothing |
| IoQueues.IoQueue.Begin | src/io_queue/io_queue.posix.c:95-98 | a worker takes the oldest queued job and publishes its number |
| IoQueues.IoQueue.Finish | src/io_queue/io_queue.posix.c:104-107 | the job is finished, its worker is idle, and the retired number is exact again |
| IoQueues.IoQueue.Record | src/io_queue/io_queue.posix.c:261-270 | an event stands for exactly the jobs posted so far |
| IoQueues.IoQueue.Query | src/io_queue/io_queue.posix.c:284-294 | true if and only if every job posted up to the event has finished |
| Crc32c.StepLinear | src/util/crc32c.c:8-17 | one shift step is linear over exclusive or |
| Crc32c.BitsAreSteps | src/util/crc32c.c:19-28 | feeding bits one at a time equals mixing them in first and then shifting |
| Crc32c.ByteSteps | src/util/crc32c.c:26-26 | eight steps split into the low byte's contribution and the shifted rest |
| Crc32c.BuildTable | src/util/crc32c.c:8-17 | every table entry is its index after eight steps |
| Crc32c.Checksum | src/util/crc32c.c:19-28 | the table loop equals the bit-serial reflected CRC with polynomial 0x82F63B78, initial value and final inversion, for every byte sequence |
| Crc32c.BurstDetected | src/util/crc32c.c:19-28 | byte sequences of one length that differ only inside four consecutive bytes have different checksums |
| Crc32c.KnownValue | src/util/crc32c.c:19-28 | the checksum of the letter a is 0xC1D04330 |
| PrefetchCaches.HitKeeps | src/prefetch/prefetch_cache.c:404-431 | a hit keeps the cache invariant: distinct keys, generations below the counter, pins for all owners at or above the watermark |
| PrefetchCaches.HitCounts | src/prefetch/prefetch_cache.c:417-426 | a hit raises a gate by exactly the registrations it adds, also when storing the waiter fails |
| PrefetchCaches.MissKeeps | src/prefetch/prefetch_cache.c:433-481 | a miss keeps the cache invariant, whichever unpinned entries are evicted and whether or not the insert succeeds |
| PrefetchCaches.MissCounts | src/prefetch/prefetch_cache.c:455-485 | a miss raises a gate by exactly the registration it adds |
| PrefetchCaches.CompleteCounts | src/prefetch/prefetch_cache.c:192-201 | a completion lowers each gate by its registrations with that entry |
| PrefetchCaches.RaisedKeeps | src/prefetch/prefetch_cache.c:649-675 | raising the watermark keeps the invariant and all registrations |
| PrefetchCaches.RequestSecures | src/prefetch/prefetch_cache.c:392-489 | a request that returns a handle leaves its entry pinned for the owner |
| PrefetchCaches.RunKeepsSecured | src/prefetch/prefetch_cache.c:392-675 | over any run in which the watermark stays at or below the owner, the owner's handle resolves to the same key, and a settled result stays as it is |
| PrefetchCaches.RunKeepsIssued | src/prefetch/prefetch_cache.c:569-581 | over any run an issued handle resolves to its own key or to nothing, however its slot is reused |
| PrefetchCaches.PrefetchCache.Request | src/prefetch/prefetch_cache.c:392-489 | each call is one step of this machine: it reuses the entry with the key if there is one, moves the gates by exactly the registrations, secures the handle it returns, and returns AGAIN or OOM in exactly the cases named |
| PrefetchCaches.PrefetchCache.CompleteFetch | src/prefetch/prefetch_cache.c:252-298 | a stale or repeated completion changes nothing; another one makes the handle report exactly the outcome, releases the gates registered there and marks exactly those failed if the outcome is a failure |
| PrefetchCaches.CompleteReports | src/prefetch/prefetch_cache.c:252-298 | a fetch under way reports the outcome once it is delivered; a handle that was settled or does not resolve, and every other handle, reports what it did |
| PrefetchCaches.CompleteTells | src/prefetch/prefetch_cache.c:192-201 | the gates that a completion marks failed are those that were, and those registered with the entry if the outcome is a failure |
| PrefetchCaches.StepReports | src/prefetch/prefetch_cache.c:392-675 | a step leaves a fetch under way unless it delivers its outcome, and a settled one as it is for as long as the handle resolves |
| PrefetchCaches.RunReports | src/prefetch/prefetch_cache.c:569-605 | over every run, whatever is evicted and reused, a handle that resolves reports exactly the outcome of the first completion that met its own fetch, and until then that it is under way |
| PrefetchCaches.PrefetchCache.AdvanceWatermark | src/prefetch/prefetch_cache.c:649-675 | unpins exactly the settled entries whose owners are all below the watermark, and never lowers it |
| Prefetchers.LookaheadHasRoom | src/pipeline/zarr_planner.c:128-155 | an accepted push never meets a full lookahead queue |
| Prefetchers.FreeSlotExists | src/prefetch/prefetcher.c:571-624 | a sample that waits for admission always finds a free slot |
| Prefetchers.OwnerAvailable | src/prefetch/prefetcher.c:117-138 | while no sample has failed, an owner entry is always available, so admission never fails for lack of one |
| Prefetchers.OwnerLookup | src/prefetch/prefetcher.c:108-115 | looking up a sample's number finds exactly the entry its slot holds |
| Prefetchers.DoneGateIsZero | src/prefetch/prefetcher.c:140-149 | a finished sample's gate has no pending fetch, so its owner entry can be reused at once |
| Prefetchers.UnusedOwnerIsFree | src/prefetch/prefetcher.c:140-149 | an unused owner entry is registered with no fetch and belongs to no slot, so gates never alias |
| Prefetchers.SweptIsFree | src/prefetch/prefetcher.c:140-149 | an entry without slot and pending fetch, once swept, can be given to the sample that waits for one |
| Prefetchers.StagedNeverWaits | src/pipeline/zarr_planner.c:182-190 | building a staged batch never meets a pending handle |
| Prefetchers.AdmitKeeps | src/prefetch/prefetcher.c:521-569 | admission keeps the invariant, whether the request succeeds, fails or must be retried |
| Prefetchers.AskShardKeeps | src/prefetch/prefetcher.c:276-305 | each shard is requested exactly once across retries, so the gate stays exact |
| Prefetchers.CheckShardsKeeps | src/prefetch/prefetcher.c:419-455 | a sample becomes ready only when all its shards are settled, missing ones included |
| Prefetchers.ConsumeKeeps | src/prefetch/prefetcher.c:745-816 | consuming the next sample in order frees its slot and its owner and keeps the invariant |
| Prefetchers.BuildKeeps | src/pipeline/zarr_planner.c:182-195 | building a batch advances the watermark only past samples that are no longer needed |
| Prefetchers.BuildReleasesPins | src/pipeline/zarr_planner.c:180-195 | each built batch moves the watermark of both caches past its samples, and then every pinned entry is unfinished or wanted by a sample not yet planned |
| Prefetchers.StepKeepsInv | src/prefetch/prefetcher.c:475-624 | every step of every thread keeps the whole invariant |
| Prefetchers.RunKeepsInv | src/prefetch/prefetcher.c:475-816 | so does every run: pushed samples are in the queue, in hand, in a slot or consumed, each once; gates count exactly the outstanding fetches; handles of live samples are pinned |
| Delivery.StepKeepsHealthy | src/prefetch/prefetcher.c:475-624 | if memory is there, queries fit, plans can be built and fetches succeed or report a missing shard, no step fails a sample; running out of owner entries cannot happen |
| Delivery.FaultFreeRunsDeliver | src/pipeline/zarr_planner.c:128-195 | in every run without such faults, whatever the interleaving and however often a cache is saturated, no sample is failed or dropped and the batches hold all consumed samples in order |
| Delivery.RowsShift | src/pipeline/zarr_planner.c:157-195 | over every run, row i of batch k is sample k times the batch size plus i plus the number of dropped samples before it |
| Delivery.InOrderIffDropsBehind | src/pipeline/zarr_planner.c:157-195 | over every run, all rows are in sample order if and only if no dropped sample comes before a delivered one; each consumed sample is delivered or dropped, never both; without a reported failure exactly the swallowed ones are dropped |
| Delivery.RunKeepsCauses | src/prefetch/prefetcher.c:307-455 | over every run, the error of each failed sample is that of its array fetch, INVAL because its metadata does not admit the query, that of its first shard that is neither there nor missing, or a lack of memory or owner entries; the cache still says so |
| Delivery.ConsumedHasCause | src/pipeline/zarr_planner.c:157-180 | over every run, the sample consumed next is delivered if and only if all its fetches are settled well, missing shards included; otherwise it is dropped for such a cause, swallowed if and only if the error is AGAIN, and the planner returns the first other error |
| Delivery.FailedShows | src/prefetch/prefetcher.c:219-227 | over every run, the gate of a failed sample shows the error |
| Delivery.SwallowedHasCause | src/pipeline/zarr_planner.c:162-171 | over every run, a sample is swallowed only if a fetch of its own ended with AGAIN |
| Delivery.RunActs | src/prefetch/prefetcher.c:475-816 | to each of the two caches, a run of the planner is a run of that cache |
| Delivery.ReportsOwnFetch | src/prefetch/prefetch_cache.c:569-605 | over every run of a new planner, a handle that resolves reports the outcome that was delivered for its own fetch |
| Delivery.StagedIsFetched | src/pipeline/zarr_planner.c:157-195 | over every run, a sample staged for a plan has an array whose delivered metadata yields the shards it asked for, and each of these was delivered or reported missing |
| Delivery.QuietRunsInOrder | src/prefetch/prefetch_cache.c:493-495 | if no fetch reports AGAIN, rows are in order in every run without failure |
| Delivery.SwallowedSampleShiftsBatches | src/pipeline/zarr_planner.c:162-171 | a run of two samples in which a fetch fails to start: no failure is reported, sample 0 is gone and batch 0 holds sample 1 |
| Delivery.SwallowedStaysPending | src/pipeline/zarr_planner.c:197-202 | after a sample was swallowed the planner reports pending samples forever |
| Progress.StepKeepsPins | src/prefetch/prefetcher.c:475-816 | in runs without faults every pinned cache entry belongs to a sample in a slot or staged, and to one request of it |
| Progress.ArraysHaveRoom | src/pipeline/zarr_planner.c:72-82 | with the size that start-up demands, the array cache always has an entry that is free, unpinned or the wanted one when a sample is taken in |
| Progress.ShardsHaveRoom | src/pipeline/zarr_planner.c:72-82 | so has the shard cache whenever a sample still has shards to ask for |
| Progress.NextSampleMoves | src/prefetch/prefetcher.c:475-816 | the next sample to be consumed has a step that takes it further, unless its fetch is under way |
| Progress.RunKeepsFlow | src/prefetch/prefetcher.c:475-816 | the conditions for this hold over every run without faults |
| Progress.NoDeadlock | src/pipeline/zarr_planner.c:128-195 | from start-up with the demanded cache sizes, after every run without faults, a full batch can be built, and otherwise the next sample can move unless its fetch is under way |
| Progress.NextIsConsumed | src/prefetch/prefetcher.c:475-816 | from every state of such a run there is a continuation without further pushes in which the next sample is consumed |
| Progress.AllCanBeDelivered | src/pipeline/zarr_planner.c:128-195 | and one in which all pushed samples are delivered in order, with less than one batch left to plan |
| Lookaheads.Lookahead.Push | src/lookahead/lookahead.c:60-86 | appends at the end of the queue unless it is full |
| Lookaheads.Lookahead.TryPop | src/lookahead/lookahead.c:160-175 | removes the oldest sample if there is one |
| Pipelines.Pipeline.Prepare | src/damacy_plan.c:5-28 | plans are queued in the order the planner makes them; it stops when the ring is full, at AGAIN without failing, or at the first failure, which it returns |
| Pipelines.Pipeline.SubmitReady | src/damacy_scheduler.c:33-46 | batch number k is always submitted with the k-th plan, oldest first, until one is refused, and then with that status, or none is left |
| Pipelines.Pipeline.Step | src/damacy_scheduler.c:19-52 | a step runs the executor, fills the ring and submits, each only if the one before did not fail; AGAIN is no failure; the first other status is kept, is the one of the part that failed, and after it no step does anything; it says exactly whether something changed |
| Loaders.StepKeepsInv | src/damacy_scheduler.c:19-52 | every step of planner, scheduler, executor and caller keeps the loader's invariant: the ring holds the planned batches from the next number on, each slot and each live batch holds the planned batch of its number, and popped batches are the planned ones in order |
| Loaders.RunKeepsInv | src/damacy_scheduler.c:19-52 | so does every run |
| Loaders.PoppedInSequence | src/damacy_pop.c:8-50 | over every run of the whole loader, the n-th popped batch is the n-th planned one, and its row i is sample n times the batch size plus i plus the number of dropped samples before it |
| Loaders.PoppedInOrderIff | src/damacy_pop.c:8-50 | the popped rows are samples 0, 1, 2, … if and only if no dropped sample comes before a popped one; without failure exactly the swallowed ones are dropped |
| Loaders.PopEndsWhenAllOut | src/damacy_pop.c:38-40 | without failure, pop finds nothing left only if every pushed sample was popped in order; that is so if and only if the ring is empty, nothing is pending and all submitted batches were taken |
| Loaders.SwallowedKeepsPopWaiting | src/damacy_pop.c:38-40 | once a sample was swallowed, pop never again finds nothing left |
| Loaders.PoppedIsComplete | src/executor/cpu_executor.c:810-829 | whenever pop can take a batch, every chunk of the plan of that batch has been decoded, and in exactly that many decodes |
| Loaders.StatusIsFirstReport | src/damacy_scheduler.c:19-52 | over every run, the loader has failed if and only if planner, decoder or another part reported an error other than AGAIN, and its status is the first of these |
| Loaders.FailureStays | src/damacy_scheduler.c:23-24 | after a failure nothing is pushed, planned, submitted, rendered or handed out, and the status stays |
| Loaders.BadDecodeStops | src/executor/cpu_executor.c:715-731 | a chunk that cannot be decoded fails the loader with the status of the first such chunk, and neither its batch nor any later one is handed out |
| Loaders.RingPrepare | src/damacy_plan.c:5-28 | appending a plan to the ring in memory is the machine's planning step |
| Loaders.RingSubmit | src/damacy_scheduler.c:33-46 | taking the oldest plan out of it is the machine's submission step |
| ExecutorSteps.Collect | src/executor/cpu_executor.c:715-747 | collecting in memory is the machine's step and lowers the work left; its status is that of the first bad chunk |
| ExecutorSteps.FreeHeld | src/executor/cpu_executor.c:756-762 | freeing held slots in memory is a run of the machine and changes no work |
| ExecutorSteps.Dispatch | src/executor/cpu_executor.c:763-769 | so is sending a free wave, which the store may refuse for now or for good |
| ExecutorSteps.Poll | src/executor/cpu_executor.c:770-787 | so is polling a wave, whose reads may have arrived, failed or be under way |
| ExecutorSteps.StartDecode | src/executor/cpu_executor.c:788-806 | so is the start of a decode |
| ExecutorSteps.Step | src/executor/cpu_executor.c:749-808 | one call of the executor's step function is a run of the whole loader's machine; the first bad chunk decides the status, else a refused dispatch or failed reads; unless reads or a decode are still under way, the call lowers the work left while a batch is in progress |
| ExecutorSteps.FinishAll | src/executor/cpu_executor.c:749-808 | from every state that a run leads to, if reads and decodes succeed, finitely many calls finish all submitted batches, and pop can take the next one |
| ExecutorSteps.TakeNext | src/damacy_pop.c:30-37 | taking a batch in memory is the machine's pop: it is the next planned batch, AGAIN if and only if that one is not finished |
| ExecutorSteps.LetGo | src/pipeline/components.c:226-234 | releasing a batch in memory is the machine's step |
| ExecutorSteps.Share | src/pipeline/components.c:219-224 | so is retaining one |
| ExecutorSteps.SubmitNext | src/damacy_scheduler.c:33-46 | so is submitting the oldest plan; AGAIN leaves it in the ring, any other refusal stops the loader, and a plan that fits an idle executor is accepted by one |
| ExecutorSteps.PopAll | src/damacy_pop.c:8-50 | from every state that a run leads to, once the caller has let go of its batches: if reads and decodes succeed and the prepared plans fit, every planned batch can be popped, in order |
| MetadataJobs.StartKeeps | src/store/metadata_store_async.c:306-343 | a request starts with exactly the operations of its kind in flight or ends at once; after the space check the second submission cannot fail with the first one in flight |
| MetadataJobs.CompletionKeeps | src/store/metadata_store_async.c:388-505 | every completion, with any result and in any order, leads to a consistent stage or ends the request, and brings the end closer |
| MetadataJobs.EveryJobEnds | src/store/metadata_store_async.c:180-505 | a request ends after at most one completion for a size query, three for a range and four for a file, with exactly one callback, nothing in flight, and its descriptor closed once if it was opened; before that something is in flight |
| MetadataJobs.FourCompletions | src/store/metadata_store_async.c:306-505 | the bound for a file is reached by every non-empty file within the requested size |
| MetadataJobs.StartsIff | src/store/metadata_store_async.c:306-343 | a request starts if and only if the ring has entries for its first operations, at once or after submitting, and a range has its buffer; otherwise it ends at once, with IO for a file and OOM for the other kinds |
| MetadataJobs.ReportsVerdict | src/store/metadata_store_async.c:180-505 | over every life of a request, the callback reports the error of the last completion that had one; without any, OK with the size for a size query, the requested length for a range and the size that was found for a file, all of it read |
| MetadataJobs.WellIffNoFault | src/store/metadata_store_async.c:388-505 | a request has no error to report if and only if none of its completions brought one: a failed operation, a file larger than requested, no memory or entry for the read, or another number of bytes than wanted |
| MetadataJobs.WellEndsWell | src/store/metadata_store_async.c:180-505 | if every operation succeeds, the file is within the requested size, all of it is read, and memory and entries are there, the callback gets OK and the length, for every such size and order of completions |
| MetadataJobs.MetadataStore.DrainOne | src/store/metadata_store_async.c:345-364 | the oldest waiting request starts if and only if there is one and fewer than the limit are active |
| MetadataJobs.MetadataStore.HandleCompletion | src/store/metadata_store_async.c:478-505 | the request takes the step of its completion and reports what its history calls for; the active count stays the number of started and unfinished requests, and within the limit |

## Left out

- CUDA execution, device buffers, streams and events: the model covers the CPU executor and the host side of dispatching.
- Codecs, element types and their conversions: decoding and conversion are arbitrary functions; a stored chunk is assumed to decode to its full size.
- JSON and Zarr metadata parsing, OME-NGFF, spatial queries, Python bindings, command line tools, statistics, logging and latency injection.
- Configuration checks and memory budget computation at start-up, other than the cache sizes, and the thread pools behind the decode workers.
- Condition variables, sleeping and fairness: steps are critical sections in any order, and no statement is about time. `io_event_wait` returning early on shutdown is not modelled.
- 64-bit wrap-around of sequence numbers, batch numbers and file positions beyond the checks the code itself makes, and of the 32-bit generation counter.
- The byte budget of plans (paths, index storage, table size) and 64-bit overflow of the sums in the plan builder.
- Sample plans, gather tables and path interning inside the dispatch plan.
- The least-recently-used index behind the prefetch cache: which unpinned entries are evicted and whether an insert succeeds are arbitrary.
- Progress.NextSampleMoves: the step it gives for a cache request is one whose insert succeeds; the index probes at most 16 places, so with more than 16 pinned keys in one probe window an insert may fail although an entry is free, and the request is then repeated.
- Progress.AllCanBeDelivered: says that a continuation exists, not that the scheduler picks it.
- ExecutorSteps.PopAll: has the caller release each batch before the next plan is submitted.
- Loaders.StepKeepsInv: takes the chunks that the plan of a batch needs as a function of its rows; that they are the right ones is what WholeBatch.LoadBatch and Dispatch.DispatchPlanBuild state.
- The chunk layout cache of the prefetcher, which the planner never configures.
- `query_validate`, which repeats the axis checks before a push.
- Selection.SortIndices: stands for the C library's sort; it states the sorted permutation and not the algorithm.
- Selection.QueryCopy: does not model the size checks and the allocation of the copied storage.
- PlanBuilder.PreparedPlanBuild: takes the catalog as fixed during the call.
- Dispatch.DispatchPlanBuild: does not model the gather table limits and memory failures.
- CpuExecutors.CpuExecutor.Submit: does not model the decoded-size and codec checks.
- CpuExecutors.CpuExecutor.DispatchWave: the store accepts all reads of a wave or refuses them; that it then delivers the bytes of the files is assumed.
- RenderJobs.RenderJob.Reserve: does not model the 32-bit width of the decoded offset.
- IoQueues.IoQueue.Post: models the masked ring index as a remainder, with the capacity kept a power of two.
- PrefetchCaches.PrefetchCache.Request: does not model the lock or the start of the fetch, which is a later completion step.
- Prefetchers.BuildKeeps: advances the watermarks of both caches in one step.
- Prefetchers.StepKeepsInv: models the worker's scan over slots as one step per slot, in any order.
- MetadataJobs.EveryJobEnds: does not model that the ring may lose completions; it bounds the completions, not their arrival.
