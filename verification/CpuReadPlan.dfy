/** The reads of one batch on the CPU: the distinct chunks, coalesced, with a list of chunks
    for every read. */
module CpuReadPlans {
  import opened Statuses
  import opened Seqs
  import opened Arith
  import opened ReadOpSort
  import opened Coalesce
  import opened Interleave
  import opened Dispatch

  datatype CpuConfig = CpuConfig(maxMemory: nat, decodeWorkers: nat, chunksPerInput: nat, maxEncoded: nat,
                                 maxInflight: nat)

  /** Bytes of one input buffer. */
  ghost function InputCapacity(cfg: CpuConfig): nat { cfg.chunksPerInput * cfg.maxEncoded }

  ghost predicate ConfigOk(cfg: CpuConfig) {
    cfg.decodeWorkers > 0 && cfg.chunksPerInput > 0 && cfg.maxEncoded > 0 && cfg.maxInflight > 0
  }

  /** `first` and `next` thread the chunks of each read; `offset` is where a chunk starts in its read. */
  datatype ReadPlan = ReadPlan(list: seq<ReadOp>, first: seq<Option<nat>>, next: seq<Option<nat>>, offset: seq<nat>,
                               bytes: nat)

  const PLAN_BYTES_PER_CHUNK: nat := 44
  const SCRATCH_BYTES_PER_CHUNK: nat := 48

  ghost function PlanBytes(count: nat): nat { count * PLAN_BYTES_PER_CHUNK }

  /** What building the plan takes: the plan, and scratch space of which nothing remains. */
  ghost function Need(count: nat): nat { count * (PLAN_BYTES_PER_CHUNK + SCRATCH_BYTES_PER_CHUNK) }

  /** How many chunks one read may serve. */
  ghost function ReadChunks(cfg: CpuConfig): nat {
    if cfg.decodeWorkers > cfg.chunksPerInput then cfg.chunksPerInput else cfg.decodeWorkers
  }

  // --- Chunk lists ------------------------------------------------------------------------------------

  /** The chunks k >= i that read r serves, in order. */
  ghost function Served(index: seq<nat>, r: nat, i: nat): seq<nat>
    requires i <= |index|
    decreases |index| - i
  {
    if i == |index| then [] else (if index[i] == r then [i] else []) + Served(index, r, i + 1)
  }

  ghost predicate RunsUp(next: seq<Option<nat>>, from: nat) {
    from <= |next| && forall i: nat | from <= i < |next| && next[i].Some? :: i < next[i].value < |next|
  }

  ghost function Chain(next: seq<Option<nat>>, from: nat, c: Option<nat>): seq<nat>
    requires RunsUp(next, from) && (c.Some? ==> from <= c.value < |next|)
    decreases if c.Some? then |next| - c.value else 0
  {
    if c.None? then [] else [c.value] + Chain(next, from, next[c.value])
  }

  lemma {:induction false} ChainPrepend(next: seq<Option<nat>>, from: nat, i: nat, o: Option<nat>, c: Option<nat>)
    requires i < from && RunsUp(next, from) && (c.Some? ==> from <= c.value < |next|)
               && (o.Some? ==> from <= o.value < |next|)
    requires from == i + 1
    ensures RunsUp(next[i := o], i) && Chain(next[i := o], i, c) == Chain(next, from, c)
    decreases if c.Some? then |next| - c.value else 0
  {
    assert RunsUp(next[i := o], i);
    if c.Some? { ChainPrepend(next, from, i, o, next[c.value]); }
  }

  ghost predicate ListsOk(index: seq<nat>, n: nat, first: seq<Option<nat>>, next: seq<Option<nat>>, from: nat) {
    && |next| == |index| && |first| == n && RunsUp(next, from)
    && (forall r | 0 <= r < n :: first[r].Some? ==> from <= first[r].value < |next|)
    && forall r | 0 <= r < n :: Chain(next, from, first[r]) == Served(index, r, from)
  }

  lemma ChainStep(next: seq<Option<nat>>, i: nat)
    requires RunsUp(next, i) && i < |next|
    ensures Chain(next, i, Some(i)) == [i] + Chain(next, i, next[i])
  {
  }

  lemma ServedStep(index: seq<nat>, r: nat, i: nat)
    requires i < |index|
    ensures Served(index, r, i) == (if index[i] == r then [i] else []) + Served(index, r, i + 1)
  {
  }

  lemma ThreadChunk(index: seq<nat>, n: nat, first: seq<Option<nat>>, next: seq<Option<nat>>, i: nat)
    requires i < |index| && index[i] < n && ListsOk(index, n, first, next, i + 1)
    ensures ListsOk(index, n, first[index[i] := Some(i)], next[i := first[index[i]]], i)
  {
    hide Chain, Served;
    var r := index[i];
    var first', next' := first[r := Some(i)], next[i := first[r]];
    ChainPrepend(next, i + 1, i, first[r], None);
    forall q | 0 <= q < n ensures Chain(next', i, first'[q]) == Served(index, q, i) {
      ChainPrepend(next, i + 1, i, first[r], first[q]);
      ChainStep(next', i);
      ServedStep(index, q, i);
    }
  }

  method ThreadChunks(index: seq<nat>, n: nat) returns (first: seq<Option<nat>>, next: seq<Option<nat>>)
    requires forall i | 0 <= i < |index| :: index[i] < n
    ensures ListsOk(index, n, first, next, 0)
  {
    first, next := seq(n, _ => None), seq(|index|, _ => None);
    var i := |index|;
    while i > 0
      invariant 0 <= i <= |index| && ListsOk(index, n, first, next, i)
    {
      i := i - 1;
      ThreadChunk(index, n, first, next, i);
      next := next[i := first[index[i]]];
      first := first[index[i] := Some(i)];
    }
  }

  // --- What the lists hold -----------------------------------------------------------------------------------

  lemma {:induction false} ServedMembers(index: seq<nat>, r: nat, i: nat, k: nat)
    requires i <= |index|
    ensures k in Served(index, r, i) <==> i <= k < |index| && index[k] == r
    ensures Distinct(Served(index, r, i))
    decreases |index| - i
  {
    if i < |index| {
      ServedMembers(index, r, i + 1, k);
      ServedMembers(index, r, i + 1, i);
      DistinctAppend(if index[i] == r then [i] else [], Served(index, r, i + 1));
    }
  }

  lemma {:induction false} ServedSize(index: seq<nat>, r: nat, i: nat)
    requires i <= |index|
    ensures |Served(index, r, i)| == |set k: nat | i <= k < |index| && index[k] == r|
    decreases |index| - i
  {
    var here := set k: nat | i <= k < |index| && index[k] == r;
    if i < |index| {
      ServedSize(index, r, i + 1);
      var rest := set k: nat | i + 1 <= k < |index| && index[k] == r;
      assert here == rest + if index[i] == r then {i} else {};
    } else {
      assert here == {};
    }
  }

  /** The chunk lists of reads [r, n), one after the other. */
  ghost function Flat(index: seq<nat>, r: nat, n: nat): seq<nat>
    requires r <= n
    decreases n - r
  {
    if r == n then [] else Served(index, r, 0) + Flat(index, r + 1, n)
  }

  lemma {:induction false} FlatSplit(index: seq<nat>, r: nat, m: nat, n: nat)
    requires r <= m <= n
    ensures Flat(index, r, n) == Flat(index, r, m) + Flat(index, m, n)
    decreases m - r
  {
    if r < m { FlatSplit(index, r + 1, m, n); }
  }

  lemma {:induction false} FlatMembers(index: seq<nat>, r: nat, n: nat, k: nat)
    requires r <= n
    ensures k in Flat(index, r, n) <==> k < |index| && r <= index[k] < n
    ensures Distinct(Flat(index, r, n))
    decreases n - r
  {
    if r < n {
      ServedMembers(index, r, 0, k);
      FlatMembers(index, r + 1, n, k);
      forall e | e in Served(index, r, 0) ensures e !in Flat(index, r + 1, n) {
        ServedMembers(index, r, 0, e);
        FlatMembers(index, r + 1, n, e);
      }
      DistinctAppend(Served(index, r, 0), Flat(index, r + 1, n));
    }
  }

  /** Taken together the lists hold every chunk exactly once. */
  lemma FlatIsAll(index: seq<nat>, n: nat)
    requires forall i | 0 <= i < |index| :: index[i] < n
    ensures multiset(Flat(index, 0, n)) == multiset(seq(|index|, i => i)) && |Flat(index, 0, n)| == |index|
  {
    var all: seq<nat> := seq(|index|, i => i);
    FlatMembers(index, 0, n, 0);
    forall k: nat ensures k in Flat(index, 0, n) <==> k in all {
      FlatMembers(index, 0, n, k);
      if k < |index| { assert all[k] == k; }
    }
    DistinctSameMembers(Flat(index, 0, n), all);
  }

  // --- cpu_read_plan_build ----------------------------------------------------------------------------------------

  /** The window of a chunk, or a placeholder. */
  ghost function WindowOf(item: Item): ReadOp {
    if item.missing then ReadOp("", false, 0, 0) else ReadOp(item.path, true, item.offset, item.nbytes)
  }

  ghost predicate Fits(cfg: CpuConfig, item: Item) {
    !item.missing ==> 0 < item.nbytes <= cfg.maxEncoded && item.nbytes <= U32_MAX
  }

  /** Chunk c's bytes are at its offset in the read that serves it. */
  ghost predicate ChunkServed(item: Item, list: seq<ReadOp>, read: nat, offset: nat) {
    && read < |list|
    && (item.missing ==> !Real(list[read]))
    && (!item.missing ==> Window(WindowOf(item), list[read], offset) && Real(list[read]))
  }

  /** A read plan for the chunks: lists, placement, and reads that fit an empty input buffer. */
  ghost predicate PlanOk(cfg: CpuConfig, items: seq<Item>, p: ReadPlan, index: seq<nat>) {
    && |index| == |p.offset| == |items| && p.bytes == PlanBytes(|items|)
    && (forall c | 0 <= c < |items| :: ChunkServed(items[c], p.list, index[c], p.offset[c]))
    && ListsOk(index, |p.list|, p.first, p.next, 0)
    && (forall r: nat | r < |p.list| :: ReadFits(cfg, p.list, index, r))
  }

  ghost predicate ReadFits(cfg: CpuConfig, list: seq<ReadOp>, index: seq<nat>, r: nat)
    requires r < |list|
  {
    0 < |Served(index, r, 0)| <= cfg.chunksPerInput && list[r].nbytes <= InputCapacity(cfg)
  }

  /** The reads are the chunks' windows, merged as far as an input buffer and the decode workers allow, and in turn
      over files. */
  ghost predicate PlanMerged(cfg: CpuConfig, items: seq<Item>, p: ReadPlan, m: Merge) {
    && |m.built| == |items| && (forall i | 0 <= i < |items| :: m.built[i] == WindowOf(items[i]))
    && m.offset == p.offset
    && Coalesced(m.built, Fused(p.list, m.index, m.offset), m.nReal, ReadChunks(cfg) * cfg.maxEncoded, ReadChunks(cfg))
    && EmittedInTurn(p.list, m.nReal, m.sorted, m.order)
    && MergedGreedily(m.built, Fused(p.list, m.index, m.offset), m.order,
                      ReadChunks(cfg) * cfg.maxEncoded, ReadChunks(cfg))
  }

  method WindowsOf(items: seq<Item>) returns (list: array<ReadOp>)
    ensures fresh(list) && list.Length == |items| && forall i | 0 <= i < |items| :: list[i] == WindowOf(items[i])
  {
    list := new ReadOp[|items|](_ => ReadOp("", false, 0, 0));
    for i := 0 to |items|
      invariant forall k | 0 <= k < i :: list[k] == WindowOf(items[k])
      invariant forall k | i <= k < |items| :: list[k] == ReadOp("", false, 0, 0)
    {
      if !items[i].missing { list[i] := ReadOp(items[i].path, true, items[i].offset, items[i].nbytes); }
    }
  }

  /** Fails for good only if the plan could never fit, and for now only if it fits once the
      plans in progress are done. `memory` tells whether the allocations succeed. */
  method BuildReadPlan(cfg: CpuConfig, items: seq<Item>, available: nat, activeBytes: nat, memory: bool)
    returns (status: Status, p: ReadPlan, ghost merge: Merge)
    requires ConfigOk(cfg) && |items| <= U32_MAX && forall i | 0 <= i < |items| :: Fits(cfg, items[i])
    ensures status == BUDGET <==> Need(|items|) > available + activeBytes
    ensures status == AGAIN <==> available < Need(|items|) <= available + activeBytes
    ensures status == OK <==> Need(|items|) <= available && memory
    ensures status in {OK, BUDGET, AGAIN, OOM}
    ensures status == OK ==>
              PlanOk(cfg, items, p, merge.index) && PlanMerged(cfg, items, p, merge) && p.bytes <= Need(|items|)
  {
    p, merge := ReadPlan([], [], [], [], 0), Merge([], [], [], 0, [], []);
    var bytes := |items| * PLAN_BYTES_PER_CHUNK;
    var need := bytes + |items| * SCRATCH_BYTES_PER_CHUNK;
    if need > available && need - available > activeBytes { return BUDGET, p, merge; }
    if need > available { return AGAIN, p, merge; }
    if !memory { return OOM, p, merge; }
    p, merge := CoalesceChunkReads(cfg, items, bytes);
    return OK, p, merge;
  }

  method CoalesceChunkReads(cfg: CpuConfig, items: seq<Item>, bytes: nat) returns (p: ReadPlan, ghost merge: Merge)
    requires ConfigOk(cfg) && |items| <= U32_MAX && forall i | 0 <= i < |items| :: Fits(cfg, items[i])
    requires bytes == PlanBytes(|items|)
    ensures PlanOk(cfg, items, p, merge.index) && PlanMerged(cfg, items, p, merge)
  {
    hide Coalesced, ListsOk, ChunkServed, ReadFits, EmittedInTurn, MergedGreedily;
    var a := WindowsOf(items);
    ghost var ops := a[..|items|];
    var most := cfg.decodeWorkers;
    if most > cfg.chunksPerInput { most := cfg.chunksPerInput; }
    var n, readIndex, offset, nReal, sorted, order := CoalesceReads(a, |items|, most * cfg.maxEncoded, most);
    var list := a[..n];
    ghost var f := Fused(list, readIndex, offset);
    IndexInRange(ops, f, nReal, most * cfg.maxEncoded, most);
    var first, next := ThreadChunks(readIndex, n);
    merge := Merge(ops, readIndex, offset, nReal, sorted, order);
    p := ReadPlan(list, first, next, offset, bytes);
    forall c | 0 <= c < |items| ensures ChunkServed(items[c], list, readIndex[c], offset[c]) {
      ChunkPlaced(cfg, items, ops, f, nReal, c);
    }
    forall r: nat | r < n ensures ReadFits(cfg, list, readIndex, r) {
      ReadSmall(cfg, items, ops, f, nReal, r);
    }
  }

  lemma IndexInRange(ops: seq<ReadOp>, f: Fused, nReal: nat, maxBytes: nat, maxChunks: nat)
    requires Coalesced(ops, f, nReal, maxBytes, maxChunks)
    ensures |f.index| == |f.offset| == |ops| && forall i | 0 <= i < |f.index| :: f.index[i] < |f.merged|
  {
    SlotBounds(ops, f, seq(|f.merged|, _ => 0), nReal, maxBytes, maxChunks);
  }

  lemma ChunkPlaced(cfg: CpuConfig, items: seq<Item>, ops: seq<ReadOp>, f: Fused, nReal: nat, c: nat)
    requires |ops| == |items| && (forall i | 0 <= i < |items| :: ops[i] == WindowOf(items[i])) && c < |items|
               && Fits(cfg, items[c])
    requires Coalesced(ops, f, nReal, ReadChunks(cfg) * cfg.maxEncoded, ReadChunks(cfg))
    ensures ChunkServed(items[c], f.merged, f.index[c], f.offset[c])
  {
    hide Covered, WithinCaps;
    assert ops[c] == WindowOf(items[c]);
    if items[c].missing {
      assert f.merged[f.index[c]] == ops[c];
    } else {
      assert Real(ops[c]) && Real(f.merged[f.index[c]]);
    }
  }

  lemma ReadSmall(cfg: CpuConfig, items: seq<Item>, ops: seq<ReadOp>, f: Fused, nReal: nat, r: nat)
    requires ConfigOk(cfg) && |ops| == |items|
               && (forall i | 0 <= i < |items| :: ops[i] == WindowOf(items[i]) && Fits(cfg, items[i]))
    requires Coalesced(ops, f, nReal, ReadChunks(cfg) * cfg.maxEncoded, ReadChunks(cfg)) && r < |f.merged|
    ensures ReadFits(cfg, f.merged, f.index, r)
  {
    hide Covered, Served;
    ServedSize(f.index, r, 0);
    assert Members(f.index, r) == set k: nat | 0 <= k < |f.index| && f.index[k] == r;
    MulMono(ReadChunks(cfg), cfg.chunksPerInput, cfg.maxEncoded);
    MulMono(1, cfg.chunksPerInput, cfg.maxEncoded);
    if r < nReal {
      assert WithinCaps(ops, f.index, r, f.merged[r], ReadChunks(cfg) * cfg.maxEncoded, ReadChunks(cfg));
    } else {
      FillAlone(ops, f, nReal, ReadChunks(cfg) * cfg.maxEncoded, ReadChunks(cfg), r);
      assert IsFill(ops, f, |ops|, r);
    }
  }
}
