/** From planned chunks to grouped reads: page-align, coalesce, renumber, group. What each
    chunk denotes in its file never changes on the way. */
module Dispatch {
  import opened Statuses
  import opened Arith
  import opened Seqs
  import opened ReadOpSort
  import opened Interleave
  import opened Coalesce
  import opened GroupChunks
  import ChunkTables
  import PlanBuilder

  /** One use of a chunk: where its encoded bytes are, and how long it is decoded. */
  datatype Item = Item(missing: bool, path: string, offset: nat, nbytes: nat, decoded: nat)

  ghost predicate ItemOk(item: Item) {
    !item.missing ==> 0 < item.nbytes <= U32_MAX && item.offset + item.nbytes <= U64_MAX
  }

  /** What a planned use asks for. `pathOf` names the file of a shard. */
  ghost function ItemOf(plan: PlanBuilder.Plan, pathOf: (string, seq<nat>) -> string, decoded: nat -> nat, u: nat): Item
    requires u < |plan.uses| && plan.uses[u].chunk < |plan.chunks|
  {
    var chunk := plan.chunks[plan.uses[u].chunk];
    match chunk.location
    case Missing => Item(true, "", 0, 0, decoded(chunk.source))
    case Stored(uri, shard, offset, nbytes) => Item(false, pathOf(uri, shard), offset, nbytes, decoded(chunk.source))
  }

  /** Every use of a built plan is within the widths the reads are built with. */
  lemma PlannedItemOk(catalog: PlanBuilder.Catalog, samples: seq<PlanBuilder.PlannerSample>, outShape: seq<nat>,
                      plan: PlanBuilder.Plan, pathOf: (string, seq<nat>) -> string, decoded: nat -> nat, u: nat)
    requires PlanBuilder.PlanFor(catalog, samples, outShape, plan) && u < |plan.uses|
    ensures plan.uses[u].chunk < |plan.chunks| && ItemOk(ItemOf(plan, pathOf, decoded, u))
  {
    var c := plan.chunks[plan.uses[u].chunk];
    assert PlanBuilder.Located(catalog, plan.uris, plan.metas, c.source, c.coordinate, c.location);
  }

  // --- The aligned window -----------------------------------------------------------------------

  function AlignDown(x: nat, a: nat): (r: nat)
    requires a > 0
    ensures r <= x < r + a
  {
    DivBounds(x, a);
    x / a * a
  }

  function AlignUp(x: nat, a: nat): (r: nat)
    requires a > 0
    ensures x <= r < x + a
  {
    AlignDown(x + a - 1, a)
  }

  ghost predicate WindowFits(item: Item, alignment: nat)
    requires alignment > 0
  {
    && item.offset + item.nbytes <= U64_MAX - alignment + 1
    && AlignUp(item.offset + item.nbytes, alignment) - AlignDown(item.offset, alignment) <= U32_MAX
  }

  ghost predicate Aligned(r: ReadOp, alignment: nat)
    requires alignment > 0
  {
    r.offset % alignment == 0 && r.nbytes % alignment == 0
  }

  lemma MultipleMod(k: nat, a: nat)
    requires a > 0
    ensures k * a % a == 0
  {
    DivUnique(k * a, a, k);
  }

  lemma MultiplesApart(x: nat, y: nat, a: nat)
    requires a > 0
    ensures AlignDown(x, a) % a == 0
    ensures AlignDown(x, a) <= AlignUp(y, a) ==> (AlignUp(y, a) - AlignDown(x, a)) % a == 0
  {
    var i, j := x / a, (y + a - 1) / a;
    MultipleMod(i, a);
    if i * a <= j * a {
      MulDiv(i, a);
      MulDiv(j, a);
      DivMono(i * a, j * a, a);
      assert j * a - i * a == (j - i) * a;
      MultipleMod(j - i, a);
    }
  }

  // --- What a chunk plan denotes -------------------------------------------------------------------

  /** Chunk plan `c` still stands for `item`: same kind, and for a stored chunk the same
      file, offset and length, inside its read. */
  ghost predicate Denotes(item: Item, list: seq<ReadOp>, c: ChunkPlan) {
    && c.read < |list| && c.fill == item.missing && c.decoded == item.decoded && c.nbytes == item.nbytes
    && (item.missing ==> !Real(list[c.read]))
    && (!item.missing ==>
          && Real(list[c.read]) && list[c.read].path == item.path
          && list[c.read].offset + c.offset == item.offset && c.offset + c.nbytes <= list[c.read].nbytes)
  }

  ghost predicate AllDenote(items: seq<Item>, list: seq<ReadOp>, plans: seq<ChunkPlan>) {
    |plans| == |items| && forall i | 0 <= i < |plans| :: plans[i].use == i && Denotes(items[i], list, plans[i])
  }

  /** The smallest aligned window around the item's bytes, or a placeholder. */
  ghost predicate WindowFor(item: Item, alignment: nat, r: ReadOp)
    requires alignment > 0
  {
    if item.missing then r == ReadOp("", false, 0, 0)
    else
      && r.path == item.path && r.hasPath && r.offset == AlignDown(item.offset, alignment)
      && r.offset + r.nbytes == AlignUp(item.offset + item.nbytes, alignment)
  }

  /** One read per use, each a page-aligned window around its chunk. */
  ghost predicate Built(items: seq<Item>, alignment: nat, list: seq<ReadOp>, plans: seq<ChunkPlan>)
    requires alignment > 0
  {
    && |list| == |items| && AllDenote(items, list, plans)
    && (forall i | 0 <= i < |list| :: plans[i].read == i && list[i].nbytes <= U32_MAX && Aligned(list[i], alignment))
    && forall i | 0 <= i < |list| :: WindowFor(items[i], alignment, list[i])
  }

  method BuildOne(item: Item, alignment: nat) returns (status: Status, r: ReadOp, offset: nat)
    requires alignment > 0 && ItemOk(item)
    ensures status == OK <==> item.missing || WindowFits(item, alignment)
    ensures status != OK ==> status == DECODE
    ensures status == OK ==> r.nbytes <= U32_MAX && Aligned(r, alignment) && WindowFor(item, alignment, r)
    ensures status == OK && item.missing ==> !Real(r)
    ensures status == OK && !item.missing ==>
              Real(r) && r.path == item.path && r.offset + offset == item.offset && offset + item.nbytes <= r.nbytes
  {
    r, offset := ReadOp("", false, 0, 0), 0;
    if item.missing { return OK, r, offset; }
    var start, end := item.offset / alignment * alignment, item.offset + item.nbytes;
    assert start == AlignDown(item.offset, alignment);
    if end > U64_MAX - alignment + 1 { return DECODE, r, offset; }
    end := (end + alignment - 1) / alignment * alignment;
    assert end == AlignUp(item.offset + item.nbytes, alignment);
    if end - start > U32_MAX { return DECODE, r, offset; }
    MultiplesApart(item.offset, item.offset + item.nbytes, alignment);
    return OK, ReadOp(item.path, true, start, end - start), item.offset - start;
  }

  method BuildReads(items: seq<Item>, alignment: nat) returns (status: Status, list: seq<ReadOp>, plans: seq<ChunkPlan>)
    requires alignment > 0 && forall i | 0 <= i < |items| :: ItemOk(items[i])
    ensures status == OK <==> forall i | 0 <= i < |items| :: items[i].missing || WindowFits(items[i], alignment)
    ensures status != OK ==> status == DECODE
    ensures status == OK ==> Built(items, alignment, list, plans)
  {
    hide ItemOk, WindowFits, Aligned, WindowFor;
    list, plans := [], [];
    for i := 0 to |items|
      invariant |list| == |plans| == i
      invariant forall k | 0 <= k < i :: items[k].missing || WindowFits(items[k], alignment)
      invariant forall k | 0 <= k < i :: plans[k].use == k && plans[k].read == k && Denotes(items[k], list, plans[k])
      invariant forall k | 0 <= k < i :: list[k].nbytes <= U32_MAX && Aligned(list[k], alignment)
      invariant forall k | 0 <= k < i :: WindowFor(items[k], alignment, list[k])
    {
      var s, r, offset := BuildOne(items[i], alignment);
      if s != OK { return s, list, plans; }
      list := list + [r];
      plans := plans + [ChunkPlan(i, offset, items[i].nbytes, items[i].decoded, items[i].missing, i)];
    }
    return OK, list, plans;
  }

  // --- coalesce_chunks -----------------------------------------------------------------------------

  /** Chunk plan `c` after its read went to `index` at `offset`. */
  function Rewritten(c: ChunkPlan, index: nat, offset: nat): ChunkPlan {
    c.(read := index, offset := if c.fill then c.offset else c.offset + offset)
  }

  lemma RewriteDenotes(item: Item, ops: seq<ReadOp>, f: Fused, nReal: nat, maxBytes: nat, maxChunks: nat, c: ChunkPlan)
    requires Coalesced(ops, f, nReal, maxBytes, maxChunks) && Denotes(item, ops, c) && ops[c.read].nbytes <= U32_MAX
    ensures Denotes(item, f.merged, Rewritten(c, f.index[c.read], f.offset[c.read]))
    ensures !c.fill ==> c.offset + f.offset[c.read] <= U32_MAX
  {
    hide Covered;
    if item.missing {
      assert f.merged[f.index[c.read]] == ops[c.read];
    } else {
      var m := f.index[c.read];
      assert Window(ops[c.read], f.merged[m], f.offset[c.read]);
      MergedWidth(ops, f, nReal, maxBytes, maxChunks, c.read);
    }
  }

  lemma MergedWidth(ops: seq<ReadOp>, f: Fused, nReal: nat, maxBytes: nat, maxChunks: nat, i: nat)
    requires Coalesced(ops, f, nReal, maxBytes, maxChunks) && i < |ops| && Real(ops[i]) && ops[i].nbytes <= U32_MAX
    ensures f.merged[f.index[i]].nbytes <= U32_MAX
  {
    hide Covered;
    var m := f.index[i];
    assert WithinCaps(ops, f.index, m, f.merged[m], maxBytes, maxChunks);
    if k: nat :| k < |ops| && Members(f.index, m) == {k} && f.merged[m] == ops[k] {
      assert i in Members(f.index, m);
    }
  }

  /** Rewrites every chunk plan to its merged read. The width check can never fail. */
  method RewritePlans(ghost items: seq<Item>, ghost ops: seq<ReadOp>, f: Fused, plans: seq<ChunkPlan>,
                      ghost nReal: nat, ghost maxBytes: nat, ghost maxChunks: nat)
    returns (status: Status, plans': seq<ChunkPlan>)
    requires Coalesced(ops, f, nReal, maxBytes, maxChunks) && AllDenote(items, ops, plans)
    requires forall i | 0 <= i < |ops| :: ops[i].nbytes <= U32_MAX
    ensures status == OK && AllDenote(items, f.merged, plans')
    ensures |plans'| == |plans| && forall i | 0 <= i < |plans| ::
              plans[i].read < |f.index| && plans'[i].read == f.index[plans[i].read]
  {
    hide Coalesced, Denotes;
    plans' := [];
    for i := 0 to |plans|
      invariant |plans'| == i
      invariant forall k | 0 <= k < i :: plans'[k].use == k && Denotes(items[k], f.merged, plans'[k])
      invariant forall k | 0 <= k < i :: plans[k].read < |f.index| && plans'[k].read == f.index[plans[k].read]
    {
      var c := plans[i];
      PlanInRange(items[i], ops, f, nReal, maxBytes, maxChunks, c);
      RewriteDenotes(items[i], ops, f, nReal, maxBytes, maxChunks, c);
      if !c.fill && c.offset + f.offset[c.read] > U32_MAX { return INVAL, plans'; }
      plans' := plans' + [Rewritten(c, f.index[c.read], f.offset[c.read])];
    }
    return OK, plans';
  }

  lemma PlanInRange(item: Item, ops: seq<ReadOp>, f: Fused, nReal: nat, maxBytes: nat, maxChunks: nat, c: ChunkPlan)
    requires Coalesced(ops, f, nReal, maxBytes, maxChunks) && Denotes(item, ops, c)
    ensures c.read < |ops| == |f.index| == |f.offset|
  {
    hide Covered, WithinCaps;
  }

  // --- dispatch_plan_build -----------------------------------------------------------------------------

  /** Each use has exactly one chunk plan, and each chunk plan denotes its use. */
  ghost predicate Dispatched(items: seq<Item>, list: seq<ReadOp>, plans: seq<ChunkPlan>) {
    && |plans| == |items|
    && (forall k | 0 <= k < |plans| :: plans[k].use < |items| && Denotes(items[plans[k].use], list, plans[k]))
    && (forall a, b | 0 <= a < b < |plans| :: plans[a].use != plans[b].use)
  }

  lemma DenoteOnce(items: seq<Item>, list: seq<ReadOp>, s: seq<ChunkPlan>, t: seq<ChunkPlan>)
    requires AllDenote(items, list, s) && multiset(s) == multiset(t) && |s| == |t|
    ensures Dispatched(items, list, t)
  {
    hide Denotes;
    forall k | 0 <= k < |t| ensures t[k].use < |items| && t[k] == s[t[k].use] {
      assert t[k] in multiset(t);
      assert t[k] in s;
    }
    assert Distinct(s);
    forall a, b | 0 <= a < b < |t| ensures t[a].use != t[b].use {
      if t[a].use == t[b].use {
        assert t[a] == t[b];
        DistinctCount(s, t[a]);
        CountTwice(t, a, b);
        assert false;
      }
    }
  }

  ghost predicate UniformGroup(plans: seq<ChunkPlan>, g: Group) {
    && g.count > 0 && g.first + g.count <= |plans|
    && forall i | g.first <= i < g.first + g.count ::
         plans[i].read == g.read && plans[i].fill == plans[g.first].fill
  }

  /** No group mixes placeholders with stored chunks. */
  lemma GroupsUniform(items: seq<Item>, list: seq<ReadOp>, s: seq<ChunkPlan>, n: nat, groups: seq<Group>,
                      plans: seq<ChunkPlan>, k: nat)
    requires GroupTable(s, n, groups, plans) && k < |groups| && Dispatched(items, list, plans)
    ensures UniformGroup(plans, groups[k])
  {
    hide Grouped, First, OfRead;
    var g := groups[k];
    assert GroupSpan(s, g, plans) && GroupOk(s, n, g);
    var chunks := OfRead(s, g.read);
    forall i | g.first <= i < g.first + g.count
      ensures plans[i].read == g.read && (plans[i].fill <==> !Real(list[g.read]))
    {
      assert plans[i] == plans[g.first..g.first + g.count][i - g.first] == chunks[i - g.first];
      OfReadMembers(s, g.read, plans[i]);
      assert Denotes(items[plans[i].use], list, plans[i]);
    }
  }

  /** How the reads of a batch come about: the windows of its uses, the read each one was merged into and where, and
      the merged reads by file and offset with the order in which they are emitted. */
  datatype Merge = Merge(built: seq<ReadOp>, index: seq<nat>, offset: seq<nat>, nReal: nat,
                         sorted: seq<ReadOp>, order: seq<nat>)

  /** The reads are the smallest aligned windows of the items, merged as far as the caps allow, in turn over files. */
  ghost predicate MergedFrom(items: seq<Item>, alignment: nat, maxBytes: nat, maxChunks: nat, list: seq<ReadOp>,
                             m: Merge)
    requires alignment > 0
  {
    && |m.built| == |items| && (forall i | 0 <= i < |items| :: WindowFor(items[i], alignment, m.built[i]))
    && Coalesced(m.built, Fused(list, m.index, m.offset), m.nReal, maxBytes, maxChunks)
    && EmittedInTurn(list, m.nReal, m.sorted, m.order)
    && MergedGreedily(m.built, Fused(list, m.index, m.offset), m.order, maxBytes, maxChunks)
  }

  /** A merged read starts and ends with windows, so it is aligned as they are. */
  lemma MergedAligned(ops: seq<ReadOp>, f: Fused, nReal: nat, maxBytes: nat, maxChunks: nat, alignment: nat, m: nat)
    requires Coalesced(ops, f, nReal, maxBytes, maxChunks) && alignment > 0 && m < |f.merged|
    requires forall i | 0 <= i < |ops| :: Aligned(ops[i], alignment)
    ensures Aligned(f.merged[m], alignment)
  {
    hide WithinCaps;
    var r := f.merged[m];
    if m < nReal {
      assert HasByte(ops, f.index, m, r.offset) && HasByte(ops, f.index, m, End(r) - 1);
      var a: nat :| a < |ops| && f.index[a] == m && ops[a].offset <= r.offset < End(ops[a]);
      var b: nat :| b < |ops| && f.index[b] == m && ops[b].offset <= End(r) - 1 < End(ops[b]);
      RealIn(ops, f, nReal, maxBytes, maxChunks, a);
      RealIn(ops, f, nReal, maxBytes, maxChunks, b);
      assert ops[a].offset == r.offset && End(ops[b]) == End(r);
      MultiplesDiffer(r.offset, ops[b].offset, ops[b].nbytes, alignment);
    } else {
      assert IsFill(ops, f, |ops|, m);
      var i: nat :| i < |ops| && !Real(ops[i]) && f.index[i] == m;
    }
  }

  lemma RealIn(ops: seq<ReadOp>, f: Fused, nReal: nat, maxBytes: nat, maxChunks: nat, i: nat)
    requires Coalesced(ops, f, nReal, maxBytes, maxChunks) && i < |ops| && f.index[i] < nReal
    ensures Real(ops[i]) && Window(ops[i], f.merged[f.index[i]], f.offset[i])
  {
    hide Covered, WithinCaps;
  }

  /** If an aligned window ends where a read ends that starts aligned, the read's length is aligned. */
  lemma MultiplesDiffer(start: nat, offset: nat, nbytes: nat, a: nat)
    requires a > 0 && start % a == 0 && offset % a == 0 && nbytes % a == 0 && start <= offset + nbytes
    ensures (offset + nbytes - start) % a == 0
  {
    var i, j, k := start / a, offset / a, nbytes / a;
    assert start == i * a && offset == j * a && nbytes == k * a;
    var n := j + k - i;
    assert offset + nbytes - start == n * a;
    MulNonNegative(n, a);
    MultipleMod(n, a);
  }

  lemma MulNonNegative(n: int, a: nat)
    requires a > 0 && n * a >= 0
    ensures n >= 0
  {
  }

  method DispatchPlanBuild(items: seq<Item>, alignment: nat, maxBytes: nat, maxChunks: nat, capacity: nat)
    returns (status: Status, list: seq<ReadOp>, plans: seq<ChunkPlan>, groups: seq<Group>,
             ghost before: seq<ChunkPlan>, ghost merge: Merge)
    requires (forall i | 0 <= i < |items| :: ItemOk(items[i])) && |items| <= U32_MAX
    ensures status == OK <==>
              && alignment > 0 && maxChunks > 0 && |items| <= capacity
              && forall i | 0 <= i < |items| :: items[i].missing || WindowFits(items[i], alignment)
    ensures status != OK ==>
              status ==
              if alignment == 0 || maxChunks == 0 then INVAL else if |items| > capacity then BUDGET else DECODE
    ensures status == OK && items != [] ==> MergedFrom(items, alignment, maxBytes, maxChunks, list, merge)
    ensures status == OK ==> forall k | 0 <= k < |list| :: Aligned(list[k], alignment)
    ensures status == OK ==> Dispatched(items, list, plans) && |list| <= |items|
    ensures status == OK && items != [] ==> GroupTable(before, |list|, groups, plans)
    ensures items == [] ==> groups == []
    ensures status == OK ==> forall k | 0 <= k < |groups| :: UniformGroup(plans, groups[k])
    ensures status == OK ==> forall k | 0 <= k < |groups| :: groups[k].count <= maxChunks
  {
    hide ItemOk, WindowFits, Built, Coalesced, Denotes, GroupTable, UniformGroup, MergedFrom;
    list, plans, groups, before, merge := [], [], [], [], Merge([], [], [], 0, [], []);
    if alignment == 0 || maxChunks == 0 { return INVAL, list, plans, groups, before, merge; }
    if |items| > capacity { return BUDGET, list, plans, groups, before, merge; }
    status, list, plans := BuildReads(items, alignment);
    if status != OK { return; }
    if items == [] {
      NothingDispatched(items, alignment, list, plans);
      return;
    }
    status, list, plans, groups, before, merge :=
      CoalesceAndGroup(items, alignment, maxBytes, maxChunks, capacity, list, plans);
  }

  lemma NothingDispatched(items: seq<Item>, alignment: nat, list: seq<ReadOp>, plans: seq<ChunkPlan>)
    requires items == [] && alignment > 0 && Built(items, alignment, list, plans)
    ensures Dispatched(items, list, plans) && |list| <= |items|
  {
  }

  lemma RewrittenReads(items: seq<Item>, list: seq<ReadOp>, plans: seq<ChunkPlan>)
    requires AllDenote(items, list, plans) && items != []
    ensures ReadsBelow(plans, |list|) && |list| > 0
  {
    assert plans[0].read < |list|;
  }

  lemma GroupingDone(items: seq<Item>, list: seq<ReadOp>, before: seq<ChunkPlan>, groups: seq<Group>,
                     plans: seq<ChunkPlan>)
    requires AllDenote(items, list, before) && ReadsBelow(before, |list|) && GroupTable(before, |list|, groups, plans)
    ensures Dispatched(items, list, plans)
    ensures forall k | 0 <= k < |groups| :: UniformGroup(plans, groups[k])
  {
    hide AllDenote, Dispatched, UniformGroup, Grouped;
    GroupedPermutes(before, |list|);
    DenoteOnce(items, list, before, plans);
    forall k | 0 <= k < |groups| ensures UniformGroup(plans, groups[k]) {
      GroupsUniform(items, list, before, |list|, groups, plans, k);
    }
  }

  ghost function WithRead(s: seq<ChunkPlan>, r: nat): set<nat> {
    set i: nat | i < |s| && s[i].read == r
  }

  lemma {:induction false} OfReadSize(s: seq<ChunkPlan>, r: nat)
    ensures |OfRead(s, r)| == |WithRead(s, r)|
    decreases |s|
  {
    if s == [] {
      assert WithRead(s, r) == {};
    } else {
      var n := |s| - 1;
      OfReadSize(s[..n], r);
      assert WithRead(s, r) == WithRead(s[..n], r) + if s[n].read == r then {n} else {};
    }
  }

  lemma FillAlone(ops: seq<ReadOp>, f: Fused, nReal: nat, maxBytes: nat, maxChunks: nat, m: nat)
    requires Coalesced(ops, f, nReal, maxBytes, maxChunks) && nReal <= m < |f.merged|
    ensures |Members(f.index, m)| == 1
  {
    hide Covered, WithinCaps;
    assert IsFill(ops, f, |ops|, m);
    var i: nat :| i < |ops| && !Real(ops[i]) && f.index[i] == m;
    forall j | j in Members(f.index, m) ensures j == i {
      assert !Real(ops[j]);
    }
    assert Members(f.index, m) == {i};
  }

  lemma MembersCapped(ops: seq<ReadOp>, f: Fused, nReal: nat, maxBytes: nat, maxChunks: nat, m: nat)
    requires Coalesced(ops, f, nReal, maxBytes, maxChunks) && m < |f.merged| && maxChunks > 0
    ensures |Members(f.index, m)| <= maxChunks
  {
    hide Covered;
    if m < nReal {
      assert WithinCaps(ops, f.index, m, f.merged[m], maxBytes, maxChunks);
    } else {
      FillAlone(ops, f, nReal, maxBytes, maxChunks, m);
    }
  }

  /** A group never holds more chunks than one wave takes. */
  lemma GroupCap(ops: seq<ReadOp>, f: Fused, nReal: nat, maxBytes: nat, maxChunks: nat,
                 before: seq<ChunkPlan>, groups: seq<Group>, plans: seq<ChunkPlan>, k: nat)
    requires Coalesced(ops, f, nReal, maxBytes, maxChunks) && maxChunks > 0
    requires |before| == |f.index| && forall i | 0 <= i < |before| :: before[i].read == f.index[i]
    requires GroupTable(before, |f.merged|, groups, plans) && k < |groups|
    ensures groups[k].count <= maxChunks
  {
    hide Coalesced, Grouped, First, OfRead;
    var r := groups[k].read;
    assert GroupOk(before, |f.merged|, groups[k]);
    OfReadSize(before, r);
    assert WithRead(before, r) == Members(f.index, r);
    MembersCapped(ops, f, nReal, maxBytes, maxChunks, r);
  }

  method CoalesceAndGroup(items: seq<Item>, alignment: nat, maxBytes: nat, maxChunks: nat, capacity: nat,
                          built: seq<ReadOp>, builtPlans: seq<ChunkPlan>)
    returns (status: Status, list: seq<ReadOp>, plans: seq<ChunkPlan>, groups: seq<Group>,
             ghost before: seq<ChunkPlan>, ghost merge: Merge)
    requires items != [] && |items| <= capacity && |items| <= U32_MAX && alignment > 0 && maxChunks > 0
    requires Built(items, alignment, built, builtPlans)
    ensures status == OK && Dispatched(items, list, plans) && |list| <= |items|
              && GroupTable(before, |list|, groups, plans)
    ensures forall k | 0 <= k < |groups| :: UniformGroup(plans, groups[k])
    ensures forall k | 0 <= k < |groups| :: groups[k].count <= maxChunks
    ensures MergedFrom(items, alignment, maxBytes, maxChunks, list, merge)
    ensures forall k | 0 <= k < |list| :: Aligned(list[k], alignment)
  {
    hide Coalesced, Denotes, GroupTable, UniformGroup, Aligned, EmittedInTurn, MergedGreedily, WindowFor;
    var reads' := new ReadOp[|built|](i requires 0 <= i < |built| => built[i]);
    assert reads'[..|built|] == built;
    var n, index, offset, nReal, sorted, order := CoalesceReads(reads', |built|, maxBytes, maxChunks);
    list := reads'[..n];
    ghost var f := Fused(list, index, offset);
    merge := Merge(built, index, offset, nReal, sorted, order);
    forall k | 0 <= k < |list| ensures Aligned(list[k], alignment) {
      MergedAligned(built, f, nReal, maxBytes, maxChunks, alignment, k);
    }
    var rewritten;
    status, rewritten := RewritePlans(items, built, Fused(list, index, offset), builtPlans, nReal, maxBytes, maxChunks);
    before := rewritten;
    RewrittenReads(items, list, before);
    var a := new ChunkPlan[|rewritten|](i requires 0 <= i < |rewritten| => rewritten[i]);
    assert a[..|before|] == before;
    status, groups := GroupByRead(a, |rewritten|, |list|, capacity);
    plans := a[..|rewritten|];
    GroupingDone(items, list, before, groups, plans);
    PlanInRange(items[0], built, f, nReal, maxBytes, maxChunks, builtPlans[0]);
    forall k | 0 <= k < |groups| ensures groups[k].count <= maxChunks {
      GroupCap(built, f, nReal, maxBytes, maxChunks, before, groups, plans, k);
    }
  }
}
