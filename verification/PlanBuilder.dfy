/** Building the plan of one batch: which chunks it needs, where their bytes are,
    and which sample regions use each of them. */
module PlanBuilder {
  import opened Statuses
  import opened Odometer
  import opened Selection
  import opened SelectionGrids
  import opened PlanWalk
  import opened ChunkTables
  import opened Tensor
  import opened Seqs
  import opened Arith

  /** The parts of an array's metadata that planning reads. `castable` tells whether
      its element type converts to the batch element type. */
  datatype ZarrMeta = ZarrMeta(shape: seq<nat>, chunk: seq<nat>, shard: seq<nat>, elementBytes: nat, castable: bool)

  datatype MetaState = MetaPending | MetaError(code: Status) | MetaReady(meta: ZarrMeta)

  datatype ShardEntry = ShardEntry(offset: nat, nbytes: nat)

  datatype ShardState = ShardPending | ShardError(code: Status) | ShardReady(entries: seq<ShardEntry>)

  /** What the metadata caches answer for the handles of the batch. */
  datatype Catalog = Catalog(meta: string -> MetaState, shard: (string, seq<nat>) -> ShardState)

  datatype PlannerSample = PlannerSample(uri: string, axes: seq<QueryAxis>, nShards: nat)

  datatype Limits = Limits(maxChunks: nat, maxChunkBytes: nat, maxShards: nat)

  datatype Region = Region(source: nat, sample: nat, axes: seq<QueryAxis>)

  datatype Plan = Plan(
    uris: seq<string>,
    metas: seq<ZarrMeta>,
    regions: seq<Region>,
    chunks: seq<PlanChunk>,
    uses: seq<PlanUse>)

  /** Metadata as the parser produces it: all shapes have the array's rank. */
  ghost predicate MetaRanks(meta: ZarrMeta) {
    |meta.shape| == |meta.chunk| == |meta.shard|
  }

  ghost predicate CatalogOk(catalog: Catalog) {
    forall uri :: catalog.meta(uri).MetaReady? ==> MetaRanks(catalog.meta(uri).meta)
  }

  ghost predicate SampleSorted(sample: PlannerSample) {
    forall d | 0 <= d < |sample.axes| :: AxisSorted(sample.axes[d])
  }

  // --- sample_geometry -------------------------------------------------------------------

  /** Multiplying `size` by the extents one after another never exceeds `max`. */
  ghost predicate ProductFits(size: nat, extents: seq<nat>, max: nat)
    decreases |extents|
  {
    extents == [] || (size * extents[0] <= max && ProductFits(size * extents[0], extents[1..], max))
  }

  /** The sample fits the array and the batch. */
  ghost predicate Fits(sample: PlannerSample, meta: ZarrMeta, outShape: seq<nat>) {
    && |sample.axes| == |meta.shape| == |outShape| && MetaRanks(meta)
    && meta.castable
    && forall d | 0 <= d < |meta.shape| :: AxisFits(sample.axes[d], meta.shape[d], meta.chunk[d], outShape[d])
  }

  ghost predicate AxisFits(axis: QueryAxis, length: nat, chunk: nat, extent: nat) {
    && axis.beg < axis.end <= length && chunk > 0
    && extent == if axis.entries != [] then |axis.entries| else axis.end - axis.beg
  }

  /** Axis d does not fit, and neither the axes before it nor their chunk extents are the reason to stop. */
  ghost predicate BadExtent(sample: PlannerSample, meta: ZarrMeta, outShape: seq<nat>, limits: Limits, d: nat)
    requires |sample.axes| == |meta.shape| == |outShape| && MetaRanks(meta)
  {
    && d < |meta.shape| && !AxisFits(sample.axes[d], meta.shape[d], meta.chunk[d], outShape[d])
    && (forall k | 0 <= k < d :: AxisFits(sample.axes[k], meta.shape[k], meta.chunk[k], outShape[k]))
    && ProductFits(meta.elementBytes, meta.chunk[..d], limits.maxChunkBytes)
  }

  /** Why a sample is not accepted: rank, element type, an axis that does not fit, or a limit. */
  ghost predicate GeometryFault(sample: PlannerSample, meta: ZarrMeta, outShape: seq<nat>, limits: Limits,
                                status: Status)
    requires MetaRanks(meta)
  {
    if !(|sample.axes| == |meta.shape| == |outShape|) then status == RANK
    else if !meta.castable then status == DTYPE
    else if exists d: nat :: BadExtent(sample, meta, outShape, limits, d) then status == INVAL
    else status == BUDGET
  }

  lemma {:induction false} ProductFitsPrefix(size: nat, a: seq<nat>, b: seq<nat>, max: nat)
    requires ProductFits(size, a + b, max)
    ensures ProductFits(size, a, max)
    decreases |a|
  {
    if a != [] {
      assert (a + b)[1..] == a[1..] + b;
      ProductFitsPrefix(size * a[0], a[1..], b, max);
    }
  }

  /** After the extents in `a` the running size is their product times `size`. */
  lemma {:induction false} ProductFitsLast(size: nat, a: seq<nat>, x: nat, max: nat)
    ensures ProductFits(size, a + [x], max) <==> ProductFits(size, a, max) && size * LengthProduct(a) * x <= max
    decreases |a|
  {
    if a == [] {
      assert a + [x] == [x] && [x][1..] == [];
    } else {
      assert (a + [x])[1..] == a[1..] + [x];
      ProductFitsLast(size * a[0], a[1..], x, max);
      assert size * (a[0] * LengthProduct(a[1..])) == (size * a[0]) * LengthProduct(a[1..]);
    }
  }

  ghost function ChunkCount(axes: seq<QueryAxis>, chunk: seq<nat>): nat
    requires DimsOk(axes, chunk)
  {
    |Product(TouchedLists(axes, chunk, None))|
  }

  method SampleGeometry(sample: PlannerSample, meta: ZarrMeta, outShape: seq<nat>, limits: Limits)
    returns (status: Status, count: nat)
    requires MetaRanks(meta) && SampleSorted(sample)
    requires 0 < |outShape| <= MAX_RANK
    ensures status == OK <==>
              && Fits(sample, meta, outShape)
              && ProductFits(meta.elementBytes, meta.chunk, limits.maxChunkBytes)
              && WithinBudget(sample.axes, meta.chunk, None, limits.maxChunks)
    ensures status == OK ==> count == ChunkCount(sample.axes, meta.chunk)
    ensures status != OK ==> GeometryFault(sample, meta, outShape, limits, status)
  {
    count := 0;
    if |sample.axes| != |meta.shape| || |meta.shape| != |outShape| { return RANK, count; }
    if !meta.castable { return DTYPE, count; }
    status := CheckExtents(sample, meta, outShape, limits);
    if status != OK { return; }
    FitsDims(sample, meta, outShape);
    var grid := new SelectionGrid();
    status := grid.Init(sample.axes, meta.chunk, None, limits.maxChunks);
    return status, grid.count;
  }

  /** Every axis fits, and the decoded chunk stays within the byte limit. */
  method CheckExtents(sample: PlannerSample, meta: ZarrMeta, outShape: seq<nat>, limits: Limits)
    returns (status: Status)
    requires MetaRanks(meta) && |sample.axes| == |meta.shape| == |outShape|
    ensures status == OK <==>
              && (forall d | 0 <= d < |meta.shape| ::
                    AxisFits(sample.axes[d], meta.shape[d], meta.chunk[d], outShape[d]))
              && ProductFits(meta.elementBytes, meta.chunk, limits.maxChunkBytes)
    ensures status == INVAL <==> exists d: nat :: BadExtent(sample, meta, outShape, limits, d)
    ensures status in {OK, INVAL, BUDGET}
  {
    hide ProductFits, AxisFits, LengthProduct;
    var size: nat := meta.elementBytes;
    ghost var max := limits.maxChunkBytes;
    assert meta.chunk[..0] == [];
    FitsNothing(size, max);
    for d := 0 to |meta.shape|
      invariant forall k | 0 <= k < d :: AxisFits(sample.axes[k], meta.shape[k], meta.chunk[k], outShape[k])
      invariant ProductFits(meta.elementBytes, meta.chunk[..d], max)
      invariant size == meta.elementBytes * LengthProduct(meta.chunk[..d])
    {
      var chunk := meta.chunk[d];
      var fits := CheckAxis(sample.axes[d], meta.shape[d], chunk, outShape[d]);
      if !fits {
        assert BadExtent(sample, meta, outShape, limits, d);
        return INVAL;
      }
      DivGalois(size, limits.maxChunkBytes, chunk);
      if size > limits.maxChunkBytes / chunk {
        TooLarge(sample, meta, outShape, limits, d);
        return BUDGET;
      }
      SizeGrows(meta.elementBytes, meta.chunk, d, max);
      size := size * chunk;
    }
    assert meta.chunk[..|meta.shape|] == meta.chunk;
    return OK;
  }

  method CheckAxis(axis: QueryAxis, length: nat, chunk: nat, extent: nat) returns (fits: bool)
    ensures fits <==> AxisFits(axis, length, chunk, extent)
    ensures fits ==> chunk > 0
  {
    if axis.end <= axis.beg || axis.end > length || chunk == 0 { return false; }
    return extent == if axis.entries != [] then |axis.entries| else axis.end - axis.beg;
  }

  lemma SizeGrows(size: nat, chunks: seq<nat>, d: nat, max: nat)
    requires d < |chunks| && ProductFits(size, chunks[..d], max)
    requires size * LengthProduct(chunks[..d]) * chunks[d] <= max
    ensures ProductFits(size, chunks[..d + 1], max)
    ensures size * LengthProduct(chunks[..d + 1]) == size * LengthProduct(chunks[..d]) * chunks[d]
  {
    hide ProductFits;
    ProductFitsLast(size, chunks[..d], chunks[d], max);
    LengthProductSnoc(chunks[..d], chunks[d]);
    assert chunks[..d + 1] == chunks[..d] + [chunks[d]];
    assert size * (LengthProduct(chunks[..d]) * chunks[d]) == size * LengthProduct(chunks[..d]) * chunks[d];
  }

  lemma FitsNothing(size: nat, max: nat)
    ensures ProductFits(size, [], max) && size * LengthProduct([]) == size
  {
  }

  /** Chunk extents up to d already exceed the byte limit. */
  lemma TooLarge(sample: PlannerSample, meta: ZarrMeta, outShape: seq<nat>, limits: Limits, d: nat)
    requires |sample.axes| == |meta.shape| == |outShape| && MetaRanks(meta) && d < |meta.shape|
    requires forall k | 0 <= k <= d :: AxisFits(sample.axes[k], meta.shape[k], meta.chunk[k], outShape[k])
    requires meta.elementBytes * LengthProduct(meta.chunk[..d]) * meta.chunk[d] > limits.maxChunkBytes
    ensures !ProductFits(meta.elementBytes, meta.chunk, limits.maxChunkBytes)
    ensures !exists k: nat :: BadExtent(sample, meta, outShape, limits, k)
  {
    forall k: nat | d < k <= |meta.chunk|
      ensures !ProductFits(meta.elementBytes, meta.chunk[..k], limits.maxChunkBytes)
    {
      var upto := meta.chunk[..d + 1];
      assert upto == meta.chunk[..d] + [meta.chunk[d]] && meta.chunk[..k] == upto + meta.chunk[d + 1..k];
      ProductFitsLast(meta.elementBytes, meta.chunk[..d], meta.chunk[d], limits.maxChunkBytes);
      if ProductFits(meta.elementBytes, meta.chunk[..k], limits.maxChunkBytes) {
        ProductFitsPrefix(meta.elementBytes, upto, meta.chunk[d + 1..k], limits.maxChunkBytes);
      }
    }
    assert meta.chunk[..|meta.chunk|] == meta.chunk;
  }

  // --- zarr_metadata_inner_per_shard --------------------------------------------------------

  /** Chunks per shard on each axis. */
  ghost function PerOf(meta: ZarrMeta): (per: seq<nat>)
    requires MetaRanks(meta)
    ensures |per| == |meta.chunk|
  {
    seq(|meta.chunk|, d requires 0 <= d < |meta.chunk| => if meta.chunk[d] == 0 then 0
        else meta.shard[d] / meta.chunk[d])
  }

  /** Chunks divide shards evenly, and no shard has more chunks than fit in 64 bits. */
  ghost predicate ShardsDivide(meta: ZarrMeta)
    requires MetaRanks(meta)
  {
    && (forall d | 0 <= d < |meta.chunk| :: meta.chunk[d] > 0 && meta.shard[d] % meta.chunk[d] == 0)
    && ProductFits(1, PerOf(meta), U64_MAX)
  }

  method InnerPerShard(meta: ZarrMeta) returns (ok: bool, per: seq<nat>)
    requires MetaRanks(meta)
    ensures ok <==> ShardsDivide(meta)
    ensures ok ==> per == PerOf(meta) && forall d | 0 <= d < |per| ::
              meta.chunk[d] > 0 && meta.shard[d] == meta.chunk[d] * per[d]
  {
    per := [];
    var total: nat := 1;
    ghost var all := PerOf(meta);
    for d := 0 to |meta.shape|
      invariant per == all[..d]
      invariant forall k | 0 <= k < d :: meta.chunk[k] > 0 && meta.shard[k] % meta.chunk[k] == 0
      invariant forall k | 0 <= k < d :: meta.shard[k] == meta.chunk[k] * per[k]
      invariant ProductFits(1, all, U64_MAX) <==> ProductFits(total, all[d..], U64_MAX)
    {
      assert all[d..][1..] == all[d + 1..];
      if meta.chunk[d] == 0 || meta.shard[d] % meta.chunk[d] != 0 { return false, per; }
      var p: nat := meta.shard[d] / meta.chunk[d];
      DivBounds(meta.shard[d], meta.chunk[d]);
      if p != 0 { DivGalois(total, U64_MAX, p); }
      if p != 0 && total > U64_MAX / p { return false, per; }
      total := total * p;
      per := per + [p];
    }
    assert all[|meta.shape|..] == [];
    return true, per;
  }

  // --- Shard entries ---------------------------------------------------------------------

  const EMPTY: nat := U64_MAX

  /** The index has a usable entry: absent, or a non-empty byte range. */
  ghost predicate EntryOk(entries: seq<ShardEntry>, index: nat) {
    && index < |entries|
    && (entries[index] == ShardEntry(EMPTY, EMPTY)
        || (0 < entries[index].nbytes <= U32_MAX && entries[index].offset + entries[index].nbytes <= U64_MAX))
  }

  ghost predicate EntryIs(entries: seq<ShardEntry>, index: nat, uri: string, shard: seq<nat>, location: Location) {
    && index < |entries|
    && if entries[index] == ShardEntry(EMPTY, EMPTY) then location == Missing
       else
         && location == Stored(uri, shard, entries[index].offset, entries[index].nbytes)
         && 0 < entries[index].nbytes <= U32_MAX
         && entries[index].offset + entries[index].nbytes <= U64_MAX
  }

  method EntryLocation(entries: seq<ShardEntry>, index: nat, uri: string, shard: seq<nat>)
    returns (status: Status, location: Location)
    ensures status == OK <==> EntryOk(entries, index)
    ensures status == OK ==> EntryIs(entries, index, uri, shard, location)
    ensures status == OK || status == DECODE
  {
    location := Missing;
    if index >= |entries| { return DECODE, location; }
    var entry := entries[index];
    var emptyOffset, emptySize := entry.offset == EMPTY, entry.nbytes == EMPTY;
    if emptyOffset != emptySize
       || (!emptySize && (entry.nbytes == 0 || entry.nbytes > U32_MAX || entry.offset + entry.nbytes > U64_MAX)) {
      return DECODE, location;
    }
    if !emptySize { location := Stored(uri, shard, entry.offset, entry.nbytes); }
    return OK, location;
  }

  /** Position of a chunk inside its shard. */
  function Inner(c: seq<nat>, per: seq<nat>): (r: seq<nat>)
    requires |c| == |per| && forall d | 0 <= d < |per| :: per[d] > 0
    ensures |r| == |c|
  {
    seq(|c|, d requires 0 <= d < |c| => c[d] % per[d])
  }

  /** Chunk `c` is at position `i` inside shard `s`. */
  ghost predicate InShard(c: seq<nat>, per: seq<nat>, s: seq<nat>, i: seq<nat>) {
    |s| == |i| == |c| == |per| && forall d | 0 <= d < |c| :: i[d] < per[d] && c[d] == s[d] * per[d] + i[d]
  }

  /** A chunk has exactly one shard and one position inside it. */
  lemma ShardPlace(c: seq<nat>, per: seq<nat>, s: seq<nat>, i: seq<nat>)
    requires |c| == |per| && forall d | 0 <= d < |per| :: per[d] > 0
    ensures InShard(c, per, s, i) <==> s == CellOf(c, per) && i == Inner(c, per)
  {
    var cell, inner := CellOf(c, per), Inner(c, per);
    forall d | 0 <= d < |c| ensures inner[d] < per[d] && c[d] == cell[d] * per[d] + inner[d] {
      DivBounds(c[d], per[d]);
    }
    if InShard(c, per, s, i) {
      forall d | 0 <= d < |c| ensures s[d] == cell[d] && i[d] == inner[d] {
        DivUnique(c[d], per[d], s[d]);
      }
    }
  }

  /** `location` is where the catalog keeps chunk `c`: the entry at its row-major
      position inside the shard that contains it. */
  ghost predicate LocationIs(catalog: Catalog, uri: string, per: seq<nat>, c: seq<nat>, location: Location)
    requires |c| == |per| && forall d | 0 <= d < |per| :: per[d] > 0
  {
    var s := CellOf(c, per);
    match catalog.shard(uri, s)
    case ShardPending => false
    case ShardError(code) => code == NOTFOUND && location == Missing
    case ShardReady(entries) => EntryIs(entries, Ravel(per, Inner(c, per)), uri, s, location)
  }

  ghost predicate ShardUsable(state: ShardState) {
    state.ShardReady? || state == ShardError(NOTFOUND)
  }

  /** The catalog knows where chunk `c` is, or that there is no such chunk. */
  ghost predicate Locatable(catalog: Catalog, uri: string, per: seq<nat>, c: seq<nat>)
    requires |c| == |per| && forall d | 0 <= d < |per| :: per[d] > 0
  {
    var state := catalog.shard(uri, CellOf(c, per));
    ShardUsable(state) && (state.ShardReady? ==> EntryOk(state.entries, Ravel(per, Inner(c, per))))
  }

  // --- What the plan's uses are --------------------------------------------------------------

  datatype UseKey = UseKey(region: nat, source: nat, coordinate: seq<nat>)

  ghost predicate UsesInRange(chunks: seq<PlanChunk>, uses: seq<PlanUse>) {
    forall u | 0 <= u < |uses| :: uses[u].chunk < |chunks|
  }

  ghost function Pairs(chunks: seq<PlanChunk>, uses: seq<PlanUse>): (r: seq<UseKey>)
    requires UsesInRange(chunks, uses)
    ensures |r| == |uses|
  {
    seq(|uses|, u requires 0 <= u < |uses| =>
      UseKey(uses[u].region, chunks[uses[u].chunk].source, chunks[uses[u].chunk].coordinate))
  }

  ghost function Tagged(region: nat, source: nat, cs: seq<seq<nat>>): (r: seq<UseKey>)
    ensures |r| == |cs|
  {
    seq(|cs|, i requires 0 <= i < |cs| => UseKey(region, source, cs[i]))
  }

  lemma TaggedAppend(region: nat, source: nat, a: seq<seq<nat>>, b: seq<seq<nat>>)
    ensures Tagged(region, source, a + b) == Tagged(region, source, a) + Tagged(region, source, b)
  {
  }

  ghost predicate PerPositive(per: seq<nat>) {
    forall d | 0 <= d < |per| :: per[d] > 0
  }

  ghost predicate MetaTiles(meta: ZarrMeta) {
    MetaRanks(meta) && Tiles(meta.chunk, meta.shard, PerOf(meta))
  }

  lemma PerIsPerOf(meta: ZarrMeta, per: seq<nat>)
    requires MetaRanks(meta) && Tiles(meta.chunk, meta.shard, per)
    ensures per == PerOf(meta)
  {
    forall d | 0 <= d < |per| ensures per[d] == PerOf(meta)[d] {
      assert per[d] * meta.chunk[d] == meta.chunk[d] * per[d];
      MulDiv(per[d], meta.chunk[d]);
    }
  }

  /** A chunk of array `source` is located where the catalog keeps it. */
  ghost predicate Located(catalog: Catalog, uris: seq<string>, metas: seq<ZarrMeta>,
                          source: nat, coordinate: seq<nat>, location: Location)
  {
    && source < |metas| == |uris|
    && MetaTiles(metas[source])
    && |coordinate| == |metas[source].chunk|
    && LocationIs(catalog, uris[source], PerOf(metas[source]), coordinate, location)
  }

  ghost predicate AllLocated(catalog: Catalog, uris: seq<string>, metas: seq<ZarrMeta>, chunks: seq<PlanChunk>) {
    forall k | 0 <= k < |chunks| ::
      Located(catalog, uris, metas, chunks[k].source, chunks[k].coordinate, chunks[k].location)
  }

  lemma AddedUse(catalog: Catalog, uris: seq<string>, metas: seq<ZarrMeta>,
                 chunks: seq<PlanChunk>, uses: seq<PlanUse>, chunks': seq<PlanChunk>, uses': seq<PlanUse>,
                 source: nat, coordinate: seq<nat>, location: Location, region: nat)
    requires UseAdded(chunks, uses, chunks', uses', source, coordinate, location, region)
    requires UsesInRange(chunks, uses)
    requires AllLocated(catalog, uris, metas, chunks) && Located(catalog, uris, metas, source, coordinate, location)
    ensures UsesInRange(chunks', uses')
    ensures AllLocated(catalog, uris, metas, chunks')
    ensures Pairs(chunks', uses') == Pairs(chunks, uses) + [UseKey(region, source, coordinate)]
  {
    forall k | 0 <= k < |chunks'|
      ensures Located(catalog, uris, metas, chunks'[k].source, chunks'[k].coordinate, chunks'[k].location)
    {
      if k < |chunks| { assert SameChunk(chunks'[k], chunks[k]); }
    }
    forall u | 0 <= u < |uses| ensures Pairs(chunks', uses')[u] == Pairs(chunks, uses)[u] {
      assert SameChunk(chunks'[uses[u].chunk], chunks[uses[u].chunk]);
    }
  }

  /** The loop state kept while uses are added to the table. */
  ghost predicate TableFor(t: ChunkTable, catalog: Catalog, uris: seq<string>, metas: seq<ZarrMeta>, capacity: nat)
    reads t, t.table
  {
    && t.Valid() && UsesInRange(t.chunks, t.uses) && AllUsed(t.chunks) && AllLocated(catalog, uris, metas, t.chunks)
    && |t.chunks| <= |t.uses| <= capacity && 2 * capacity <= t.table.Length
  }

  // --- Adding the uses of one chunk, one shard and one sample ---------------------------------

  method AddChunk(t: ChunkTable, ghost catalog: Catalog, ghost uris: seq<string>, ghost metas: seq<ZarrMeta>,
                  ghost capacity: nat, source: nat, coordinate: seq<nat>, location: Location, region: nat)
    requires TableFor(t, catalog, uris, metas, capacity) && |t.uses| < capacity
    requires Located(catalog, uris, metas, source, coordinate, location)
    modifies t, t.table
    ensures TableFor(t, catalog, uris, metas, capacity)
    ensures Pairs(t.chunks, t.uses) == old(Pairs(t.chunks, t.uses)) + [UseKey(region, source, coordinate)]
  {
    ghost var chunks, uses := t.chunks, t.uses;
    t.AddUse(source, coordinate, location, region);
    AddedUse(catalog, uris, metas, chunks, uses, t.chunks, t.uses, source, coordinate, location, region);
  }

  /** What adding uses of array `source` for one sample relies on. */
  ghost predicate SampleInputs(catalog: Catalog, uris: seq<string>, metas: seq<ZarrMeta>, sample: PlannerSample,
                               meta: ZarrMeta, per: seq<nat>, source: nat)
  {
    && source < |metas| == |uris| && uris[source] == sample.uri && metas[source] == meta
    && MetaRanks(meta) && SampleSorted(sample)
    && WalkInputs(sample.axes, meta.chunk, meta.shard, per) && per == PerOf(meta)
  }

  method ChunkLocation(catalog: Catalog, uri: string, state: ShardState, per: seq<nat>, shard: seq<nat>,
                       coordinate: seq<nat>)
    returns (status: Status, location: Location)
    requires |coordinate| == |per| && PerPositive(per)
    requires shard == CellOf(coordinate, per) && state == catalog.shard(uri, shard)
    requires ShardUsable(state)
    ensures status == OK <==> Locatable(catalog, uri, per, coordinate)
    ensures status == OK ==> LocationIs(catalog, uri, per, coordinate, location)
    ensures status == OK || status == DECODE
  {
    if state.ShardError? { return OK, Missing; }
    var index := HornerPosition(per, Inner(coordinate, per));
    status, location := EntryLocation(state.entries, index, uri, shard);
  }

  ghost predicate AllLocatable(catalog: Catalog, uri: string, per: seq<nat>, cs: seq<seq<nat>>) {
    PerPositive(per) && forall i | 0 <= i < |cs| :: |cs[i]| == |per| && Locatable(catalog, uri, per, cs[i])
  }

  /** Locates one chunk of a shard and records its use. */
  method AddCoordinate(t: ChunkTable, catalog: Catalog, ghost uris: seq<string>, ghost metas: seq<ZarrMeta>,
                       ghost capacity: nat, sample: PlannerSample, meta: ZarrMeta, per: seq<nat>, source: nat,
                         region: nat,
                       shard: seq<nat>, state: ShardState, coordinate: seq<nat>) returns (status: Status)
    requires TableFor(t, catalog, uris, metas, capacity) && |t.uses| < capacity
    requires SampleInputs(catalog, uris, metas, sample, meta, per, source)
    requires |shard| == |per| && state == catalog.shard(sample.uri, shard)
    requires ShardUsable(state)
    requires coordinate in ShardPart(sample.axes, meta.chunk, per, shard)
    modifies t, t.table
    ensures TableFor(t, catalog, uris, metas, capacity)
    ensures |coordinate| == |per| && PerPositive(per)
              && (status == OK <==> Locatable(catalog, sample.uri, per, coordinate))
    ensures status == OK || status == DECODE
    ensures status == OK ==>
              Pairs(t.chunks, t.uses) == old(Pairs(t.chunks, t.uses)) + [UseKey(region, source, coordinate)]
  {
    PartMembers(sample.axes, meta.chunk, meta.shard, per, shard, coordinate);
    var location;
    status, location := ChunkLocation(catalog, sample.uri, state, per, shard, coordinate);
    if status == OK {
      AddChunk(t, catalog, uris, metas, capacity, source, coordinate, location, region);
    }
  }

  /** The shard's index is known, or known to be absent, and all its touched chunks have usable entries. */
  ghost predicate ShardPlannable(catalog: Catalog, sample: PlannerSample, meta: ZarrMeta, per: seq<nat>,
                                 shard: seq<nat>)
    requires DimsOk(sample.axes, meta.chunk) && |shard| == |per| == |sample.axes|
  {
    && ShardUsable(catalog.shard(sample.uri, shard))
    && AllLocatable(catalog, sample.uri, per, ShardPart(sample.axes, meta.chunk, per, shard))
  }

  /** Why a shard cannot be planned: its fetch is under way or has failed, or its index is unusable. */
  ghost function ShardFault(state: ShardState): Status {
    match state
    case ShardPending => AGAIN
    case ShardError(code) => if code == OK || code == NOTFOUND then DECODE else code
    case ShardReady(_) => DECODE
  }

  method AddShard(t: ChunkTable, catalog: Catalog, ghost uris: seq<string>, ghost metas: seq<ZarrMeta>,
                  ghost capacity: nat, sample: PlannerSample, meta: ZarrMeta, per: seq<nat>, source: nat, region: nat,
                  shard: seq<nat>, maxChunks: nat) returns (status: Status)
    requires TableFor(t, catalog, uris, metas, capacity)
    requires SampleInputs(catalog, uris, metas, sample, meta, per, source)
    requires |shard| == |per|
    requires |t.uses| + |ShardPart(sample.axes, meta.chunk, per, shard)| <= capacity
    requires 0 < |sample.axes| <= MAX_RANK && WithinBudget(sample.axes, meta.chunk, None, maxChunks)
    modifies t, t.table
    ensures TableFor(t, catalog, uris, metas, capacity)
    ensures status == OK <==> ShardPlannable(catalog, sample, meta, per, shard)
    ensures status == OK || status == ShardFault(catalog.shard(sample.uri, shard))
    ensures status == OK ==>
              Pairs(t.chunks, t.uses) ==
              old(Pairs(t.chunks, t.uses)) + Tagged(region, source, ShardPart(sample.axes, meta.chunk, per, shard))
  {
    var state := catalog.shard(sample.uri, shard);
    match state {
      case ShardPending => return AGAIN;
      case ShardError(code) => if code != NOTFOUND { return if code == OK then DECODE else code; }
      case ShardReady(_) =>
    }
    var grid := new SelectionGrid();
    ClipWithinBudget(sample.axes, meta.chunk, ShardClip(shard, per), maxChunks);
    status := grid.Init(sample.axes, meta.chunk, ShardClip(shard, per), maxChunks);
    if status != OK { return; }
    status := AddGrid(t, catalog, uris, metas, capacity, sample, meta, per, source, region, shard, state, grid);
  }

  /** Records the uses of all chunks the grid still yields. */
  method AddGrid(t: ChunkTable, catalog: Catalog, ghost uris: seq<string>, ghost metas: seq<ZarrMeta>,
                 ghost capacity: nat, sample: PlannerSample, meta: ZarrMeta, per: seq<nat>, source: nat, region: nat,
                 shard: seq<nat>, state: ShardState, grid: SelectionGrid) returns (status: Status)
    requires TableFor(t, catalog, uris, metas, capacity) && grid.Valid()
    requires SampleInputs(catalog, uris, metas, sample, meta, per, source) && PerPositive(per)
    requires |shard| == |per| && state == catalog.shard(sample.uri, shard)
    requires ShardUsable(state)
    requires forall c | c in grid.Remaining() :: c in ShardPart(sample.axes, meta.chunk, per, shard)
    requires |t.uses| + |grid.Remaining()| <= capacity
    modifies t, t.table, grid
    ensures TableFor(t, catalog, uris, metas, capacity)
    ensures status == OK <==> AllLocatable(catalog, sample.uri, per, old(grid.Remaining()))
    ensures status == OK || status == DECODE
    ensures status == OK ==>
              Pairs(t.chunks, t.uses) == old(Pairs(t.chunks, t.uses)) + Tagged(region, source, old(grid.Remaining()))
  {
    hide TableOk, UsesOk, UsesInRange, AllLocated, AllOk, AllShaped, From, CellLists, Positions;
    hide Pairs, SampleInputs, AllUsed, ShardPart;
    hide ChunkTable.Valid, SelectionGrid.Valid, SelectionGrid.Remaining;
    ghost var base, rest := Pairs(t.chunks, t.uses), grid.Remaining();
    ghost var n := 0;
    var more, coordinate := grid.Next();
    while more
      invariant grid.Valid() && TableFor(t, catalog, uris, metas, capacity)
      invariant n <= |rest| && (more <==> n < |rest|)
      invariant more ==> coordinate == rest[n] && grid.Remaining() == rest[n + 1..]
      invariant Pairs(t.chunks, t.uses) == base + Tagged(region, source, rest[..n])
      invariant AllLocatable(catalog, sample.uri, per, rest[..n])
      decreases |rest| - n
    {
      assert coordinate in rest && |Pairs(t.chunks, t.uses)| == |base| + n;
      status := AddCoordinate(t, catalog, uris, metas, capacity, sample, meta, per, source, region, shard, state,
                              coordinate);
      if status != OK { return; }
      assert rest[..n + 1] == rest[..n] + [coordinate];
      n := n + 1;
      more, coordinate := grid.Next();
    }
    assert rest[..n] == rest;
    return OK;
  }

  ghost predicate ShardsPlannable(catalog: Catalog, sample: PlannerSample, meta: ZarrMeta, per: seq<nat>,
                                  shards: seq<seq<nat>>)
    requires DimsOk(sample.axes, meta.chunk) && |per| == |sample.axes| && AllRank(shards, |sample.axes|)
  {
    forall i | 0 <= i < |shards| :: ShardPlannable(catalog, sample, meta, per, shards[i])
  }

  /** Why the shards cannot be planned: the first of them that cannot be, or their number. */
  ghost predicate ShardsFault(catalog: Catalog, sample: PlannerSample, meta: ZarrMeta, per: seq<nat>,
                              shards: seq<seq<nat>>, status: Status)
    requires DimsOk(sample.axes, meta.chunk) && |per| == |sample.axes| && AllRank(shards, |sample.axes|)
  {
    || (exists k: nat :: FirstBadShard(catalog, sample, meta, per, shards, k)
                         && status == ShardFault(catalog.shard(sample.uri, shards[k])))
    || (&& status == INVAL && sample.nShards != |shards|
        && forall i | 0 <= i < |shards| && i < sample.nShards :: ShardPlannable(catalog, sample, meta, per, shards[i]))
  }

  ghost predicate FirstBadShard(catalog: Catalog, sample: PlannerSample, meta: ZarrMeta, per: seq<nat>,
                                shards: seq<seq<nat>>, k: nat)
    requires DimsOk(sample.axes, meta.chunk) && |per| == |sample.axes| && AllRank(shards, |sample.axes|)
  {
    && k < |shards| && k < sample.nShards && !ShardPlannable(catalog, sample, meta, per, shards[k])
    && forall i | 0 <= i < k :: ShardPlannable(catalog, sample, meta, per, shards[i])
  }

  /** The sample's touched shards are within the budget, are as many as were prefetched,
      and can all be planned. */
  ghost predicate SamplePlannable(catalog: Catalog, sample: PlannerSample, meta: ZarrMeta, per: seq<nat>,
                                  maxShards: nat)
    requires DimsOk(sample.axes, meta.chunk) && |per| == |sample.axes|
  {
    && DimsOk(sample.axes, meta.shard) && WithinBudget(sample.axes, meta.shard, None, maxShards)
    && var shards := Product(TouchedLists(sample.axes, meta.shard, None));
       && sample.nShards == |shards| && AllRank(shards, |sample.axes|)
       && ShardsPlannable(catalog, sample, meta, per, shards)
  }

  /** Why a measured sample cannot be planned: its shard grid, or its shards. */
  ghost predicate SampleFault(catalog: Catalog, sample: PlannerSample, meta: ZarrMeta, per: seq<nat>,
                              maxShards: nat, status: Status)
    requires DimsOk(sample.axes, meta.chunk) && |per| == |sample.axes| == |meta.shard|
  {
    if !DimsOk(sample.axes, meta.shard) || !WithinBudget(sample.axes, meta.shard, None, maxShards)
    then GridFault(sample.axes, meta.shard, None, maxShards, status)
    else
      var shards := Product(TouchedLists(sample.axes, meta.shard, None));
      AllRank(shards, |sample.axes|) && ShardsFault(catalog, sample, meta, per, shards, status)
  }

  /** Records the uses of one sample: its touched shards in order, and in each the
      touched chunks in order. The room reserved is the size of the direct chunk
      grid, and it is always enough. */
  method AddSample(t: ChunkTable, catalog: Catalog, ghost uris: seq<string>, ghost metas: seq<ZarrMeta>,
                   ghost capacity: nat, sample: PlannerSample, meta: ZarrMeta, per: seq<nat>, source: nat, region: nat,
                   limits: Limits) returns (status: Status)
    requires TableFor(t, catalog, uris, metas, capacity)
    requires source < |metas| == |uris| && uris[source] == sample.uri && metas[source] == meta
    requires MetaRanks(meta) && SampleSorted(sample) && DimsOk(sample.axes, meta.chunk)
    requires |per| == |meta.chunk| && forall d | 0 <= d < |per| :: meta.shard[d] == meta.chunk[d] * per[d]
    requires |t.uses| + ChunkCount(sample.axes, meta.chunk) <= capacity
    requires 0 < |sample.axes| <= MAX_RANK && WithinBudget(sample.axes, meta.chunk, None, limits.maxChunks)
    modifies t, t.table
    ensures TableFor(t, catalog, uris, metas, capacity)
    ensures status == OK <==> SamplePlannable(catalog, sample, meta, per, limits.maxShards)
    ensures status != OK ==> SampleFault(catalog, sample, meta, per, limits.maxShards, status)
    ensures status == OK ==>
              && SampleInputs(catalog, uris, metas, sample, meta, per, source)
              && Pairs(t.chunks, t.uses) ==
                 old(Pairs(t.chunks, t.uses)) + Tagged(region, source,
                                                       TwoLevel(sample.axes, meta.chunk, meta.shard, per))
              && |t.uses| == |old(t.uses)| + ChunkCount(sample.axes, meta.chunk)
  {
    var grid := new SelectionGrid();
    status := grid.Init(sample.axes, meta.shard, None, limits.maxShards);
    if status != OK { return; }
    InputsTile(sample, meta, per);
    ListsIncreasing(sample.axes, meta.shard, None);
    TwoLevelIsDirect(sample.axes, meta.chunk, meta.shard, per);
    ghost var base := Pairs(t.chunks, t.uses);
    status := AddShards(t, catalog, uris, metas, capacity, sample, meta, per, source, region, limits, grid);
    assert status == OK ==> |Pairs(t.chunks, t.uses)| == |base| + |TwoLevel(sample.axes, meta.chunk, meta.shard, per)|;
  }

  lemma InputsTile(sample: PlannerSample, meta: ZarrMeta, per: seq<nat>)
    requires MetaRanks(meta) && DimsOk(sample.axes, meta.chunk) && DimsOk(sample.axes, meta.shard)
    requires |per| == |meta.chunk| && forall d | 0 <= d < |per| :: meta.shard[d] == meta.chunk[d] * per[d]
    ensures WalkInputs(sample.axes, meta.chunk, meta.shard, per) && per == PerOf(meta) && MetaTiles(meta)
  {
    forall d | 0 <= d < |per| ensures per[d] > 0 && meta.chunk[d] > 0 {
      assert DimOk(sample.axes[d], meta.chunk[d]) && DimOk(sample.axes[d], meta.shard[d]);
    }
    PerIsPerOf(meta, per);
  }

  method AddShards(t: ChunkTable, catalog: Catalog, ghost uris: seq<string>, ghost metas: seq<ZarrMeta>,
                   ghost capacity: nat, sample: PlannerSample, meta: ZarrMeta, per: seq<nat>, source: nat, region: nat,
                   limits: Limits, grid: SelectionGrid) returns (status: Status)
    requires TableFor(t, catalog, uris, metas, capacity) && grid.Valid()
    requires SampleInputs(catalog, uris, metas, sample, meta, per, source)
    requires AllRank(grid.Remaining(), |sample.axes|)
    requires |t.uses| + |Walk(sample.axes, meta.chunk, per, grid.Remaining())| <= capacity
    requires 0 < |sample.axes| <= MAX_RANK && WithinBudget(sample.axes, meta.chunk, None, limits.maxChunks)
    modifies t, t.table, grid
    ensures TableFor(t, catalog, uris, metas, capacity)
    ensures status == OK <==>
              sample.nShards == |old(grid.Remaining())|
                && ShardsPlannable(catalog, sample, meta, per, old(grid.Remaining()))
    ensures status != OK ==> ShardsFault(catalog, sample, meta, per, old(grid.Remaining()), status)
    ensures status == OK ==>
              Pairs(t.chunks, t.uses) ==
              old(Pairs(t.chunks, t.uses)) + Tagged(region, source,
                                                    old(Walk(sample.axes, meta.chunk, per, grid.Remaining())))
  {
    hide TableOk, UsesOk, UsesInRange, AllLocated, AllOk, AllShaped, From, CellLists, Positions, ShardPart;
    hide Pairs, Tagged, DimsOk, Tiles, SampleSorted, AllUsed, Product, ShardPlannable, WithinBudget;
    hide ChunkTable.Valid, SelectionGrid.Valid, SelectionGrid.Remaining;
    ghost var base, shards := Pairs(t.chunks, t.uses), grid.Remaining();
    assert Walk(sample.axes, meta.chunk, per, shards[..0]) == [];
    var index := 0;
    var more, shard := grid.Next();
    while more
      invariant grid.Valid() && TableFor(t, catalog, uris, metas, capacity)
      invariant index <= |shards| && (more <==> index < |shards|)
      invariant more ==> shard == shards[index] && grid.Remaining() == shards[index + 1..]
      invariant Pairs(t.chunks, t.uses) ==
                base + Tagged(region, source, Walk(sample.axes, meta.chunk, per, shards[..index]))
      invariant index <= sample.nShards
      invariant forall i | 0 <= i < index :: ShardPlannable(catalog, sample, meta, per, shards[i])
      decreases |shards| - index
    {
      if index >= sample.nShards { return INVAL; }
      WalkSplit(sample.axes, meta.chunk, per, shards, index);
      ghost var walked := Walk(sample.axes, meta.chunk, per, shards[..index]);
      TaggedAppend(region, source, walked, ShardPart(sample.axes, meta.chunk, per, shard));
      assert |Pairs(t.chunks, t.uses)| == |base| + |walked|;
      status := AddShard(t, catalog, uris, metas, capacity, sample, meta, per, source, region, shard, limits.maxChunks);
      if status != OK {
        assert FirstBadShard(catalog, sample, meta, per, shards, index);
        return;
      }
      index := index + 1;
      more, shard := grid.Next();
    }
    assert shards[..index] == shards;
    if index != sample.nShards { return INVAL; }
    return OK;
  }

  // --- prepared_plan_build ----------------------------------------------------------------------

  /** The sample's metadata is known and admits it to the batch. */
  ghost predicate Admitted(catalog: Catalog, sample: PlannerSample, outShape: seq<nat>) {
    catalog.meta(sample.uri).MetaReady? && Fits(sample, catalog.meta(sample.uri).meta, outShape)
  }

  /** The first pass accepts the sample. */
  ghost predicate Measured(catalog: Catalog, sample: PlannerSample, outShape: seq<nat>, limits: Limits) {
    && sample.nShards <= limits.maxShards && Admitted(catalog, sample, outShape)
    && var meta := catalog.meta(sample.uri).meta;
       && ProductFits(meta.elementBytes, meta.chunk, limits.maxChunkBytes)
       && WithinBudget(sample.axes, meta.chunk, None, limits.maxChunks)
  }

  ghost predicate AllMeasured(catalog: Catalog, samples: seq<PlannerSample>, outShape: seq<nat>, limits: Limits)
    ensures AllMeasured(catalog, samples, outShape, limits) ==> AllAdmitted(catalog, samples, outShape)
  {
    forall i | 0 <= i < |samples| :: Measured(catalog, samples[i], outShape, limits)
  }

  /** The second pass accepts the sample. */
  ghost predicate Buildable(catalog: Catalog, sample: PlannerSample, maxShards: nat) {
    && catalog.meta(sample.uri).MetaReady?
    && var meta := catalog.meta(sample.uri).meta;
       && MetaRanks(meta) && DimsOk(sample.axes, meta.chunk) && ShardsDivide(meta)
       && SamplePlannable(catalog, sample, meta, PerOf(meta), maxShards)
  }

  /** Why the second pass does not accept a measured sample. */
  ghost predicate BuildFault(catalog: Catalog, sample: PlannerSample, maxShards: nat, status: Status) {
    && catalog.meta(sample.uri).MetaReady?
    && var meta := catalog.meta(sample.uri).meta;
       && MetaRanks(meta) && DimsOk(sample.axes, meta.chunk)
       && if !ShardsDivide(meta) then status == DECODE
          else SampleFault(catalog, sample, meta, PerOf(meta), maxShards, status)
  }

  /** Why the plan of a batch is not built: its arguments, or the first sample that one of the passes stops at. */
  ghost predicate PlanFault(catalog: Catalog, samples: seq<PlannerSample>, outShape: seq<nat>, limits: Limits,
                            status: Status)
    requires CatalogOk(catalog)
  {
    if samples == [] || limits.maxChunks == 0 || limits.maxChunkBytes == 0 || outShape == [] || |outShape| > MAX_RANK
    then status == INVAL
    else if !AllMeasured(catalog, samples, outShape, limits)
            || UsesNeeded(catalog, samples, outShape) > limits.maxChunks
    then MeasureFault(catalog, samples, outShape, limits, status)
    else exists i: nat :: BuildStops(catalog, samples, limits, status, i)
  }

  ghost predicate BuildStops(catalog: Catalog, samples: seq<PlannerSample>, limits: Limits, status: Status, i: nat) {
    && i < |samples| && (forall k | 0 <= k < i :: Buildable(catalog, samples[k], limits.maxShards))
    && !Buildable(catalog, samples[i], limits.maxShards)
    && BuildFault(catalog, samples[i], limits.maxShards, status)
  }

  /** Everything building the plan of a batch depends on. */
  ghost predicate Plannable(catalog: Catalog, samples: seq<PlannerSample>, outShape: seq<nat>, limits: Limits) {
    && samples != [] && limits.maxChunks > 0 && limits.maxChunkBytes > 0 && 0 < |outShape| <= MAX_RANK
    && AllMeasured(catalog, samples, outShape, limits) && UsesNeeded(catalog, samples, outShape) <= limits.maxChunks
    && forall i | 0 <= i < |samples| :: Buildable(catalog, samples[i], limits.maxShards)
  }

  ghost predicate AllAdmitted(catalog: Catalog, samples: seq<PlannerSample>, outShape: seq<nat>) {
    forall i | 0 <= i < |samples| :: Admitted(catalog, samples[i], outShape)
  }

  lemma FitsDims(sample: PlannerSample, meta: ZarrMeta, outShape: seq<nat>)
    requires Fits(sample, meta, outShape)
    ensures DimsOk(sample.axes, meta.chunk)
  {
    forall d | 0 <= d < |sample.axes| ensures DimOk(sample.axes[d], meta.chunk[d]) {
      assert AxisFits(sample.axes[d], meta.shape[d], meta.chunk[d], outShape[d]);
    }
  }

  ghost function CountOf(catalog: Catalog, sample: PlannerSample, outShape: seq<nat>): nat
    requires Admitted(catalog, sample, outShape)
  {
    FitsDims(sample, catalog.meta(sample.uri).meta, outShape);
    ChunkCount(sample.axes, catalog.meta(sample.uri).meta.chunk)
  }

  /** The number of uses the first n samples need. */
  ghost function Capacity(catalog: Catalog, samples: seq<PlannerSample>, outShape: seq<nat>, n: nat): nat
    requires n <= |samples| && AllAdmitted(catalog, samples[..n], outShape)
  {
    if n == 0 then 0
    else
      assert Admitted(catalog, samples[..n][n - 1], outShape);
      assert samples[..n - 1] == samples[..n][..n - 1];
      Capacity(catalog, samples, outShape, n - 1) + CountOf(catalog, samples[n - 1], outShape)
  }

  /** The number of uses the batch needs. */
  ghost function UsesNeeded(catalog: Catalog, samples: seq<PlannerSample>, outShape: seq<nat>): nat
    requires AllAdmitted(catalog, samples, outShape)
  {
    assert samples[..|samples|] == samples;
    Capacity(catalog, samples, outShape, |samples|)
  }

  ghost predicate Walkable(catalog: Catalog, sample: PlannerSample) {
    && catalog.meta(sample.uri).MetaReady?
    && var meta := catalog.meta(sample.uri).meta;
       MetaTiles(meta) && SampleSorted(sample) && WalkInputs(sample.axes, meta.chunk, meta.shard, PerOf(meta))
  }

  /** The chunks of a sample in the order they are planned. */
  ghost function SampleChunks(catalog: Catalog, sample: PlannerSample): seq<seq<nat>>
    requires Walkable(catalog, sample)
  {
    var meta := catalog.meta(sample.uri).meta;
    TwoLevel(sample.axes, meta.chunk, meta.shard, PerOf(meta))
  }

  /** The uses of the first n samples, in order. */
  ghost function PlannedUses(catalog: Catalog, samples: seq<PlannerSample>, regions: seq<Region>, n: nat): seq<UseKey>
    requires n <= |samples| && n <= |regions| && forall i | 0 <= i < n :: Walkable(catalog, samples[i])
  {
    if n == 0 then []
    else
      assert Walkable(catalog, samples[n - 1]);
      PlannedUses(catalog, samples, regions, n - 1)
      + Tagged(n - 1, regions[n - 1].source, SampleChunks(catalog, samples[n - 1]))
  }

  lemma {:induction false} PlannedUsesPrefix(catalog: Catalog, samples: seq<PlannerSample>, regions: seq<Region>,
                                             more: seq<Region>, n: nat)
    requires n <= |samples| && n <= |regions| && forall i | 0 <= i < n :: Walkable(catalog, samples[i])
    ensures PlannedUses(catalog, samples, regions + more, n) == PlannedUses(catalog, samples, regions, n)
    decreases n
  {
    if n > 0 { PlannedUsesPrefix(catalog, samples, regions, more, n - 1); }
  }

  ghost predicate ArraysOk(catalog: Catalog, uris: seq<string>, metas: seq<ZarrMeta>) {
    && |uris| == |metas| && Distinct(uris)
    && forall a | 0 <= a < |uris| :: catalog.meta(uris[a]) == MetaReady(metas[a])
  }

  ghost predicate RegionsOk(samples: seq<PlannerSample>, uris: seq<string>, regions: seq<Region>) {
    && |regions| <= |samples|
    && forall i | 0 <= i < |regions| ::
         && regions[i] == Region(regions[i].source, i, samples[i].axes)
         && regions[i].source < |uris| && uris[regions[i].source] == samples[i].uri
  }

  /** The plan describes the batch: one region per sample, one use per touched chunk
      of each sample, one chunk per distinct key, each where the catalog keeps it. */
  ghost predicate PlanFor(catalog: Catalog, samples: seq<PlannerSample>, outShape: seq<nat>, plan: Plan) {
    && ArraysOk(catalog, plan.uris, plan.metas)
    && |plan.regions| == |samples| && RegionsOk(samples, plan.uris, plan.regions)
    && AllAdmitted(catalog, samples, outShape)
    && (forall i | 0 <= i < |samples| :: Walkable(catalog, samples[i]))
    && KeysDistinct(plan.chunks) && UsesOk(plan.chunks, plan.uses) && UsesInRange(plan.chunks, plan.uses)
    && AllUsed(plan.chunks)
    && AllLocated(catalog, plan.uris, plan.metas, plan.chunks)
    && Pairs(plan.chunks, plan.uses) == PlannedUses(catalog, samples, plan.regions, |samples|)
  }

  method FindArray(uris: seq<string>, uri: string) returns (a: nat)
    ensures a <= |uris| && (a < |uris| ==> uris[a] == uri) && (a == |uris| ==> uri !in uris)
  {
    a := 0;
    while a < |uris| && uris[a] != uri
      invariant a <= |uris| && uri !in uris[..a]
    {
      a := a + 1;
    }
  }

  lemma MoreArrays(catalog: Catalog, samples: seq<PlannerSample>, uris: seq<string>, metas: seq<ZarrMeta>,
                   regions: seq<Region>, chunks: seq<PlanChunk>, uri: string, meta: ZarrMeta)
    requires RegionsOk(samples, uris, regions)
    requires ArraysOk(catalog, uris, metas) && AllLocated(catalog, uris, metas, chunks)
    requires uri !in uris && catalog.meta(uri) == MetaReady(meta)
    ensures ArraysOk(catalog, uris + [uri], metas + [meta]) && AllLocated(catalog, uris + [uri], metas + [meta], chunks)
    ensures RegionsOk(samples, uris + [uri], regions)
  {
    DistinctAppend(uris, [uri]);
    forall k | 0 <= k < |chunks|
      ensures Located(catalog, uris + [uri], metas + [meta], chunks[k].source, chunks[k].coordinate, chunks[k].location)
    {
      assert Located(catalog, uris, metas, chunks[k].source, chunks[k].coordinate, chunks[k].location);
    }
  }

  /** Why the first pass does not accept a sample. */
  ghost predicate SampleRefused(catalog: Catalog, sample: PlannerSample, outShape: seq<nat>, limits: Limits,
                                status: Status)
    requires CatalogOk(catalog)
  {
    if sample.nShards > limits.maxShards then status == INVAL
    else match catalog.meta(sample.uri)
      case MetaPending => status == AGAIN
      case MetaError(code) => status == if code == OK then INVAL else code
      case MetaReady(meta) => !Measured(catalog, sample, outShape, limits)
                              && GeometryFault(sample, meta, outShape, limits, status)
  }

  /** The first pass stops at sample i: it is refused, or its chunks are the first too many. */
  ghost predicate StopsAt(catalog: Catalog, samples: seq<PlannerSample>, outShape: seq<nat>, limits: Limits,
                          status: Status, i: nat)
    requires CatalogOk(catalog)
  {
    && i < |samples| && AllMeasured(catalog, samples[..i], outShape, limits)
    && (i > 0 ==> Capacity(catalog, samples, outShape, i) <= limits.maxChunks)
    && if AllMeasured(catalog, samples[..i + 1], outShape, limits)
       then status == BUDGET && Capacity(catalog, samples, outShape, i + 1) > limits.maxChunks
       else SampleRefused(catalog, samples[i], outShape, limits, status)
  }

  ghost predicate MeasureFault(catalog: Catalog, samples: seq<PlannerSample>, outShape: seq<nat>, limits: Limits,
                               status: Status)
    requires CatalogOk(catalog)
  {
    exists i: nat :: StopsAt(catalog, samples, outShape, limits, status, i)
  }

  /** First pass: check every sample and add up the room its uses need. */
  method MeasureSamples(catalog: Catalog, samples: seq<PlannerSample>, outShape: seq<nat>, limits: Limits)
    returns (status: Status, capacity: nat)
    requires CatalogOk(catalog) && forall i | 0 <= i < |samples| :: SampleSorted(samples[i])
    requires 0 < |outShape| <= MAX_RANK
    ensures status == OK <==>
              AllMeasured(catalog, samples, outShape, limits)
                && UsesNeeded(catalog, samples, outShape) <= limits.maxChunks
    ensures status == OK ==> capacity == UsesNeeded(catalog, samples, outShape)
    ensures status != OK ==> MeasureFault(catalog, samples, outShape, limits, status)
    ensures status == AGAIN ==>
              exists i :: 0 <= i < |samples| && catalog.meta(samples[i].uri) in {MetaPending, MetaError(AGAIN)}
  {
    hide ProductFits, WithinBudget, Product, SampleSorted, Fits, GeometryFault;
    assert samples[..|samples|] == samples;
    capacity := 0;
    for i := 0 to |samples|
      invariant AllMeasured(catalog, samples[..i], outShape, limits)
      invariant capacity == Capacity(catalog, samples, outShape, i) && (i > 0 ==> capacity <= limits.maxChunks)
    {
      if samples[i].nShards > limits.maxShards {
        assert StopsAt(catalog, samples, outShape, limits, INVAL, i);
        return INVAL, capacity;
      }
      var state := catalog.meta(samples[i].uri);
      match state {
        case MetaPending =>
          assert StopsAt(catalog, samples, outShape, limits, AGAIN, i);
          return AGAIN, capacity;
        case MetaError(code) =>
          status := if code == OK then INVAL else code;
          assert StopsAt(catalog, samples, outShape, limits, status, i);
          return status, capacity;
        case MetaReady(meta) =>
          var count;
          status, count := SampleGeometry(samples[i], meta, outShape, limits);
          if status != OK {
            assert StopsAt(catalog, samples, outShape, limits, status, i);
            return;
          }
          assert samples[..i + 1][..i] == samples[..i];
          assert AllMeasured(catalog, samples[..i + 1], outShape, limits);
          capacity := capacity + count;
          if capacity > limits.maxChunks {
            OverCapacity(catalog, samples, outShape, i + 1, limits.maxChunks);
            assert StopsAt(catalog, samples, outShape, limits, BUDGET, i);
            return BUDGET, capacity;
          }
      }
    }
    return OK, capacity;
  }

  /** Second pass: walk every sample's shards and chunks and record the uses. On
      success the uses fill the measured capacity exactly. */
  method PreparedPlanBuild(hash: (nat, seq<nat>) -> nat, catalog: Catalog, samples: seq<PlannerSample>,
                           outShape: seq<nat>, limits: Limits)
    returns (status: Status, plan: Plan)
    requires CatalogOk(catalog) && forall i | 0 <= i < |samples| :: SampleSorted(samples[i])
    ensures status == OK <==> Plannable(catalog, samples, outShape, limits)
    ensures status == OK ==> PlanFor(catalog, samples, outShape, plan)
    ensures status == OK ==> |plan.uses| == UsesNeeded(catalog, samples, outShape)
    ensures status != OK ==> PlanFault(catalog, samples, outShape, limits, status)
  {
    hide Buildable, SampleSorted, BuildFault, MeasureFault, BuildInv, PlanFor, AllMeasured;
    plan := Plan([], [], [], [], []);
    if |samples| == 0 || limits.maxChunks == 0 || limits.maxChunkBytes == 0 || |outShape| == 0
        || |outShape| > MAX_RANK {
      return INVAL, plan;
    }
    var capacity;
    status, capacity := MeasureSamples(catalog, samples, outShape, limits);
    if status != OK { return; }
    var t := new ChunkTable(hash, capacity);
    var uris: seq<string>, metas: seq<ZarrMeta>, regions: seq<Region> := [], [], [];
    NothingBuilt(catalog, samples, outShape);
    for i := 0 to |samples|
      invariant fresh(t) && fresh(t.table) && TableFor(t, catalog, uris, metas, capacity)
      invariant BuildInv(catalog, samples, outShape, uris, metas, regions, t.chunks, t.uses, i)
      invariant forall k | 0 <= k < i :: Buildable(catalog, samples[k], limits.maxShards)
    {
      status, uris, metas, regions :=
        BuildSample(t, catalog, samples, outShape, limits, capacity, uris, metas, regions, i);
      if status != OK {
        assert BuildStops(catalog, samples, limits, status, i);
        return;
      }
    }
    plan := Plan(uris, metas, regions, t.chunks, t.uses);
    BuiltAll(t, catalog, samples, outShape, capacity, plan);
    return OK, plan;
  }

  lemma NothingBuilt(catalog: Catalog, samples: seq<PlannerSample>, outShape: seq<nat>)
    ensures BuildInv(catalog, samples, outShape, [], [], [], [], [], 0)
  {
  }

  lemma BuiltAll(t: ChunkTable, catalog: Catalog, samples: seq<PlannerSample>, outShape: seq<nat>, capacity: nat,
                 plan: Plan)
    requires TableFor(t, catalog, plan.uris, plan.metas, capacity) && plan.chunks == t.chunks && plan.uses == t.uses
    requires BuildInv(catalog, samples, outShape, plan.uris, plan.metas, plan.regions, plan.chunks, plan.uses,
                      |samples|)
    ensures PlanFor(catalog, samples, outShape, plan)
    ensures AllAdmitted(catalog, samples, outShape) && |plan.uses| == UsesNeeded(catalog, samples, outShape)
  {
    hide Pairs, PlannedUses, Walkable, KeysDistinct, Admitted;
    assert samples[..|samples|] == samples;
  }

  ghost predicate BuildInv(catalog: Catalog, samples: seq<PlannerSample>, outShape: seq<nat>, uris: seq<string>,
                           metas: seq<ZarrMeta>, regions: seq<Region>, chunks: seq<PlanChunk>, uses: seq<PlanUse>,
                             i: nat)
  {
    && i <= |samples| && |regions| == i && AllAdmitted(catalog, samples[..i], outShape)
    && ArraysOk(catalog, uris, metas) && RegionsOk(samples, uris, regions)
    && (forall k | 0 <= k < i :: Walkable(catalog, samples[k]))
    && UsesInRange(chunks, uses)
    && Pairs(chunks, uses) == PlannedUses(catalog, samples, regions, i)
    && |uses| == Capacity(catalog, samples, outShape, i)
  }

  lemma {:induction false} CapacityMonotone(catalog: Catalog, samples: seq<PlannerSample>, outShape: seq<nat>, i: nat,
                                            n: nat)
    requires i <= n <= |samples| && AllAdmitted(catalog, samples[..n], outShape)
    ensures AllAdmitted(catalog, samples[..i], outShape)
    ensures Capacity(catalog, samples, outShape, i) <= Capacity(catalog, samples, outShape, n)
    decreases n - i
  {
    forall k | 0 <= k < i ensures Admitted(catalog, samples[..i][k], outShape) {
      assert Admitted(catalog, samples[..n][k], outShape);
    }
    if i < n {
      CapacityMonotone(catalog, samples, outShape, i + 1, n);
    }
  }

  lemma OverCapacity(catalog: Catalog, samples: seq<PlannerSample>, outShape: seq<nat>, i: nat, max: nat)
    requires i <= |samples| && AllAdmitted(catalog, samples[..i], outShape)
               && Capacity(catalog, samples, outShape, i) > max
    ensures AllAdmitted(catalog, samples[..|samples|], outShape) ==>
              Capacity(catalog, samples, outShape, |samples|) > max
  {
    if AllAdmitted(catalog, samples[..|samples|], outShape) {
      CapacityMonotone(catalog, samples, outShape, i, |samples|);
    }
  }

  method BuildSample(t: ChunkTable, catalog: Catalog, samples: seq<PlannerSample>, ghost outShape: seq<nat>,
                     limits: Limits,
                     ghost capacity: nat, uris: seq<string>, metas: seq<ZarrMeta>, regions: seq<Region>, i: nat)
    returns (status: Status, uris': seq<string>, metas': seq<ZarrMeta>, regions': seq<Region>)
    requires i < |samples| && forall k | 0 <= k < |samples| :: SampleSorted(samples[k])
    requires AllMeasured(catalog, samples, outShape, limits) && 0 < |outShape| <= MAX_RANK
    requires capacity == UsesNeeded(catalog, samples, outShape)
    requires TableFor(t, catalog, uris, metas, capacity)
    requires BuildInv(catalog, samples, outShape, uris, metas, regions, t.chunks, t.uses, i)
    modifies t, t.table
    ensures TableFor(t, catalog, uris', metas', capacity)
    ensures status == OK <==> Buildable(catalog, samples[i], limits.maxShards)
    ensures status != OK ==> BuildFault(catalog, samples[i], limits.maxShards, status)
    ensures status == OK ==> BuildInv(catalog, samples, outShape, uris', metas', regions', t.chunks, t.uses, i + 1)
  {
    hide TableOk, UsesOk, AllUsed, Located, UsesInRange, WithinBudget, SamplePlannable, ShardsDivide, ProductFits,
         Product;
    hide ChunkTable.Valid;
    var sample := samples[i];
    uris', metas', regions' := uris, metas, regions;
    assert Measured(catalog, sample, outShape, limits);
    var meta := catalog.meta(sample.uri).meta;
    FitsDims(sample, meta, outShape);
    var source := FindArray(uris, sample.uri);
    if source == |uris| {
      MoreArrays(catalog, samples, uris, metas, regions, t.chunks, sample.uri, meta);
      uris', metas' := uris + [sample.uri], metas + [meta];
    }
    regions' := regions + [Region(source, i, sample.axes)];
    var ok, per := InnerPerShard(meta);
    if !ok { return DECODE, uris', metas', regions'; }
    CapacityStep(catalog, samples, outShape, i);
    ghost var chunks, uses := t.chunks, t.uses;
    status := AddSample(t, catalog, uris', metas', capacity, sample, meta, per, source, i, limits);
    if status == OK {
      BuildNext(catalog, samples, outShape, uris', metas', regions, chunks, uses, i, source, t.chunks, t.uses);
    }
  }

  lemma CapacityStep(catalog: Catalog, samples: seq<PlannerSample>, outShape: seq<nat>, i: nat)
    requires i < |samples| && AllAdmitted(catalog, samples, outShape)
    ensures AllAdmitted(catalog, samples[..i], outShape) && AllAdmitted(catalog, samples[..i + 1], outShape)
    ensures AllAdmitted(catalog, samples[..|samples|], outShape)
    ensures Capacity(catalog, samples, outShape, i) + CountOf(catalog, samples[i], outShape)
            == Capacity(catalog, samples, outShape, i + 1)
            <= Capacity(catalog, samples, outShape, |samples|)
  {
    assert samples[..|samples|] == samples;
    CapacityMonotone(catalog, samples, outShape, i + 1, |samples|);
    CapacityMonotone(catalog, samples, outShape, i, |samples|);
  }

  lemma BuildNext(catalog: Catalog, samples: seq<PlannerSample>, outShape: seq<nat>, uris: seq<string>,
                  metas: seq<ZarrMeta>,
                  regions: seq<Region>, chunks: seq<PlanChunk>, uses: seq<PlanUse>, i: nat, source: nat,
                  chunks': seq<PlanChunk>, uses': seq<PlanUse>)
    requires i < |samples| && AllAdmitted(catalog, samples, outShape)
    requires BuildInv(catalog, samples, outShape, uris, metas, regions, chunks, uses, i)
    requires source < |uris| && uris[source] == samples[i].uri && metas[source] == catalog.meta(samples[i].uri).meta
    requires Walkable(catalog, samples[i]) && UsesInRange(chunks', uses')
    requires Pairs(chunks', uses') == Pairs(chunks, uses) + Tagged(i, source, SampleChunks(catalog, samples[i]))
    requires |uses'| == |uses| + CountOf(catalog, samples[i], outShape)
    ensures BuildInv(catalog, samples, outShape, uris, metas, regions + [Region(source, i, samples[i].axes)], chunks',
                     uses', i + 1)
  {
    hide Walkable, Admitted, SampleChunks, Tagged, Pairs, CountOf;
    CapacityStep(catalog, samples, outShape, i);
    PlannedUsesPrefix(catalog, samples, regions, [Region(source, i, samples[i].axes)], i);
  }
}
