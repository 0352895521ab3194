/** Rendering a planned batch: assembling every planned chunk, in any order, fills
    the batch tensor with exactly what the queries ask for. */
module BatchRender {
  import opened Statuses
  import opened Odometer
  import opened Selection
  import opened SelectionGrids
  import opened PlanWalk
  import opened ChunkTables
  import opened PlanBuilder
  import opened Tensor
  import opened Assemble
  import opened Seqs
  import opened Arith

  /** What the store and the codecs yield: the decoded elements of a stored chunk, the
      fill value of an array, and the conversion of its elements to the batch type. */
  datatype Store = Store(decode: Location -> seq<int>, fill: string -> int, convert: string -> int -> int)

  // --- The reference: reading one array element --------------------------------------------

  ghost function LocationOf(catalog: Catalog, uri: string, per: seq<nat>, c: seq<nat>): Location
    requires |c| == |per| && PerPositive(per)
  {
    match catalog.shard(uri, CellOf(c, per))
    case ShardReady(entries) =>
      var i := Ravel(per, Inner(c, per));
      if i < |entries| && entries[i] != ShardEntry(EMPTY, EMPTY)
      then Stored(uri, CellOf(c, per), entries[i].offset, entries[i].nbytes)
      else Missing
    case _ => Missing
  }

  lemma LocationUnique(catalog: Catalog, uri: string, per: seq<nat>, c: seq<nat>, location: Location)
    requires |c| == |per| && PerPositive(per) && LocationIs(catalog, uri, per, c, location)
    ensures location == LocationOf(catalog, uri, per, c)
  {
  }

  ghost predicate Readable(meta: ZarrMeta) {
    MetaTiles(meta) && forall d | 0 <= d < |meta.chunk| :: meta.chunk[d] > 0
  }

  lemma TilesPositive(meta: ZarrMeta)
    requires Readable(meta)
    ensures PerPositive(PerOf(meta))
  {
    assert Tiles(meta.chunk, meta.shard, PerOf(meta));
  }

  /** Element `g` of an array: its chunk's entry in its shard, or the fill value. */
  ghost function ArrayElement(catalog: Catalog, store: Store, uri: string, meta: ZarrMeta, g: seq<nat>): int
    requires Readable(meta) && |g| == |meta.chunk|
  {
    TilesPositive(meta);
    var location := LocationOf(catalog, uri, PerOf(meta), CellOf(g, meta.chunk));
    var elements := store.decode(location);
    var i := Ravel(meta.chunk, Local(g, meta.chunk));
    if location.Missing? then store.fill(uri) else if i < |elements| then elements[i] else 0
  }

  /** Element g is element l of chunk i of shard s. */
  ghost predicate ElementPlace(meta: ZarrMeta, g: seq<nat>, s: seq<nat>, i: seq<nat>, l: seq<nat>)
    requires MetaRanks(meta)
  {
    && |g| == |s| == |i| == |l| == |meta.chunk|
    && forall d | 0 <= d < |g| ::
         && i[d] < PerOf(meta)[d] && l[d] < meta.chunk[d]
         && g[d] == (s[d] * PerOf(meta)[d] + i[d]) * meta.chunk[d] + l[d]
  }

  /** Where an element is: shard, chunk and position are read off its coordinate, the index of the shard names the
      bytes of the chunk, and both positions are row-major. */
  lemma ElementMeans(catalog: Catalog, store: Store, uri: string, meta: ZarrMeta, g: seq<nat>,
                     s: seq<nat>, i: seq<nat>, l: seq<nat>)
    requires Readable(meta) && |g| == |meta.chunk| && ElementPlace(meta, g, s, i, l)
    ensures catalog.shard(uri, s).ShardReady? && Ravel(PerOf(meta), i) < |catalog.shard(uri, s).entries| ==>
              var entry := catalog.shard(uri, s).entries[Ravel(PerOf(meta), i)];
              var elements := store.decode(Stored(uri, s, entry.offset, entry.nbytes));
              && (entry == ShardEntry(U64_MAX, U64_MAX) ==>
                    ArrayElement(catalog, store, uri, meta, g) == store.fill(uri))
              && (entry != ShardEntry(U64_MAX, U64_MAX) && Ravel(meta.chunk, l) < |elements| ==>
                    ArrayElement(catalog, store, uri, meta, g) == elements[Ravel(meta.chunk, l)])
    ensures !catalog.shard(uri, s).ShardReady? ==> ArrayElement(catalog, store, uri, meta, g) == store.fill(uri)
  {
    hide Ravel;
    TilesPositive(meta);
    var c := CellOf(g, meta.chunk);
    forall d | 0 <= d < |g| ensures c[d] == s[d] * PerOf(meta)[d] + i[d] && Local(g, meta.chunk)[d] == l[d] {
      DivUnique(g[d], meta.chunk[d], s[d] * PerOf(meta)[d] + i[d]);
    }
    assert Local(g, meta.chunk) == l;
    assert InShard(c, PerOf(meta), s, i);
    ShardPlace(c, PerOf(meta), s, i);
  }

  /** Every element has such a place. */
  lemma ElementPlaced(meta: ZarrMeta, g: seq<nat>)
    requires Readable(meta) && |g| == |meta.chunk|
    ensures PerPositive(PerOf(meta))
    ensures var c := CellOf(g, meta.chunk);
            ElementPlace(meta, g, CellOf(c, PerOf(meta)), Inner(c, PerOf(meta)), Local(g, meta.chunk))
  {
    TilesPositive(meta);
    var c, per := CellOf(g, meta.chunk), PerOf(meta);
    ShardPlace(c, per, CellOf(c, per), Inner(c, per));
    forall d | 0 <= d < |g| ensures g[d] == c[d] * meta.chunk[d] + Local(g, meta.chunk)[d] {
      DivBounds(g[d], meta.chunk[d]);
    }
  }

  // --- The batch ---------------------------------------------------------------------------------

  ghost predicate AxesOk(axes: seq<QueryAxis>, outShape: seq<nat>) {
    |axes| == |outShape| && forall d | 0 <= d < |axes| :: AxisOk(axes[d], outShape[d])
  }

  /** The array chunk `k` belongs to is known and every stored chunk decodes to its full size. */
  ghost predicate Decodes(store: Store, plan: Plan) {
    forall k | 0 <= k < |plan.chunks| ::
      var c := plan.chunks[k];
      c.source < |plan.metas| && (c.location.Stored? ==> |store.decode(c.location)| == Size(plan.metas[c.source].chunk))
  }

  ghost predicate Renderable(catalog: Catalog, store: Store, samples: seq<PlannerSample>, outShape: seq<nat>,
                             plan: Plan)
  {
    && PlanFor(catalog, samples, outShape, plan) && Decodes(store, plan)
    && samples != [] && outShape != []
    && forall i | 0 <= i < |samples| :: AxesOk(samples[i].axes, outShape)
  }

  function BatchDims(samples: nat, outShape: seq<nat>): (shape: seq<nat>)
    ensures |shape| == |outShape| + 1 && shape[0] == samples && shape[1..] == outShape
  {
    [samples] + outShape
  }

  lemma SampleArray(catalog: Catalog, store: Store, samples: seq<PlannerSample>, outShape: seq<nat>, plan: Plan, i: nat)
    requires Renderable(catalog, store, samples, outShape, plan) && i < |samples|
    ensures catalog.meta(samples[i].uri).MetaReady?
    ensures var meta := catalog.meta(samples[i].uri).meta;
            && Readable(meta) && |samples[i].axes| == |meta.chunk| == |outShape|
            && plan.regions[i] == Region(plan.regions[i].source, i, samples[i].axes)
            && plan.regions[i].source < |plan.uris| == |plan.metas|
            && plan.uris[plan.regions[i].source] == samples[i].uri && plan.metas[plan.regions[i].source] == meta
  {
    hide UsesOk, KeysDistinct, Pairs, PlannedUses, Located, AxisOk;
    assert Walkable(catalog, samples[i]) && Admitted(catalog, samples[i], outShape);
    var meta := catalog.meta(samples[i].uri).meta;
    forall d | 0 <= d < |meta.chunk| ensures meta.chunk[d] > 0 {
      assert AxisFits(samples[i].axes[d], meta.shape[d], meta.chunk[d], outShape[d]);
    }
    assert catalog.meta(plan.uris[plan.regions[i].source]) == MetaReady(plan.metas[plan.regions[i].source]);
  }

  /** The value the batch must hold at flat position `x`. */
  ghost function Expected(catalog: Catalog, store: Store, samples: seq<PlannerSample>, outShape: seq<nat>, plan: Plan,
                          x: nat): int
    requires Renderable(catalog, store, samples, outShape, plan) && x < Size(BatchDims(|samples|, outShape))
  {
    var shape := BatchDims(|samples|, outShape);
    RavelUnravel(shape, x);
    var i, o := Unravel(shape, x)[0], Unravel(shape, x)[1..];
    SampleArray(catalog, store, samples, outShape, plan, i);
    var meta := catalog.meta(samples[i].uri).meta;
    store.convert(samples[i].uri)(
      ArrayElement(catalog, store, samples[i].uri, meta, SourceCoordinate(samples[i].axes, outShape, o)))
  }

  // --- Which uses a plan has -----------------------------------------------------------------------

  lemma {:induction false} PlannedMembers(catalog: Catalog, samples: seq<PlannerSample>, regions: seq<Region>, n: nat,
                                          key: UseKey)
    requires n <= |samples| && n <= |regions| && forall i | 0 <= i < n :: Walkable(catalog, samples[i])
    ensures key in PlannedUses(catalog, samples, regions, n) <==>
            key.region < n && key.source == regions[key.region].source
              && key.coordinate in SampleChunks(catalog, samples[key.region])
    decreases n
  {
    hide SampleChunks, Walkable;
    if n > 0 {
      PlannedMembers(catalog, samples, regions, n - 1, key);
      var cs := SampleChunks(catalog, samples[n - 1]);
      var last := Tagged(n - 1, regions[n - 1].source, cs);
      if key.region == n - 1 && key.source == regions[n - 1].source && key.coordinate in cs {
        var j :| 0 <= j < |cs| && cs[j] == key.coordinate;
        assert last[j] == key;
      }
    }
  }

  lemma SampleDistinct(catalog: Catalog, sample: PlannerSample)
    requires Walkable(catalog, sample)
    ensures Distinct(SampleChunks(catalog, sample))
  {
    var meta := catalog.meta(sample.uri).meta;
    TwoLevelIsDirect(sample.axes, meta.chunk, meta.shard, PerOf(meta));
  }

  lemma {:induction false} PlannedDistinct(catalog: Catalog, samples: seq<PlannerSample>, regions: seq<Region>, n: nat)
    requires n <= |samples| && n <= |regions| && forall i | 0 <= i < n :: Walkable(catalog, samples[i])
    ensures Distinct(PlannedUses(catalog, samples, regions, n))
    decreases n
  {
    hide SampleChunks, Walkable;
    if n > 0 {
      PlannedDistinct(catalog, samples, regions, n - 1);
      var before := PlannedUses(catalog, samples, regions, n - 1);
      SampleDistinct(catalog, samples[n - 1]);
      var last := Tagged(n - 1, regions[n - 1].source, SampleChunks(catalog, samples[n - 1]));
      forall key | key in before ensures key !in last { PlannedMembers(catalog, samples, regions, n - 1, key); }
      DistinctAppend(before, last);
    }
  }

  /** A use joins a region to a chunk of the region's own array that its selection touches. */
  lemma UseFits(catalog: Catalog, store: Store, samples: seq<PlannerSample>, outShape: seq<nat>, plan: Plan, u: nat)
    requires Renderable(catalog, store, samples, outShape, plan) && u < |plan.uses|
    ensures plan.uses[u].chunk < |plan.chunks| && plan.uses[u].region < |samples|
    ensures var i, chunk := plan.uses[u].region, plan.chunks[plan.uses[u].chunk];
            && chunk.source == plan.regions[i].source < |plan.metas|
            && |chunk.coordinate| == |plan.metas[chunk.source].chunk|
            && chunk.coordinate in SampleChunks(catalog, samples[i])
  {
    hide UsesOk, KeysDistinct, PlannedUses, SampleChunks, LocationIs, AxesOk;
    var pairs := Pairs(plan.chunks, plan.uses);
    assert pairs[u] in pairs;
    PlannedMembers(catalog, samples, plan.regions, |samples|, pairs[u]);
    var chunk := plan.chunks[plan.uses[u].chunk];
    assert Located(catalog, plan.uris, plan.metas, chunk.source, chunk.coordinate, chunk.location);
  }

  // --- One use -----------------------------------------------------------------------------------------

  function TargetOf(shape: seq<nat>, strides: seq<nat>, region: Region): Target {
    Target(shape, strides, region.sample, region.axes)
  }

  function PieceOf(store: Store, plan: Plan, k: nat): Piece
    requires k < |plan.chunks| && plan.chunks[k].source < |plan.metas| && |plan.metas| == |plan.uris|
  {
    var c := plan.chunks[k];
    Piece(plan.metas[c.source].chunk, c.coordinate, c.location.Missing?, store.fill(plan.uris[c.source]),
          if c.location.Missing? then [] else store.decode(c.location))
  }

  ghost predicate UseReady(store: Store, shape: seq<nat>, strides: seq<nat>, plan: Plan, u: nat) {
    && u < |plan.uses| && plan.uses[u].region < |plan.regions| && plan.uses[u].chunk < |plan.chunks|
    && plan.chunks[plan.uses[u].chunk].source < |plan.metas| == |plan.uris|
    && TargetOk(TargetOf(shape, strides, plan.regions[plan.uses[u].region]))
    && PieceOk(PieceOf(store, plan, plan.uses[u].chunk))
    && |PieceOf(store, plan, plan.uses[u].chunk).chunk| == |plan.regions[plan.uses[u].region].axes|
  }

  lemma UseIsReady(catalog: Catalog, store: Store, samples: seq<PlannerSample>, outShape: seq<nat>, plan: Plan,
                   strides: seq<nat>, u: nat)
    requires Renderable(catalog, store, samples, outShape, plan) && u < |plan.uses|
    requires StridesOf(BatchDims(|samples|, outShape), strides)
    ensures UseReady(store, BatchDims(|samples|, outShape), strides, plan, u)
  {
    hide UsesOk, KeysDistinct, Pairs, PlannedUses, Located, AxisOk, StridesOf, SampleChunks, Walkable, Admitted;
    var shape := BatchDims(|samples|, outShape);
    UseFits(catalog, store, samples, outShape, plan, u);
    SampleArray(catalog, store, samples, outShape, plan, plan.uses[u].region);
    var i, axes := plan.uses[u].region, samples[plan.uses[u].region].axes;
    assert AxesOk(axes, outShape);
    forall d | 0 <= d < |axes| ensures AxisOk(axes[d], shape[d + 1]) { assert shape[d + 1] == outShape[d]; }
  }

  /** Use `u` writes flat position `x`. */
  ghost predicate UseCovers(store: Store, shape: seq<nat>, strides: seq<nat>, plan: Plan, u: nat, x: nat)
    requires UseReady(store, shape, strides, plan, u)
  {
    Covers(TargetOf(shape, strides, plan.regions[plan.uses[u].region]), PieceOf(store, plan, plan.uses[u].chunk), x)
  }

  /** What a use writes is what the batch must hold. */
  lemma UseWritesExpected(catalog: Catalog, store: Store, samples: seq<PlannerSample>, outShape: seq<nat>, plan: Plan,
                          strides: seq<nat>, u: nat, x: nat)
    requires Renderable(catalog, store, samples, outShape, plan) && u < |plan.uses|
    requires StridesOf(BatchDims(|samples|, outShape), strides) && x < Size(BatchDims(|samples|, outShape))
    ensures var shape := BatchDims(|samples|, outShape);
            && UseReady(store, shape, strides, plan, u)
            && (UseCovers(store, shape, strides, plan, u, x) ==>
                  ValueAt(TargetOf(shape, strides, plan.regions[plan.uses[u].region]),
                          PieceOf(store, plan, plan.uses[u].chunk),
                          store.convert(plan.uris[plan.chunks[plan.uses[u].chunk].source]), x)
                  == Expected(catalog, store, samples, outShape, plan, x))
  {
    hide UsesOk, KeysDistinct, Pairs, PlannedUses, LocationIs, LocationOf, AxisOk, StridesOf, SampleChunks, Ravel,
         Unravel, Walkable, Admitted;
    var shape := BatchDims(|samples|, outShape);
    UseIsReady(catalog, store, samples, outShape, plan, strides, u);
    if UseCovers(store, shape, strides, plan, u, x) {
      UseFits(catalog, store, samples, outShape, plan, u);
      SampleArray(catalog, store, samples, outShape, plan, plan.uses[u].region);
      var k := plan.uses[u].chunk;
      var chunk := plan.chunks[k];
      assert Located(catalog, plan.uris, plan.metas, chunk.source, chunk.coordinate, chunk.location);
      TilesPositive(plan.metas[chunk.source]);
      LocationUnique(catalog, plan.uris[chunk.source], PerOf(plan.metas[chunk.source]), chunk.coordinate,
                     chunk.location);
      var t := TargetOf(shape, strides, plan.regions[plan.uses[u].region]);
      var g := SourceOf(t, x);
      assert g == SourceCoordinate(t.axes, outShape, Unravel(shape, x)[1..]);
      RavelBound(plan.metas[chunk.source].chunk, Local(g, plan.metas[chunk.source].chunk));
    }
  }

  /** Every output position is written by exactly one use. */
  lemma CoveredOnce(catalog: Catalog, store: Store, samples: seq<PlannerSample>, outShape: seq<nat>, plan: Plan,
                    strides: seq<nat>, x: nat)
    returns (u: nat)
    requires Renderable(catalog, store, samples, outShape, plan)
    requires StridesOf(BatchDims(|samples|, outShape), strides) && x < Size(BatchDims(|samples|, outShape))
    ensures forall v: nat | v < |plan.uses| :: UseReady(store, BatchDims(|samples|, outShape), strides, plan, v)
    ensures u < |plan.uses|
    ensures forall v: nat | v < |plan.uses| ::
              UseCovers(store, BatchDims(|samples|, outShape), strides, plan, v, x) <==> v == u
  {
    hide UsesOk, KeysDistinct, AxisOk, StridesOf, Ravel, Unravel, SampleChunks, Walkable, Admitted, Located;
    var shape := BatchDims(|samples|, outShape);
    forall v: nat | v < |plan.uses| ensures UseReady(store, shape, strides, plan, v) {
      UseIsReady(catalog, store, samples, outShape, plan, strides, v);
    }
    RavelUnravel(shape, x);
    var i, o := Unravel(shape, x)[0], Unravel(shape, x)[1..];
    SampleArray(catalog, store, samples, outShape, plan, i);
    var chunk := catalog.meta(samples[i].uri).meta.chunk;
    var g := SourceCoordinate(samples[i].axes, outShape, o);
    SourceTouches(catalog, samples[i], outShape, o);
    var key := UseKey(i, plan.regions[i].source, CellOf(g, chunk));
    PlannedMembers(catalog, samples, plan.regions, |samples|, key);
    PlannedDistinct(catalog, samples, plan.regions, |samples|);
    var pairs := Pairs(plan.chunks, plan.uses);
    u :| 0 <= u < |pairs| && pairs[u] == key;
    forall v: nat | v < |plan.uses| ensures UseCovers(store, shape, strides, plan, v, x) <==> pairs[v] == key {
      UseFits(catalog, store, samples, outShape, plan, v);
      SampleArray(catalog, store, samples, outShape, plan, plan.uses[v].region);
    }
  }

  /** The chunk that holds a wanted element is among the chunks of its sample. */
  lemma SourceTouches(catalog: Catalog, sample: PlannerSample, outShape: seq<nat>, o: seq<nat>)
    requires Walkable(catalog, sample) && Admitted(catalog, sample, outShape)
    requires AxesOk(sample.axes, outShape) && InRange(o, outShape)
    requires Readable(catalog.meta(sample.uri).meta)
    ensures CellOf(SourceCoordinate(sample.axes, outShape, o), catalog.meta(sample.uri).meta.chunk)
            in SampleChunks(catalog, sample)
  {
    hide TwoLevel, AxisSorted;
    var meta := catalog.meta(sample.uri).meta;
    var g := SourceCoordinate(sample.axes, outShape, o);
    forall d | 0 <= d < |g| ensures Touches(sample.axes[d], meta.chunk[d], CellOf(g, meta.chunk)[d]) {
      assert AxisOk(sample.axes[d], outShape[d]);
      assert Selects(sample.axes[d], g[d]);
    }
    TwoLevelIsDirect(sample.axes, meta.chunk, meta.shard, PerOf(meta));
  }

  // --- assemble_chunk -----------------------------------------------------------------------------------

  /** Everything a render needs, in one place. */
  ghost predicate Ready(catalog: Catalog, store: Store, samples: seq<PlannerSample>, outShape: seq<nat>, plan: Plan,
                        strides: seq<nat>)
  {
    && Renderable(catalog, store, samples, outShape, plan)
    && StridesOf(BatchDims(|samples|, outShape), strides)
    && forall u: nat | u < |plan.uses| :: UseReady(store, BatchDims(|samples|, outShape), strides, plan, u)
  }

  ghost predicate SomeCovers(store: Store, shape: seq<nat>, strides: seq<nat>, plan: Plan, uses: seq<nat>, x: nat) {
    exists v: nat ::
      v in uses && UseReady(store, shape, strides, plan, v) && UseCovers(store, shape, strides, plan, v, x)
  }

  /** The positions written by the given uses hold what they must; the rest is untouched. */
  ghost predicate Rendered(catalog: Catalog, store: Store, samples: seq<PlannerSample>, outShape: seq<nat>, plan: Plan,
                           strides: seq<nat>, uses: seq<nat>, before: seq<int>, after: seq<int>)
    requires Renderable(catalog, store, samples, outShape, plan)
  {
    var shape := BatchDims(|samples|, outShape);
    && |before| == |after| == Size(shape)
    && forall x: nat | x < |after| ::
         after[x] == if SomeCovers(store, shape, strides, plan, uses, x)
                     then Expected(catalog, store, samples, outShape, plan, x) else before[x]
  }

  lemma NothingRendered(catalog: Catalog, store: Store, samples: seq<PlannerSample>, outShape: seq<nat>, plan: Plan,
                        strides: seq<nat>, now: seq<int>)
    requires Renderable(catalog, store, samples, outShape, plan) && |now| == Size(BatchDims(|samples|, outShape))
    ensures Rendered(catalog, store, samples, outShape, plan, strides, [], now, now)
  {
    hide Renderable, Expected;
  }

  lemma RenderedMore(catalog: Catalog, store: Store, samples: seq<PlannerSample>, outShape: seq<nat>, plan: Plan,
                     strides: seq<nat>,
                     first: seq<nat>, second: seq<nat>, before: seq<int>, now: seq<int>, after: seq<int>)
    requires Renderable(catalog, store, samples, outShape, plan)
    requires Rendered(catalog, store, samples, outShape, plan, strides, first, before, now)
    requires Rendered(catalog, store, samples, outShape, plan, strides, second, now, after)
    ensures Rendered(catalog, store, samples, outShape, plan, strides, first + second, before, after)
  {
    hide Renderable, UseReady, UseCovers, Expected;
    var shape := BatchDims(|samples|, outShape);
    forall x: nat | x < |after|
      ensures SomeCovers(store, shape, strides, plan, first + second, x) <==>
              SomeCovers(store, shape, strides, plan, first, x) || SomeCovers(store, shape, strides, plan, second, x)
    {
    }
  }

  lemma UseRendered(catalog: Catalog, store: Store, samples: seq<PlannerSample>, outShape: seq<nat>, plan: Plan,
                    strides: seq<nat>,
                    u: nat, before: seq<int>, after: seq<int>)
    requires Ready(catalog, store, samples, outShape, plan, strides) && u < |plan.uses|
    requires UseReady(store, BatchDims(|samples|, outShape), strides, plan, u)
    requires PieceScattered(TargetOf(BatchDims(|samples|, outShape), strides, plan.regions[plan.uses[u].region]),
                            PieceOf(store, plan, plan.uses[u].chunk),
                            store.convert(plan.uris[plan.chunks[plan.uses[u].chunk].source]), before, after)
    ensures Rendered(catalog, store, samples, outShape, plan, strides, [u], before, after)
  {
    hide Renderable, UseReady, Expected, ValueAt, Covers, StridesOf;
    var shape := BatchDims(|samples|, outShape);
    forall x: nat | x < |after|
      ensures after[x] == if SomeCovers(store, shape, strides, plan, [u], x)
                          then Expected(catalog, store, samples, outShape, plan, x) else before[x]
    {
      UseWritesExpected(catalog, store, samples, outShape, plan, strides, u, x);
      assert SomeCovers(store, shape, strides, plan, [u], x) <==> UseCovers(store, shape, strides, plan, u, x) by {
        if UseCovers(store, shape, strides, plan, u, x) { assert u in [u]; }
      }
    }
  }

  method AssembleUse(buffer: array<int>, store: Store, plan: Plan, strides: seq<nat>, u: nat,
                     ghost catalog: Catalog, ghost samples: seq<PlannerSample>, outShape: seq<nat>)
    requires Ready(catalog, store, samples, outShape, plan, strides) && u < |plan.uses|
    requires buffer.Length == Size(BatchDims(|samples|, outShape))
    modifies buffer
    ensures Rendered(catalog, store, samples, outShape, plan, strides, [u], old(buffer[..]), buffer[..])
  {
    hide PieceScattered, AxisOk, StridesOf, SampleChunks, UsesOk, KeysDistinct, PlannedUses, Pairs, AllLocated,
         Walkable, Admitted, Rendered;
    assert UseReady(store, BatchDims(|samples|, outShape), strides, plan, u);
    var region, k := plan.regions[plan.uses[u].region], plan.uses[u].chunk;
    var t, p := TargetOf(BatchDims(|plan.regions|, outShape), strides, region), PieceOf(store, plan, k);
    var convert := store.convert(plan.uris[plan.chunks[k].source]);
    if exists d | 0 <= d < |region.axes| :: region.axes[d].entries != [] {
      GatherChunk(buffer, t, p, convert);
    } else {
      UseTouches(catalog, store, samples, outShape, plan, strides, u);
      CopyChunk(buffer, t, p, convert);
    }
    UseRendered(catalog, store, samples, outShape, plan, strides, u, old(buffer[..]), buffer[..]);
  }

  lemma UseTouches(catalog: Catalog, store: Store, samples: seq<PlannerSample>, outShape: seq<nat>, plan: Plan,
                   strides: seq<nat>, u: nat)
    requires Ready(catalog, store, samples, outShape, plan, strides) && u < |plan.uses|
    ensures UseReady(store, BatchDims(|samples|, outShape), strides, plan, u)
    ensures var axes, p := plan.regions[plan.uses[u].region].axes, PieceOf(store, plan, plan.uses[u].chunk);
            forall d | 0 <= d < |axes| :: Touches(axes[d], p.chunk[d], p.coordinate[d])
  {
    hide AxisOk, StridesOf, UsesOk, KeysDistinct, PlannedUses, Pairs, AllLocated, TwoLevel, Touches, AxisSorted;
    UseFits(catalog, store, samples, outShape, plan, u);
    var i := plan.uses[u].region;
    SampleArray(catalog, store, samples, outShape, plan, i);
    var meta := catalog.meta(samples[i].uri).meta;
    assert Walkable(catalog, samples[i]);
    TwoLevelIsDirect(samples[i].axes, meta.chunk, meta.shard, PerOf(meta));
  }

  /** Scatters one decoded chunk into every region that uses it. */
  method AssembleChunk(buffer: array<int>, store: Store, plan: Plan, strides: seq<nat>, k: nat,
                       ghost catalog: Catalog, ghost samples: seq<PlannerSample>, outShape: seq<nat>)
    requires Ready(catalog, store, samples, outShape, plan, strides) && k < |plan.chunks|
    requires buffer.Length == Size(BatchDims(|samples|, outShape))
    modifies buffer
    ensures Rendered(catalog, store, samples, outShape, plan, strides, UsesOf(plan.uses, k), old(buffer[..]),
                     buffer[..])
  {
    hide AxisOk, StridesOf, SampleChunks, KeysDistinct, PlannedUses, Pairs, AllLocated, Walkable, Admitted, UseReady,
         Expected, UsesOf, Rendered;
    var u: Option<nat> := plan.chunks[k].firstUse;
    ghost var done: seq<nat> := [];
    NothingRendered(catalog, store, samples, outShape, plan, strides, buffer[..]);
    while u.Some?
      invariant u.Some? ==> u.value < |plan.uses|
      invariant done + Chain(plan.uses, u) == UsesOf(plan.uses, k)
      invariant Rendered(catalog, store, samples, outShape, plan, strides, done, old(buffer[..]), buffer[..])
      decreases if u.Some? then u.value + 1 else 0
    {
      ghost var now := buffer[..];
      AssembleUse(buffer, store, plan, strides, u.value, catalog, samples, outShape);
      RenderedMore(catalog, store, samples, outShape, plan, strides, done, [u.value], old(buffer[..]), now, buffer[..]);
      done := done + [u.value];
      u := plan.uses[u.value].next;
    }
    assert done == UsesOf(plan.uses, k);
  }

  // --- The whole batch --------------------------------------------------------------------------------------

  ghost function UsesOfAll(plan: Plan, order: seq<nat>): seq<nat> {
    if order == [] then [] else UsesOfAll(plan, order[..|order| - 1]) + UsesOf(plan.uses, order[|order| - 1])
  }

  lemma {:induction false} UsesOfAllMembers(plan: Plan, order: seq<nat>, u: nat)
    requires u < |plan.uses| && plan.uses[u].chunk in order
    ensures u in UsesOfAll(plan, order)
    decreases |order|
  {
    UsesOfMembers(plan.uses, order[|order| - 1]);
    if plan.uses[u].chunk != order[|order| - 1] { UsesOfAllMembers(plan, order[..|order| - 1], u); }
  }

  /** Chunks arrive in whatever order their reads and decodes finish. The batch that
      comes out does not depend on it. */
  method RenderBatch(buffer: array<int>, store: Store, plan: Plan, strides: seq<nat>, order: seq<nat>,
                     ghost catalog: Catalog, ghost samples: seq<PlannerSample>, outShape: seq<nat>)
    requires Renderable(catalog, store, samples, outShape, plan)
    requires StridesOf(BatchDims(|samples|, outShape), strides)
    requires buffer.Length == Size(BatchDims(|samples|, outShape))
    requires forall j | 0 <= j < |order| :: order[j] < |plan.chunks|
    requires forall k: nat | k < |plan.chunks| :: k in order
    modifies buffer
    ensures forall x: nat | x < buffer.Length :: buffer[x] == Expected(catalog, store, samples, outShape, plan, x)
  {
    hide PlanFor, AxisOk, StridesOf, UseReady, Expected, UsesOf;
    forall u: nat | u < |plan.uses| ensures UseReady(store, BatchDims(|samples|, outShape), strides, plan, u) {
      UseIsReady(catalog, store, samples, outShape, plan, strides, u);
    }
    for n := 0 to |order|
      invariant Rendered(catalog, store, samples, outShape, plan, strides, UsesOfAll(plan, order[..n]),
                         old(buffer[..]), buffer[..])
    {
      ghost var now := buffer[..];
      AssembleChunk(buffer, store, plan, strides, order[n], catalog, samples, outShape);
      assert order[..n + 1][..n] == order[..n];
      RenderedMore(catalog, store, samples, outShape, plan, strides, UsesOfAll(plan, order[..n]),
                   UsesOf(plan.uses, order[n]),
                   old(buffer[..]), now, buffer[..]);
    }
    assert order[..|order|] == order;
    AllRendered(catalog, store, samples, outShape, plan, strides, order, old(buffer[..]), buffer[..]);
  }

  lemma AllRendered(catalog: Catalog, store: Store, samples: seq<PlannerSample>, outShape: seq<nat>, plan: Plan,
                    strides: seq<nat>,
                    order: seq<nat>, before: seq<int>, after: seq<int>)
    requires Renderable(catalog, store, samples, outShape, plan) && StridesOf(BatchDims(|samples|, outShape), strides)
    requires forall k: nat | k < |plan.chunks| :: k in order
    requires Rendered(catalog, store, samples, outShape, plan, strides, UsesOfAll(plan, order), before, after)
    ensures forall x: nat | x < |after| :: after[x] == Expected(catalog, store, samples, outShape, plan, x)
  {
    hide AxisOk, StridesOf, Expected, UsesOf, UsesOfAll, UseReady, UseCovers, Pairs, PlannedUses, Walkable, Admitted,
         Located;
    forall x: nat | x < |after| ensures after[x] == Expected(catalog, store, samples, outShape, plan, x) {
      var u := CoveredOnce(catalog, store, samples, outShape, plan, strides, x);
      UsesOfAllMembers(plan, order, u);
      assert SomeCovers(store, BatchDims(|samples|, outShape), strides, plan, UsesOfAll(plan, order), x);
    }
  }

  // --- Back to the queries ------------------------------------------------------------------------------------

  ghost predicate QueryOf(query: seq<AxisSelection>, sample: PlannerSample, outShape: seq<nat>) {
    && |query| == |sample.axes| == |outShape|
    && forall d | 0 <= d < |query| ::
         CopyOf(query[d], sample.axes[d]) && (query[d].Interval? ==> query[d].end <= I64_MAX)
           && Extent(query[d]) == outShape[d]
  }

  /** The source coordinate a query asks for at output coordinate `o`. */
  ghost function WantedAt(query: seq<AxisSelection>, o: seq<nat>): (g: seq<int>)
    requires |o| == |query| && forall d | 0 <= d < |o| :: o[d] < Extent(query[d])
    ensures |g| == |o|
  {
    seq(|o|, d requires 0 <= d < |o| => Wanted(query[d], o[d]))
  }

  lemma WantedIsSource(query: seq<AxisSelection>, sample: PlannerSample, outShape: seq<nat>, o: seq<nat>)
    requires QueryOf(query, sample, outShape) && InRange(o, outShape)
    ensures AxesOk(sample.axes, outShape)
    ensures SourceCoordinate(sample.axes, outShape, o) == WantedAt(query, o)
  {
    hide CopyOf, SourceAt;
    forall d | 0 <= d < |query|
      ensures AxisOk(sample.axes[d], outShape[d]) && SourceAt(sample.axes[d], o[d]) == Wanted(query[d], o[d])
    {
      CopyMeansQuery(query[d], sample.axes[d]);
    }
  }

  /** Output element (i, o) of a rendered batch is the element of sample i's array
      that its query asks for at o. */
  lemma BatchMeansQueries(catalog: Catalog, store: Store, queries: seq<seq<AxisSelection>>, samples: seq<PlannerSample>,
                          outShape: seq<nat>, plan: Plan, i: nat, o: seq<nat>)
    requires PlanFor(catalog, samples, outShape, plan) && Decodes(store, plan) && samples != [] && outShape != []
    requires |queries| == |samples| && forall j | 0 <= j < |samples| :: QueryOf(queries[j], samples[j], outShape)
    requires i < |samples| && InRange(o, outShape) && QueryOf(queries[i], samples[i], outShape)
    ensures Renderable(catalog, store, samples, outShape, plan)
    ensures var shape := BatchDims(|samples|, outShape);
            var meta := catalog.meta(samples[i].uri).meta;
            var g := WantedAt(queries[i], o);
            && Ravel(shape, [i] + o) < Size(shape)
            && Readable(meta) && |g| == |meta.chunk| && (forall d | 0 <= d < |g| :: g[d] >= 0)
            && Expected(catalog, store, samples, outShape, plan, Ravel(shape, [i] + o))
               == store.convert(samples[i].uri)(ArrayElement(catalog, store, samples[i].uri, meta, g))
  {
    hide PlanFor, AxisOk, CopyOf, Ravel, Unravel, ArrayElement;
    var shape := BatchDims(|samples|, outShape);
    forall j | 0 <= j < |samples| ensures AxesOk(samples[j].axes, outShape) {
      assert QueryOf(queries[j], samples[j], outShape);
      WantedIsSource(queries[j], samples[j], outShape, o);
    }
    SampleArray(catalog, store, samples, outShape, plan, i);
    WantedIsSource(queries[i], samples[i], outShape, o);
    var c := [i] + o;
    assert InRange(c, shape) by {
      forall d | 0 <= d < |c| ensures c[d] < shape[d] {
        if d > 0 { assert o[d - 1] < outShape[d - 1]; }
      }
    }
    RavelBound(shape, c);
    UnravelRavel(shape, c);
    assert c[1..] == o;
  }
}
