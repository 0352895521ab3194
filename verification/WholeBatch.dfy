/** One batch from its queries to its tensor: copying the queries, planning, and assembling the decoded
    chunks in whatever order they come. */
module WholeBatch {
  import opened Statuses
  import opened Odometer
  import opened Selection
  import opened SelectionGrids
  import opened ChunkTables
  import opened PlanBuilder
  import opened Tensor
  import opened Assemble
  import opened BatchRender

  /** Selections as the caller's 64-bit integers can state them. */
  ghost predicate QueryFits(query: seq<AxisSelection>) {
    forall d | 0 <= d < |query| :: query[d].Interval? ==> query[d].end <= I64_MAX
  }

  ghost predicate QueryValid(query: seq<AxisSelection>) {
    0 < |query| <= MAX_RANK && forall d | 0 <= d < |query| :: ValidSelection(query[d])
  }

  /** Every stored chunk of a known array decodes to the chunk's full size. */
  ghost predicate StoreOk(catalog: Catalog, store: Store) {
    forall l: Location | l.Stored? && catalog.meta(l.uri).MetaReady? ::
      |store.decode(l)| == Size(catalog.meta(l.uri).meta.chunk)
  }

  /** An order in which n chunks may be decoded. */
  ghost predicate Covers(order: seq<nat>, n: nat) {
    (forall j | 0 <= j < |order| :: order[j] < n) && forall k: nat | k < n :: k in order
  }

  ghost predicate Copied(query: seq<AxisSelection>, uri: string, nShards: nat, sample: PlannerSample) {
    && sample.uri == uri && sample.nShards == nShards && |sample.axes| == |query|
    && forall d | 0 <= d < |query| :: CopyOf(query[d], sample.axes[d])
  }

  lemma CopiedSorted(query: seq<AxisSelection>, uri: string, nShards: nat, sample: PlannerSample)
    requires Copied(query, uri, nShards, sample) && QueryFits(query)
    ensures SampleSorted(sample)
  {
    forall d | 0 <= d < |query| ensures AxisSorted(sample.axes[d]) {
      CopyMeansQuery(query[d], sample.axes[d]);
    }
  }

  /** A sample that fits the batch asks for exactly as many elements as the batch has room for. */
  lemma CopiedIsQuery(query: seq<AxisSelection>, uri: string, nShards: nat, sample: PlannerSample, meta: ZarrMeta,
                      outShape: seq<nat>)
    requires Copied(query, uri, nShards, sample) && QueryFits(query) && Fits(sample, meta, outShape)
    ensures QueryOf(query, sample, outShape)
  {
    forall d | 0 <= d < |query| ensures Extent(query[d]) == outShape[d] {
      assert AxisFits(sample.axes[d], meta.shape[d], meta.chunk[d], outShape[d]);
      assert CopyOf(query[d], sample.axes[d]);
    }
  }

  lemma StoreDecodes(catalog: Catalog, store: Store, samples: seq<PlannerSample>, outShape: seq<nat>, plan: Plan)
    requires StoreOk(catalog, store) && PlanFor(catalog, samples, outShape, plan)
    ensures Decodes(store, plan)
  {
    hide KeysDistinct, UsesOk, Pairs, PlannedUses, Walkable, RegionsOk, AllUsed, AllAdmitted, MetaTiles;
    forall k | 0 <= k < |plan.chunks|
      ensures plan.chunks[k].source < |plan.metas|
      ensures plan.chunks[k].location.Stored? ==>
                |store.decode(plan.chunks[k].location)| == Size(plan.metas[plan.chunks[k].source].chunk)
    {
      var c := plan.chunks[k];
      assert Located(catalog, plan.uris, plan.metas, c.source, c.coordinate, c.location);
      assert catalog.meta(plan.uris[c.source]) == MetaReady(plan.metas[c.source]);
    }
  }

  /** Copies the queries of a batch. */
  method CopyQueries(queries: seq<seq<AxisSelection>>, uris: seq<string>, nShards: seq<nat>)
    returns (status: Status, samples: seq<PlannerSample>)
    requires |queries| == |uris| == |nShards|
    ensures status == OK <==> forall i | 0 <= i < |queries| :: QueryValid(queries[i])
    ensures status == OK || status == INVAL
    ensures status == OK ==>
              |samples| == |queries| && forall i | 0 <= i < |queries| ::
                Copied(queries[i], uris[i], nShards[i], samples[i])
  {
    samples := [];
    for i := 0 to |queries|
      invariant |samples| == i && forall k | 0 <= k < i :: QueryValid(queries[k])
      invariant forall k | 0 <= k < i :: Copied(queries[k], uris[k], nShards[k], samples[k])
    {
      var axes;
      status, axes := QueryCopy(queries[i]);
      if status != OK { return; }
      samples := samples + [PlannerSample(uris[i], axes, nShards[i])];
    }
    return OK, samples;
  }

  /** Row i, position o of the batch is the converted element of array i that query i names at o. */
  ghost predicate HoldsQueries(catalog: Catalog, store: Store, queries: seq<seq<AxisSelection>>, uris: seq<string>,
                               outShape: seq<nat>, data: seq<int>)
    requires |uris| == |queries|
  {
    && |data| == Size(BatchDims(|queries|, outShape))
    && forall i: nat, o: seq<nat> | i < |queries| && InRange(o, outShape) ::
         HoldsAt(catalog, store, queries, uris, outShape, data, i, o)
  }

  ghost predicate HoldsAt(catalog: Catalog, store: Store, queries: seq<seq<AxisSelection>>, uris: seq<string>,
                          outShape: seq<nat>, data: seq<int>, i: nat, o: seq<nat>)
    requires |uris| == |queries| && i < |queries| && InRange(o, outShape)
  {
    var x := Ravel(BatchDims(|queries|, outShape), [i] + o);
    && |queries[i]| == |outShape| && (forall d | 0 <= d < |o| :: o[d] < Extent(queries[i][d]))
    && catalog.meta(uris[i]).MetaReady?
    && var meta := catalog.meta(uris[i]).meta;
       var g := WantedAt(queries[i], o);
       && x < |data| && Readable(meta) && |g| == |meta.chunk| && (forall d | 0 <= d < |g| :: g[d] >= 0)
       && data[x] == store.convert(uris[i])(ArrayElement(catalog, store, uris[i], meta, g))
  }

  lemma PlanHolds(catalog: Catalog, store: Store, queries: seq<seq<AxisSelection>>, uris: seq<string>,
                  nShards: seq<nat>,
                  samples: seq<PlannerSample>, outShape: seq<nat>, plan: Plan, data: seq<int>, i: nat, o: seq<nat>)
    requires |queries| == |uris| == |nShards| == |samples| && samples != [] && outShape != []
    requires forall j | 0 <= j < |queries| ::
               QueryFits(queries[j]) && Copied(queries[j], uris[j], nShards[j], samples[j])
    requires PlanFor(catalog, samples, outShape, plan) && Renderable(catalog, store, samples, outShape, plan)
    requires |data| == Size(BatchDims(|samples|, outShape))
    requires forall x: nat | x < |data| :: data[x] == Expected(catalog, store, samples, outShape, plan, x)
    requires i < |queries| && InRange(o, outShape)
    ensures HoldsAt(catalog, store, queries, uris, outShape, data, i, o)
  {
    hide PlanFor, Renderable, Expected, ArrayElement, CopyOf, Ravel, WantedAt;
    PlanQueries(catalog, queries, uris, nShards, samples, outShape, plan);
    RenderableDecodes(catalog, store, samples, outShape, plan);
    SampleArray(catalog, store, samples, outShape, plan, i);
    BatchMeansQueries(catalog, store, queries, samples, outShape, plan, i, o);
  }

  lemma RenderableDecodes(catalog: Catalog, store: Store, samples: seq<PlannerSample>, outShape: seq<nat>, plan: Plan)
    requires Renderable(catalog, store, samples, outShape, plan)
    ensures Decodes(store, plan)
  {
  }

  lemma PlanQueries(catalog: Catalog, queries: seq<seq<AxisSelection>>, uris: seq<string>, nShards: seq<nat>,
                    samples: seq<PlannerSample>, outShape: seq<nat>, plan: Plan)
    requires |queries| == |uris| == |nShards| == |samples| && PlanFor(catalog, samples, outShape, plan)
    requires forall j | 0 <= j < |queries| ::
               QueryFits(queries[j]) && Copied(queries[j], uris[j], nShards[j], samples[j])
    ensures forall j | 0 <= j < |queries| :: QueryOf(queries[j], samples[j], outShape)
  {
    hide KeysDistinct, UsesOk, Pairs, PlannedUses, Walkable, RegionsOk, AllUsed, AllLocated, ArraysOk, Copied, Fits,
         QueryOf;
    forall j | 0 <= j < |queries| ensures QueryOf(queries[j], samples[j], outShape) {
      assert Admitted(catalog, samples[j], outShape);
      CopiedIsQuery(queries[j], uris[j], nShards[j], samples[j], catalog.meta(samples[j].uri).meta, outShape);
    }
  }

  /** From queries to tensor. It succeeds exactly if all queries are valid and the batch can be planned, and the
      tensor then holds what the queries ask for, whatever the order in which chunks are decoded. */
  method LoadBatch(hash: (nat, seq<nat>) -> nat, catalog: Catalog, store: Store, limits: Limits, order: nat -> seq<nat>,
                   queries: seq<seq<AxisSelection>>, uris: seq<string>, nShards: seq<nat>, outShape: seq<nat>)
    returns (status: Status, buffer: array<int>, ghost samples: seq<PlannerSample>)
    requires |queries| == |uris| == |nShards| && CatalogOk(catalog) && StoreOk(catalog, store)
    requires (forall i | 0 <= i < |queries| :: QueryFits(queries[i])) && forall n: nat :: Covers(order(n), n)
    ensures (forall i | 0 <= i < |queries| :: QueryValid(queries[i])) ==>
              |samples| == |queries| && forall i | 0 <= i < |queries| ::
                Copied(queries[i], uris[i], nShards[i], samples[i])
    ensures status == OK <==>
              (forall i | 0 <= i < |queries| :: QueryValid(queries[i])) && Plannable(catalog, samples, outShape, limits)
    ensures status == OK ==> HoldsQueries(catalog, store, queries, uris, outShape, buffer[..])
    ensures (exists i :: 0 <= i < |queries| && !QueryValid(queries[i])) ==> status == INVAL
    ensures (forall i | 0 <= i < |queries| :: QueryValid(queries[i])) && status != OK ==>
              PlanFault(catalog, samples, outShape, limits, status)
  {
    hide QueryValid, Copied, Plannable, PlanFault, PlanFor, QueryFits, SampleSorted, Renderable, Covers,
         HoldsAt, StridesOf;
    buffer := new int[0];
    var copies;
    status, copies := CopyQueries(queries, uris, nShards);
    samples := copies;
    if status != OK { return; }
    forall i | 0 <= i < |copies| ensures SampleSorted(copies[i]) {
      CopiedSorted(queries[i], uris[i], nShards[i], copies[i]);
    }
    var plan;
    status, plan := PreparedPlanBuild(hash, catalog, copies, outShape, limits);
    if status != OK { return; }
    NotEmpty(catalog, copies, outShape, limits);
    StoreDecodes(catalog, store, copies, outShape, plan);
    MakeRenderable(catalog, store, queries, uris, nShards, copies, outShape, plan);
    var shape := BatchDims(|copies|, outShape);
    var strides := Strides(shape);
    buffer := new int[Size(shape)](_ => 0);
    CoversAll(order, |plan.chunks|);
    RenderBatch(buffer, store, plan, strides, order(|plan.chunks|), catalog, copies, outShape);
    forall i: nat, o: seq<nat> | i < |queries| && InRange(o, outShape)
      ensures HoldsAt(catalog, store, queries, uris, outShape, buffer[..], i, o)
    {
      PlanHolds(catalog, store, queries, uris, nShards, copies, outShape, plan, buffer[..], i, o);
    }
  }

  lemma CoversAll(order: nat -> seq<nat>, n: nat)
    requires forall k: nat :: Covers(order(k), k)
    ensures (forall j | 0 <= j < |order(n)| :: order(n)[j] < n) && forall k: nat | k < n :: k in order(n)
  {
    assert Covers(order(n), n);
  }

  lemma NotEmpty(catalog: Catalog, samples: seq<PlannerSample>, outShape: seq<nat>, limits: Limits)
    requires Plannable(catalog, samples, outShape, limits)
    ensures samples != [] && outShape != []
  {
  }

  lemma MakeRenderable(catalog: Catalog, store: Store, queries: seq<seq<AxisSelection>>, uris: seq<string>,
                       nShards: seq<nat>,
                       samples: seq<PlannerSample>, outShape: seq<nat>, plan: Plan)
    requires |queries| == |uris| == |nShards| == |samples| && samples != [] && outShape != []
    requires forall j | 0 <= j < |queries| ::
               QueryFits(queries[j]) && Copied(queries[j], uris[j], nShards[j], samples[j])
    requires PlanFor(catalog, samples, outShape, plan) && Decodes(store, plan)
    ensures Renderable(catalog, store, samples, outShape, plan)
  {
    hide PlanFor, Copied, AxisOk, CopyOf, Decodes;
    PlanQueries(catalog, queries, uris, nShards, samples, outShape, plan);
    forall j | 0 <= j < |samples| ensures AxesOk(samples[j].axes, outShape) {
      assert QueryOf(queries[j], samples[j], outShape);
      forall d | 0 <= d < |outShape| ensures AxisOk(samples[j].axes[d], outShape[d]) {
        CopyMeansQuery(queries[j][d], samples[j].axes[d]);
      }
    }
  }
}
