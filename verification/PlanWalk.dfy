/** Walking touched shards and then the touched chunks inside each shard visits the
    same chunks as walking the chunk grid directly. */
module PlanWalk {
  import opened Statuses
  import opened Odometer
  import opened Selection
  import opened SelectionGrids
  import opened Seqs
  import opened Arith

  /** Chunks per shard tile each shard. */
  ghost predicate Tiles(chunk: seq<nat>, shard: seq<nat>, per: seq<nat>) {
    && |chunk| == |shard| == |per|
    && forall d | 0 <= d < |chunk| :: chunk[d] > 0 && per[d] > 0 && shard[d] == chunk[d] * per[d]
  }

  function ShardBegin(s: seq<nat>, per: seq<nat>): (r: seq<nat>)
    requires |s| == |per|
    ensures |r| == |s|
  {
    seq(|s|, d requires 0 <= d < |s| => s[d] * per[d])
  }

  function ShardEnd(s: seq<nat>, per: seq<nat>): (r: seq<nat>)
    requires |s| == |per|
    ensures |r| == |s|
  {
    seq(|s|, d requires 0 <= d < |s| => s[d] * per[d] + per[d])
  }

  function ShardClip(s: seq<nat>, per: seq<nat>): Option<Clip>
    requires |s| == |per|
  {
    Some(Clip(ShardBegin(s, per), ShardEnd(s, per)))
  }

  ghost predicate WalkInputs(query: seq<QueryAxis>, chunk: seq<nat>, shard: seq<nat>, per: seq<nat>) {
    && |query| == |chunk| && Tiles(chunk, shard, per)
    && DimsOk(query, chunk) && DimsOk(query, shard)
  }

  ghost function ShardPart(query: seq<QueryAxis>, chunk: seq<nat>, per: seq<nat>, s: seq<nat>): seq<seq<nat>>
    requires DimsOk(query, chunk) && |s| == |per| == |query|
  {
    Product(TouchedLists(query, chunk, ShardClip(s, per)))
  }

  /** The chunks visited while walking the given shards in order. */
  ghost function Walk(query: seq<QueryAxis>, chunk: seq<nat>, per: seq<nat>, shards: seq<seq<nat>>): seq<seq<nat>>
    requires DimsOk(query, chunk) && |per| == |query|
    requires forall i | 0 <= i < |shards| :: |shards[i]| == |query|
  {
    if shards == [] then [] else ShardPart(query, chunk, per, shards[0]) + Walk(query, chunk, per, shards[1..])
  }

  ghost predicate TouchesAll(query: seq<QueryAxis>, chunk: seq<nat>, c: seq<nat>)
    requires DimsOk(query, chunk)
  {
    |c| == |query| && forall d | 0 <= d < |c| :: Touches(query[d], chunk[d], c[d])
  }

  lemma {:induction false} SubsetShorter(s: seq<nat>, t: seq<nat>)
    requires Increasing(s) && Increasing(t) && forall i | 0 <= i < |s| :: s[i] in t
    ensures |s| <= |t|
    decreases |s|
  {
    if s != [] {
      var j :| 0 <= j < |t| && t[j] == s[0];
      forall i | 0 <= i < |s| - 1 ensures s[1..][i] in t[j + 1..] {
        var k :| 0 <= k < |t| && t[k] == s[i + 1];
        assert t[j + 1..][k - j - 1] == t[k];
      }
      SubsetShorter(s[1..], t[j + 1..]);
    }
  }

  lemma {:induction false} LengthProductMono(a: seq<nat>, b: seq<nat>)
    requires |a| == |b| && forall d | 0 <= d < |a| :: a[d] <= b[d]
    ensures LengthProduct(a) <= LengthProduct(b)
    decreases |a|
  {
    if a != [] {
      LengthProductMono(a[1..], b[1..]);
      MulMono(a[0], b[0], LengthProduct(a[1..]));
      MulMono(LengthProduct(a[1..]), LengthProduct(b[1..]), b[0]);
    }
  }

  /** Clipping never touches more cells on an axis. */
  lemma ClippedShorter(axis: QueryAxis, size: nat, clip: Option<Clip>, d: nat)
    requires DimOk(axis, size) && AxisSorted(axis)
    requires clip.Some? ==> d < |clip.value.beg| && d < |clip.value.end|
    ensures |TouchedOn(axis, size, clip, d)| <= |TouchedOn(axis, size, None, d)|
  {
    if clip.Some? {
      var lo, hi := clip.value.beg[d], clip.value.end[d];
      TouchedSpec(axis, size, lo, hi);
      TouchedSpec(axis, size, 0, CellEnd(axis, size));
      var clipped, all := Touched(axis, size, lo, hi), Touched(axis, size, 0, CellEnd(axis, size));
      forall i | 0 <= i < |clipped| ensures clipped[i] in all {
        assert clipped[i] in clipped;
        var x: nat :| Selects(axis, x) && x / size == clipped[i];
        DivMono(x, axis.end - 1, size);
      }
      SubsetShorter(clipped, all);
    }
  }

  /** A selection within the cell budget stays within it in every shard. */
  lemma ClipWithinBudget(query: seq<QueryAxis>, shape: seq<nat>, clip: Option<Clip>, maxCells: nat)
    requires DimsOk(query, shape) && ClipOk(clip, |query|) && forall d | 0 <= d < |query| :: AxisSorted(query[d])
    requires WithinBudget(query, shape, None, maxCells)
    ensures WithinBudget(query, shape, clip, maxCells)
  {
    var clipped, all := Lengths(TouchedLists(query, shape, clip)), Lengths(TouchedLists(query, shape, None));
    forall d | 0 <= d < |query| ensures clipped[d] <= all[d] { ClippedShorter(query[d], shape[d], clip, d); }
    forall k | 0 < k <= |query| ensures LengthProduct(clipped[..k]) <= maxCells {
      LengthProductMono(clipped[..k], all[..k]);
    }
  }

  /** The unclipped grid holds exactly the touched cells. */
  lemma GridMembers(query: seq<QueryAxis>, chunk: seq<nat>, c: seq<nat>)
    requires DimsOk(query, chunk) && forall d | 0 <= d < |query| :: AxisSorted(query[d])
    ensures c in Product(TouchedLists(query, chunk, None)) <==> TouchesAll(query, chunk, c)
  {
    var lists := TouchedLists(query, chunk, None);
    ProductMembers(lists, c);
    forall d | 0 <= d < |query| && d < |c| ensures c[d] in lists[d] <==> Touches(query[d], chunk[d], c[d]) {
      TouchedSpec(query[d], chunk[d], 0, CellEnd(query[d], chunk[d]));
      if Touches(query[d], chunk[d], c[d]) {
        var x: nat :| Selects(query[d], x) && x / chunk[d] == c[d];
        DivMono(x, query[d].end - 1, chunk[d]);
      }
    }
  }

  lemma ClippedCell(axis: QueryAxis, size: nat, per: nat, s: nat, c: nat)
    requires size > 0 && per > 0
    ensures c in Touched(axis, size, s * per, s * per + per) <==> c / per == s && Touches(axis, size, c)
  {
    TouchedSpec(axis, size, s * per, s * per + per);
    DivGalois(s, c, per);
    DivGalois(s + 1, c, per);
    assert (s + 1) * per == s * per + per;
  }

  /** The grid clipped to shard `s` holds exactly the touched chunks that lie in `s`. */
  lemma PartMembers(query: seq<QueryAxis>, chunk: seq<nat>, shard: seq<nat>, per: seq<nat>, s: seq<nat>, c: seq<nat>)
    requires WalkInputs(query, chunk, shard, per) && |s| == |query|
    ensures c in ShardPart(query, chunk, per, s) <==> TouchesAll(query, chunk, c) && CellOf(c, per) == s
  {
    hide Touched, Touches, Product;
    var lists := TouchedLists(query, chunk, ShardClip(s, per));
    ProductMembers(lists, c);
    if |c| == |query| {
      forall d | 0 <= d < |c|
        ensures c[d] in lists[d] <==> CellOf(c, per)[d] == s[d] && Touches(query[d], chunk[d], c[d])
      {
        ClippedCell(query[d], chunk[d], per[d], s[d], c[d]);
        assert lists[d] == Touched(query[d], chunk[d], s[d] * per[d], s[d] * per[d] + per[d]);
      }
    }
  }

  ghost predicate AllRank(cs: seq<seq<nat>>, rank: nat) {
    forall i | 0 <= i < |cs| :: |cs[i]| == rank
  }

  lemma {:induction false} WalkMembers(query: seq<QueryAxis>, chunk: seq<nat>, shard: seq<nat>, per: seq<nat>,
                                       shards: seq<seq<nat>>)
    requires WalkInputs(query, chunk, shard, per) && AllRank(shards, |query|) && Distinct(shards)
    ensures forall c ::
              c in Walk(query, chunk, per, shards) <==> TouchesAll(query, chunk, c) && CellOf(c, per) in shards
    ensures Distinct(Walk(query, chunk, per, shards))
    decreases |shards|
  {
    if shards != [] {
      var part, rest := ShardPart(query, chunk, per, shards[0]), Walk(query, chunk, per, shards[1..]);
      WalkMembers(query, chunk, shard, per, shards[1..]);
      forall c ensures c in part <==> TouchesAll(query, chunk, c) && CellOf(c, per) == shards[0] {
        PartMembers(query, chunk, shard, per, shards[0], c);
      }
      PartDistinct(query, chunk, per, shards[0]);
      DistinctAppend(part, rest);
    }
  }

  lemma ListsIncreasing(query: seq<QueryAxis>, chunk: seq<nat>, clip: Option<Clip>)
    requires DimsOk(query, chunk) && ClipOk(clip, |query|)
    ensures LexIncreasing(Product(TouchedLists(query, chunk, clip)), |query|)
    ensures Distinct(Product(TouchedLists(query, chunk, clip)))
  {
    var lists := TouchedLists(query, chunk, clip);
    forall d | 0 <= d < |lists| ensures Increasing(lists[d]) {
      match clip {
        case None => TouchedSpec(query[d], chunk[d], 0, CellEnd(query[d], chunk[d]));
        case Some(c) => TouchedSpec(query[d], chunk[d], c.beg[d], c.end[d]);
      }
    }
    ProductLex(lists);
    LexIncreasingDistinct(Product(lists), |query|);
  }

  ghost predicate InClip(clip: Option<Clip>, c: seq<nat>) {
    clip.Some? ==>
      && |clip.value.beg| == |clip.value.end| == |c|
      && forall d | 0 <= d < |c| :: clip.value.beg[d] <= c[d] < clip.value.end[d]
  }

  /** What a selection grid yields: exactly the touched cells inside the clip, each once, in
      strict lexicographic order. */
  lemma GridYields(query: seq<QueryAxis>, chunk: seq<nat>, clip: Option<Clip>, c: seq<nat>)
    requires DimsOk(query, chunk) && ClipOk(clip, |query|) && forall d | 0 <= d < |query| :: AxisSorted(query[d])
    ensures c in Product(TouchedLists(query, chunk, clip)) <==> TouchesAll(query, chunk, c) && InClip(clip, c)
    ensures LexIncreasing(Product(TouchedLists(query, chunk, clip)), |query|)
    ensures Distinct(Product(TouchedLists(query, chunk, clip)))
  {
    hide Touched, Touches, Product, AxisSorted;
    ListsIncreasing(query, chunk, clip);
    if clip.None? {
      GridMembers(query, chunk, c);
    } else {
      var lists, beg, end := TouchedLists(query, chunk, clip), clip.value.beg, clip.value.end;
      ProductMembers(lists, c);
      if |c| == |query| {
        forall d | 0 <= d < |c|
          ensures c[d] in lists[d] <==> beg[d] <= c[d] < end[d] && Touches(query[d], chunk[d], c[d])
        {
          TouchedSpec(query[d], chunk[d], beg[d], end[d]);
          assert lists[d] == Touched(query[d], chunk[d], beg[d], end[d]);
        }
      }
    }
  }

  lemma PartDistinct(query: seq<QueryAxis>, chunk: seq<nat>, per: seq<nat>, s: seq<nat>)
    requires DimsOk(query, chunk) && |s| == |per| == |query|
    ensures Distinct(ShardPart(query, chunk, per, s))
  {
    ListsIncreasing(query, chunk, ShardClip(s, per));
  }

  /** A touched chunk lies in a touched shard. */
  lemma ShardTouched(query: seq<QueryAxis>, chunk: seq<nat>, shard: seq<nat>, per: seq<nat>, c: seq<nat>)
    requires WalkInputs(query, chunk, shard, per) && TouchesAll(query, chunk, c)
    ensures TouchesAll(query, shard, CellOf(c, per))
  {
    var s := CellOf(c, per);
    forall d | 0 <= d < |c| ensures Touches(query[d], shard[d], s[d]) {
      var x: nat :| Selects(query[d], x) && x / chunk[d] == c[d];
      DivDiv(x, chunk[d], per[d]);
      assert x / shard[d] == s[d];
    }
  }

  ghost function TwoLevel(query: seq<QueryAxis>, chunk: seq<nat>, shard: seq<nat>, per: seq<nat>): seq<seq<nat>>
    requires WalkInputs(query, chunk, shard, per)
  {
    var shards := Product(TouchedLists(query, shard, None));
    assert AllRank(shards, |query|) by { ListsIncreasing(query, shard, None); }
    Walk(query, chunk, per, shards)
  }

  /** The two-level walk visits each chunk of the direct grid exactly once. */
  lemma TwoLevelIsDirect(query: seq<QueryAxis>, chunk: seq<nat>, shard: seq<nat>, per: seq<nat>)
    requires WalkInputs(query, chunk, shard, per) && forall d | 0 <= d < |query| :: AxisSorted(query[d])
    ensures var direct := Product(TouchedLists(query, chunk, None));
            var walk := TwoLevel(query, chunk, shard, per);
            && Distinct(walk) && multiset(walk) == multiset(direct) && |walk| == |direct|
            && (forall c :: c in walk <==> TouchesAll(query, chunk, c))
  {
    var shards, direct := Product(TouchedLists(query, shard, None)), Product(TouchedLists(query, chunk, None));
    ListsIncreasing(query, shard, None);
    ListsIncreasing(query, chunk, None);
    WalkMembers(query, chunk, shard, per, shards);
    var walk := TwoLevel(query, chunk, shard, per);
    forall c ensures c in walk <==> TouchesAll(query, chunk, c) {
      if TouchesAll(query, chunk, c) {
        ShardTouched(query, chunk, shard, per, c);
        GridMembers(query, shard, CellOf(c, per));
      }
    }
    forall c ensures c in walk <==> c in direct { GridMembers(query, chunk, c); }
    DistinctSameMembers(walk, direct);
  }

  lemma {:induction false} WalkSplit(query: seq<QueryAxis>, chunk: seq<nat>, per: seq<nat>, shards: seq<seq<nat>>,
                                     n: nat)
    requires DimsOk(query, chunk) && |per| == |query| && AllRank(shards, |query|) && n < |shards|
    ensures |shards[n]| == |query| && AllRank(shards[..n], |query|) && AllRank(shards[..n + 1], |query|)
    ensures Walk(query, chunk, per, shards[..n + 1]) ==
            Walk(query, chunk, per, shards[..n]) + ShardPart(query, chunk, per, shards[n])
    ensures |Walk(query, chunk, per, shards[..n + 1])| <= |Walk(query, chunk, per, shards)|
    decreases |shards|
  {
    hide DimsOk, ShardPart;
    if n == 0 {
      assert shards[..1][1..] == shards[..0] == [];
    } else {
      WalkSplit(query, chunk, per, shards[1..], n - 1);
      assert shards[..n][1..] == shards[1..][..n - 1];
      assert shards[..n + 1][1..] == shards[1..][..n];
    }
  }
}
