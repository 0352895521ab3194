/** The planner's open-addressed table of plan chunks, and the use chains
    threaded through the plan's use list. */
module ChunkTables {
  import opened Statuses
  import opened Seqs
  import opened Arith

  /** Where a chunk's bytes are: nowhere (fill value), or a byte range of a shard file. */
  datatype Location = Missing | Stored(uri: string, shard: seq<nat>, offset: nat, nbytes: nat)

  datatype PlanChunk = PlanChunk(source: nat, coordinate: seq<nat>, location: Location, firstUse: Option<nat>)

  datatype PlanUse = PlanUse(chunk: nat, region: nat, next: Option<nat>)

  ghost predicate KeyIs(c: PlanChunk, source: nat, coordinate: seq<nat>) {
    c.source == source && c.coordinate == coordinate
  }

  // --- Open addressing ------------------------------------------------------------------

  ghost predicate KeysDistinct(chunks: seq<PlanChunk>) {
    forall i, j | 0 <= i < j < |chunks| :: !KeyIs(chunks[i], chunks[j].source, chunks[j].coordinate)
  }

  /** The bucket `m` steps after `home`, wrapping around. */
  function Bucket(n: nat, home: nat, m: nat): (b: nat)
    requires n > 0
    ensures b < n
  {
    (home + m) % n
  }

  /** Walking from `home` meets `mark` before any empty bucket. */
  ghost predicate Reaches(t: seq<nat>, home: nat, steps: nat, mark: nat)
    requires |t| > 0
  {
    && steps < |t|
    && t[Bucket(|t|, home, steps)] == mark
    && forall m: nat | m < steps :: t[Bucket(|t|, home, m)] != 0
  }

  ghost predicate Placed(t: seq<nat>, home: nat, mark: nat)
    requires |t| > 0
  {
    exists steps: nat :: Reaches(t, home, steps, mark)
  }

  ghost predicate MarksOk(t: seq<nat>, n: nat) {
    && (forall b | 0 <= b < |t| :: t[b] <= n)
    && (forall a, b | 0 <= a < b < |t| :: t[a] != 0 ==> t[a] != t[b])
  }

  function Home(hash: (nat, seq<nat>) -> nat, n: nat, source: nat, coordinate: seq<nat>): nat
    requires n > 0
  {
    hash(source, coordinate) % n
  }

  ghost predicate TableOk(t: seq<nat>, chunks: seq<PlanChunk>, hash: (nat, seq<nat>) -> nat) {
    && |t| > 0 && MarksOk(t, |chunks|) && KeysDistinct(chunks)
    && forall i | 0 <= i < |chunks| :: Placed(t, Home(hash, |t|, chunks[i].source, chunks[i].coordinate), i + 1)
  }

  lemma Wraps(home: nat, b: nat, n: nat)
    requires home < n && b < n
    ensures exists m: nat :: m < n && Bucket(n, home, m) == b
  {
    var m := if b >= home then b - home else b + n - home;
    DivUnique(home + m, n, if b >= home then 0 else 1);
    assert m < n && Bucket(n, home, m) == b;
  }

  /** A table with more buckets than marks has an empty bucket on every full walk. */
  lemma NotAllFull(t: seq<nat>, n: nat, home: nat)
    requires MarksOk(t, n) && n < |t| && home < |t|
    ensures exists m: nat :: m < |t| && t[Bucket(|t|, home, m)] == 0
  {
    if forall m: nat | m < |t| :: t[Bucket(|t|, home, m)] != 0 {
      forall b | 0 <= b < |t| ensures t[b] != 0 { Wraps(home, b, |t|); }
      Pigeonhole(seq(|t|, b requires 0 <= b < |t| => (t[b] - 1) as nat), n);
      assert false;
    }
  }

  lemma AddMod(home: nat, k: nat, n: nat)
    requires n > 0
    ensures (Bucket(n, home, k) + 1) % n == Bucket(n, home, k + 1)
  {
    DivBounds(home + k, n);
    var q, r := (home + k) / n, (home + k) % n;
    if r + 1 == n {
      DivUnique(r + 1, n, 1);
      DivUnique(home + k + 1, n, q + 1);
    } else {
      DivUnique(r + 1, n, 0);
      DivUnique(home + k + 1, n, q);
    }
  }

  /** The first k buckets after `home` are occupied by other keys. */
  ghost predicate Passed(t: seq<nat>, chunks: seq<PlanChunk>, home: nat, source: nat, coordinate: seq<nat>, k: nat)
    requires |t| > 0 && MarksOk(t, |chunks|)
  {
    forall m: nat | m < k :: Other(t, chunks, Bucket(|t|, home, m), source, coordinate)
  }

  ghost predicate Other(t: seq<nat>, chunks: seq<PlanChunk>, b: nat, source: nat, coordinate: seq<nat>)
    requires b < |t| && MarksOk(t, |chunks|)
  {
    t[b] != 0 && !KeyIs(chunks[t[b] - 1], source, coordinate)
  }

  /** Stopping at an empty bucket means the key is nowhere in the table. */
  lemma EmptyMeansAbsent(t: seq<nat>, chunks: seq<PlanChunk>, hash: (nat, seq<nat>) -> nat,
                         source: nat, coordinate: seq<nat>, k: nat)
    requires TableOk(t, chunks, hash)
    requires var home := Home(hash, |t|, source, coordinate);
             t[Bucket(|t|, home, k)] == 0 && Passed(t, chunks, home, source, coordinate, k)
    ensures forall i | 0 <= i < |chunks| :: !KeyIs(chunks[i], source, coordinate)
  {
    var home := Home(hash, |t|, source, coordinate);
    forall i | 0 <= i < |chunks| ensures !KeyIs(chunks[i], source, coordinate) {
      assert Placed(t, Home(hash, |t|, chunks[i].source, chunks[i].coordinate), i + 1);
      if Home(hash, |t|, chunks[i].source, chunks[i].coordinate) == home {
        var steps: nat :| Reaches(t, home, steps, i + 1);
        NotPassedTwice(t, chunks, home, source, coordinate, k, i, steps);
      }
    }
  }

  /** A chunk reached from `home` is either passed on the way to the empty bucket or has another key. */
  lemma NotPassedTwice(t: seq<nat>, chunks: seq<PlanChunk>, home: nat, source: nat, coordinate: seq<nat>, k: nat,
                       i: nat, steps: nat)
    requires |t| > 0 && MarksOk(t, |chunks|) && i < |chunks| && Reaches(t, home, steps, i + 1)
    requires t[Bucket(|t|, home, k)] == 0 && Passed(t, chunks, home, source, coordinate, k)
    ensures !KeyIs(chunks[i], source, coordinate)
  {
    assert steps < k;
    assert Other(t, chunks, Bucket(|t|, home, steps), source, coordinate);
  }

  lemma InsertKeepsTable(t: seq<nat>, chunks: seq<PlanChunk>, hash: (nat, seq<nat>) -> nat, chunk: PlanChunk, k: nat)
    requires TableOk(t, chunks, hash) && k < |t|
    requires forall i | 0 <= i < |chunks| :: !KeyIs(chunks[i], chunk.source, chunk.coordinate)
    requires var home := Home(hash, |t|, chunk.source, chunk.coordinate);
             && t[Bucket(|t|, home, k)] == 0
             && forall m: nat | m < k :: t[Bucket(|t|, home, m)] != 0
    ensures var b := Bucket(|t|, Home(hash, |t|, chunk.source, chunk.coordinate), k);
            TableOk(t[b := |chunks| + 1], chunks + [chunk], hash)
  {
    var n := |chunks|;
    var home := Home(hash, |t|, chunk.source, chunk.coordinate);
    var b := Bucket(|t|, home, k);
    var t', more := t[b := n + 1], chunks + [chunk];
    forall i | 0 <= i < |more| ensures Placed(t', Home(hash, |t|, more[i].source, more[i].coordinate), i + 1) {
      if i == n {
        assert Reaches(t', home, k, n + 1);
      } else {
        var h := Home(hash, |t|, chunks[i].source, chunks[i].coordinate);
        var steps: nat :| Reaches(t, h, steps, i + 1);
        assert Reaches(t', h, steps, i + 1);
      }
    }
  }

  /** Changing use heads touches neither keys nor placement. */
  lemma SameKeysKeepTable(t: seq<nat>, chunks: seq<PlanChunk>, after: seq<PlanChunk>, hash: (nat, seq<nat>) -> nat)
    requires TableOk(t, chunks, hash) && |after| == |chunks|
    requires forall i | 0 <= i < |chunks| :: KeyIs(after[i], chunks[i].source, chunks[i].coordinate)
    ensures TableOk(t, after, hash)
  {
  }

  // --- Use chains -----------------------------------------------------------------------

  ghost predicate ChainsDown(uses: seq<PlanUse>) {
    forall u | 0 <= u < |uses| :: uses[u].next.Some? ==> uses[u].next.value < u
  }

  /** The uses met by following `next` from `u`. */
  ghost function Chain(uses: seq<PlanUse>, u: Option<nat>): seq<nat>
    requires ChainsDown(uses) && (u.Some? ==> u.value < |uses|)
    decreases if u.Some? then u.value + 1 else 0
  {
    if u.None? then [] else [u.value] + Chain(uses, uses[u.value].next)
  }

  /** The uses of chunk `k`, newest first. */
  ghost function UsesOf(uses: seq<PlanUse>, k: nat): seq<nat> {
    if uses == [] then []
    else
      var n := |uses| - 1;
      (if uses[n].chunk == k then [n] else []) + UsesOf(uses[..n], k)
  }

  lemma {:induction false} UsesOfMembers(uses: seq<PlanUse>, k: nat)
    ensures Distinct(UsesOf(uses, k))
    ensures forall u :: u in UsesOf(uses, k) <==> 0 <= u < |uses| && uses[u].chunk == k
    decreases |uses|
  {
    if uses != [] {
      var n := |uses| - 1;
      UsesOfMembers(uses[..n], k);
      DistinctAppend(if uses[n].chunk == k then [n] else [], UsesOf(uses[..n], k));
    }
  }

  lemma {:induction false} ChainExtend(uses: seq<PlanUse>, use: PlanUse, u: Option<nat>)
    requires ChainsDown(uses) && ChainsDown(uses + [use]) && (u.Some? ==> u.value < |uses|)
    ensures Chain(uses + [use], u) == Chain(uses, u)
    decreases if u.Some? then u.value + 1 else 0
  {
    if u.Some? {
      ChainExtend(uses, use, uses[u.value].next);
    }
  }

  ghost predicate UsesOk(chunks: seq<PlanChunk>, uses: seq<PlanUse>) {
    && ChainsDown(uses)
    && (forall u | 0 <= u < |uses| :: uses[u].chunk < |chunks|)
    && (forall k | 0 <= k < |chunks| :: chunks[k].firstUse.Some? ==> chunks[k].firstUse.value < |uses|)
    && (forall k | 0 <= k < |chunks| :: Chain(uses, chunks[k].firstUse) == UsesOf(uses, k))
  }

  lemma ThreadUse(chunks: seq<PlanChunk>, uses: seq<PlanUse>, k: nat, region: nat)
    requires UsesOk(chunks, uses) && k < |chunks|
    ensures UsesOk(chunks[k := chunks[k].(firstUse := Some(|uses|))], uses + [PlanUse(k, region, chunks[k].firstUse)])
  {
    var use := PlanUse(k, region, chunks[k].firstUse);
    var more, after := uses + [use], chunks[k := chunks[k].(firstUse := Some(|uses|))];
    assert more[..|more| - 1] == uses;
    assert ChainsDown(more);
    forall i | 0 <= i < |chunks| ensures Chain(more, after[i].firstUse) == UsesOf(more, i) {
      ChainExtend(uses, use, chunks[i].firstUse);
    }
  }

  lemma {:induction false} NoUses(uses: seq<PlanUse>, k: nat)
    requires forall u | 0 <= u < |uses| :: uses[u].chunk != k
    ensures UsesOf(uses, k) == []
    decreases |uses|
  {
    if uses != [] { NoUses(uses[..|uses| - 1], k); }
  }

  lemma NewChunkKeepsUses(chunks: seq<PlanChunk>, uses: seq<PlanUse>, chunk: PlanChunk)
    requires UsesOk(chunks, uses) && chunk.firstUse.None?
    ensures UsesOk(chunks + [chunk], uses)
  {
    NoUses(uses, |chunks|);
  }

  ghost predicate AllUsed(chunks: seq<PlanChunk>) {
    forall k | 0 <= k < |chunks| :: chunks[k].firstUse.Some?
  }

  /** Two uses share a plan chunk exactly when they want the same chunk of the same array. */
  lemma SharedChunkIffSameKey(chunks: seq<PlanChunk>, uses: seq<PlanUse>, u: nat, v: nat)
    requires KeysDistinct(chunks) && UsesOk(chunks, uses) && u < |uses| && v < |uses|
    ensures var a, b := chunks[uses[u].chunk], chunks[uses[v].chunk];
            uses[u].chunk == uses[v].chunk <==> a.source == b.source && a.coordinate == b.coordinate
  {
    var i, j := uses[u].chunk, uses[v].chunk;
    if i < j {
      assert !KeyIs(chunks[i], chunks[j].source, chunks[j].coordinate);
    } else if j < i {
      assert !KeyIs(chunks[j], chunks[i].source, chunks[i].coordinate);
    }
  }

  /** Following the chain of a chunk visits exactly its uses, each once, and ends. */
  lemma ChainVisitsUses(chunks: seq<PlanChunk>, uses: seq<PlanUse>, k: nat)
    requires UsesOk(chunks, uses) && k < |chunks|
    ensures Distinct(Chain(uses, chunks[k].firstUse))
    ensures forall u :: u in Chain(uses, chunks[k].firstUse) <==> 0 <= u < |uses| && uses[u].chunk == k
  {
    UsesOfMembers(uses, k);
  }

  ghost predicate SameChunk(a: PlanChunk, b: PlanChunk) {
    a.source == b.source && a.coordinate == b.coordinate && a.location == b.location
  }

  /** One use of the chunk with the given key was appended, and the chunk itself
      was appended exactly if its key was new. */
  ghost predicate UseAdded(chunks: seq<PlanChunk>, uses: seq<PlanUse>, chunks': seq<PlanChunk>, uses': seq<PlanUse>,
                           source: nat, coordinate: seq<nat>, location: Location, region: nat)
  {
    && |uses'| == |uses| + 1 && (forall u | 0 <= u < |uses| :: uses'[u] == uses[u])
    && uses'[|uses|].region == region && uses'[|uses|].chunk < |chunks'|
    && KeyIs(chunks'[uses'[|uses|].chunk], source, coordinate)
    && |chunks| <= |chunks'| <= |chunks| + 1
    && (forall i | 0 <= i < |chunks| :: SameChunk(chunks'[i], chunks[i]))
    && (|chunks'| > |chunks| <==> forall i | 0 <= i < |chunks| :: !KeyIs(chunks[i], source, coordinate))
    && (|chunks'| > |chunks| ==> SameChunk(chunks'[|chunks|], PlanChunk(source, coordinate, location, None)))
  }

  // --- The table -------------------------------------------------------------------------

  /** Smallest power of two that is at least 2 * capacity. */
  method BucketsFor(capacity: nat) returns (buckets: nat)
    ensures buckets >= 2 * capacity && buckets > 0
    ensures exists e: nat :: buckets == Pow2(e)
    ensures buckets > 1 ==> buckets / 2 < 2 * capacity
  {
    buckets := 1;
    ghost var e: nat := 0;
    assert buckets == Pow2(0);
    while buckets < 2 * capacity
      invariant buckets == Pow2(e) && buckets > 0
      invariant buckets > 1 ==> buckets / 2 < 2 * capacity
      decreases 2 * capacity - buckets
    {
      buckets := buckets * 2;
      e := e + 1;
    }
  }

  function Pow2(e: nat): nat {
    if e == 0 then 1 else 2 * Pow2(e - 1)
  }

  class ChunkTable {
    const hash: (nat, seq<nat>) -> nat
    const table: array<nat>
    var chunks: seq<PlanChunk>
    var uses: seq<PlanUse>

    ghost predicate Valid()
      reads this, table
    {
      TableOk(table[..], chunks, hash) && UsesOk(chunks, uses)
    }

    constructor (hash: (nat, seq<nat>) -> nat, capacity: nat)
      ensures Valid() && fresh(table) && chunks == [] && uses == []
      ensures table.Length >= 2 * capacity
      ensures this.hash == hash
    {
      var buckets := BucketsFor(capacity);
      this.hash := hash;
      this.table := new nat[buckets](_ => 0);
      chunks, uses := [], [];
    }

    /** Linear probing; always stops because some bucket is empty. */
    method Probe(source: nat, coordinate: seq<nat>) returns (bucket: nat, ghost k: nat)
      requires TableOk(table[..], chunks, hash) && |chunks| < table.Length
      ensures k < table.Length && bucket == Bucket(table.Length, Home(hash, table.Length, source, coordinate), k)
      ensures table[bucket] <= |chunks|
      ensures table[bucket] != 0 ==> KeyIs(chunks[table[bucket] - 1], source, coordinate)
      ensures table[bucket] == 0 ==> forall i | 0 <= i < |chunks| :: !KeyIs(chunks[i], source, coordinate)
      ensures forall m: nat | m < k ::
                table[..][Bucket(table.Length, Home(hash, table.Length, source, coordinate), m)] != 0
    {
      hide Placed, KeysDistinct;
      ghost var t: seq<nat> := table[..];
      ghost var home := Home(hash, |t|, source, coordinate);
      bucket := Home(hash, table.Length, source, coordinate);
      k := 0;
      DivUnique(home, |t|, 0);
      NotAllFull(t, |chunks|, home);
      ghost var empty: nat :| empty < |t| && t[Bucket(|t|, home, empty)] == 0;
      while table[bucket] != 0 &&
            !(chunks[table[bucket] - 1].source == source && chunks[table[bucket] - 1].coordinate == coordinate)
        invariant bucket < |t| && k <= empty && bucket == Bucket(|t|, home, k)
        invariant Passed(t, chunks, home, source, coordinate, k)
        decreases empty - k
      {
        assert Other(t, chunks, bucket, source, coordinate);
        AddMod(home, k, |t|);
        bucket := (bucket + 1) % table.Length;
        k := k + 1;
      }
      assert t[bucket] == table[bucket];
      if table[bucket] == 0 {
        EmptyMeansAbsent(t, chunks, hash, source, coordinate, k);
      }
    }

    /** The index of the chunk with this key, inserting it if it is new. */
    method FindOrInsert(source: nat, coordinate: seq<nat>, location: Location) returns (index: nat)
      requires Valid() && |chunks| < table.Length
      modifies this`chunks, table
      ensures Valid() && index < |chunks| && KeyIs(chunks[index], source, coordinate)
      ensures chunks == old(chunks) || chunks == old(chunks) + [PlanChunk(source, coordinate, location, None)]
      ensures chunks != old(chunks) <==> forall i | 0 <= i < |old(chunks)| :: !KeyIs(old(chunks)[i], source, coordinate)
    {
      ghost var t: seq<nat> := table[..];
      ghost var k: nat;
      var bucket: nat;
      bucket, k := Probe(source, coordinate);
      if table[bucket] == 0 {
        var chunk := PlanChunk(source, coordinate, location, None);
        index := |chunks|;
        InsertKeepsTable(t, chunks, hash, chunk, k);
        NewChunkKeepsUses(chunks, uses, chunk);
        chunks := chunks + [chunk];
        table[bucket] := index + 1;
        assert table[..] == t[bucket := |old(chunks)| + 1];
      } else {
        index := table[bucket] - 1;
      }
    }

    /** Finds or inserts the chunk, then links one more use of it. */
    method AddUse(source: nat, coordinate: seq<nat>, location: Location, region: nat)
      requires Valid() && AllUsed(chunks) && |chunks| < table.Length
      modifies this, table
      ensures Valid() && AllUsed(chunks)
      ensures UseAdded(old(chunks), old(uses), chunks, uses, source, coordinate, location, region)
    {
      hide TableOk, UsesOk;
      var index := FindOrInsert(source, coordinate, location);
      var stored := chunks[index];
      var linked := chunks[index := stored.(firstUse := Some(|uses|))];
      ThreadUse(chunks, uses, index, region);
      SameKeysKeepTable(table[..], chunks, linked, hash);
      chunks := linked;
      uses := uses + [PlanUse(index, region, stored.firstUse)];
    }
  }
}
