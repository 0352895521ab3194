/** Index selections of one sample: copying a query into sorted per-axis form,
    finding the part of an axis inside a chunk, and iterating over the grid cells
    a selection touches. */
module Selection {
  import opened Statuses
  import opened Odometer

  /** What the caller asks for on one axis. */
  datatype AxisSelection = Interval(beg: int, end: int) | Indices(values: seq<int>)

  /** One requested index: where it comes from and where it goes. */
  datatype QueryIndex = QueryIndex(source: nat, output: nat)

  /** The copied form: bounds, and the sorted entries (empty for an interval). */
  datatype QueryAxis = QueryAxis(beg: nat, end: nat, entries: seq<QueryIndex>)

  // --- query_copy ---------------------------------------------------------------

  predicate IndexLess(a: QueryIndex, b: QueryIndex) {
    a.source < b.source || (a.source == b.source && a.output < b.output)
  }

  /** By source, and equal sources by output. */
  ghost predicate SortedEntries(s: seq<QueryIndex>) {
    forall i, j | 0 <= i < j < |s| ::
      s[i].source <= s[j].source && (s[i].source == s[j].source ==> s[i].output < s[j].output)
  }

  ghost predicate ValidSelection(a: AxisSelection) {
    match a
    case Interval(beg, end) => 0 <= beg < end
    case Indices(values) => values != [] && forall i | 0 <= i < |values| :: 0 <= values[i] < I64_MAX
  }

  function Extent(a: AxisSelection): int {
    match a
    case Interval(beg, end) => end - beg
    case Indices(values) => |values|
  }

  /** The source coordinate the query asks for at output position `o`. */
  function Wanted(a: AxisSelection, o: nat): int
    requires o < Extent(a)
  {
    match a
    case Interval(beg, _) => beg + o
    case Indices(values) => values[o]
  }

  function EntriesOf(values: seq<int>): (s: seq<QueryIndex>)
    requires forall i | 0 <= i < |values| :: 0 <= values[i]
    ensures |s| == |values|
  {
    seq(|values|, i requires 0 <= i < |values| => QueryIndex(values[i], i))
  }

  /** `axis` is the copied form of selection `a`. */
  ghost predicate CopyOf(a: AxisSelection, axis: QueryAxis) {
    && ValidSelection(a)
    && match a
       case Interval(beg, end) => axis == QueryAxis(beg, end, [])
       case Indices(values) =>
         && SortedEntries(axis.entries)
         && multiset(axis.entries) == multiset(EntriesOf(values))
         && |axis.entries| == |values|
         && axis.beg == axis.entries[0].source
         && axis.end == axis.entries[|values| - 1].source + 1
  }

  method InsertIndex(r: seq<QueryIndex>, e: QueryIndex) returns (t: seq<QueryIndex>)
    requires SortedEntries(r) && e !in r
    ensures SortedEntries(t) && multiset(t) == multiset(r) + multiset{e} && |t| == |r| + 1
  {
    var k := |r|;
    while k > 0 && IndexLess(e, r[k - 1])
      invariant 0 <= k <= |r|
      invariant forall j | k <= j < |r| :: IndexLess(e, r[j])
    {
      k := k - 1;
    }
    assert k > 0 ==> r[k - 1] != e && forall j | 0 <= j < k - 1 :: IndexLess(r[j], r[k - 1]);
    InsertedSorted(r, k, e);
    t := r[..k] + [e] + r[k..];
  }

  lemma InsertedSorted(r: seq<QueryIndex>, k: nat, e: QueryIndex)
    requires SortedEntries(r) && k <= |r|
    requires forall j | 0 <= j < k :: IndexLess(r[j], e)
    requires forall j | k <= j < |r| :: IndexLess(e, r[j])
    ensures SortedEntries(r[..k] + [e] + r[k..])
    ensures multiset(r[..k] + [e] + r[k..]) == multiset(r) + multiset{e}
  {
    var t := r[..k] + [e] + r[k..];
    forall i, j | 0 <= i < j < |t| ensures IndexLess(t[i], t[j]) {
      assert t[i] == if i < k then r[i] else if i == k then e else r[i - 1];
      assert t[j] == if j < k then r[j] else if j == k then e else r[j - 1];
    }
    assert r == r[..k] + r[k..];
  }

  /** Stands for the C library's qsort with compare_indices. */
  method SortIndices(s: seq<QueryIndex>) returns (r: seq<QueryIndex>)
    requires forall i, j | 0 <= i < j < |s| :: s[i] != s[j]
    ensures SortedEntries(r) && multiset(r) == multiset(s) && |r| == |s|
  {
    r := [];
    for n := 0 to |s|
      invariant |r| == n && SortedEntries(r) && multiset(r) == multiset(s[..n])
    {
      assert s[n] !in r by {
        InMultiset(r, s[..n], s[n]);
      }
      assert s[..n + 1] == s[..n] + [s[n]];
      r := InsertIndex(r, s[n]);
    }
    assert s[..|s|] == s;
  }

  method QueryCopyAxis(a: AxisSelection) returns (status: Status, axis: QueryAxis)
    ensures status == OK <==> ValidSelection(a)
    ensures status == OK ==> CopyOf(a, axis)
    ensures status != OK ==> status == INVAL
  {
    axis := QueryAxis(0, 0, []);
    match a {
      case Interval(beg, end) =>
        if beg < 0 || end <= beg { return INVAL, axis; }
        return OK, QueryAxis(beg, end, []);
      case Indices(values) =>
        if values == [] { return INVAL, axis; }
        var cursor: seq<QueryIndex> := [];
        for i := 0 to |values|
          invariant |cursor| == i
          invariant forall j | 0 <= j < i :: 0 <= values[j] < I64_MAX && cursor[j] == QueryIndex(values[j], j)
        {
          if values[i] < 0 || values[i] >= I64_MAX { return INVAL, axis; }
          cursor := cursor + [QueryIndex(values[i], i)];
        }
        assert cursor == EntriesOf(values);
        var sorted := SortIndices(cursor);
        return OK, QueryAxis(sorted[0].source, sorted[|sorted| - 1].source + 1, sorted);
    }
  }

  /** Copies all axes of a sample; fails exactly when the rank or some axis is invalid. */
  method QueryCopy(sample: seq<AxisSelection>) returns (status: Status, axes: seq<QueryAxis>)
    ensures status == OK <==> 0 < |sample| <= MAX_RANK && forall d | 0 <= d < |sample| :: ValidSelection(sample[d])
    ensures status == OK ==> |axes| == |sample| && forall d | 0 <= d < |sample| :: CopyOf(sample[d], axes[d])
    ensures status != OK ==> status == INVAL
  {
    axes := [];
    if |sample| == 0 || |sample| > MAX_RANK { return INVAL, axes; }
    for d := 0 to |sample|
      invariant |axes| == d && forall k | 0 <= k < d :: CopyOf(sample[k], axes[k])
    {
      var s, axis := QueryCopyAxis(sample[d]);
      if s != OK { return s, axes; }
      axes := axes + [axis];
    }
    return OK, axes;
  }

  // --- Facts about copied axes -----------------------------------------------------

  /** A copied axis selecting `extent` source coordinates, one per output position. */
  ghost predicate AxisOk(axis: QueryAxis, extent: nat) {
    && axis.beg < axis.end <= I64_MAX
    && if axis.entries == [] then extent == axis.end - axis.beg
       else
         && |axis.entries| == extent
         && SortedEntries(axis.entries)
         && (forall k | 0 <= k < extent :: axis.beg <= axis.entries[k].source < axis.end)
         && (forall k | 0 <= k < extent :: axis.entries[k].output < extent)
         && (forall o: nat | o < extent :: HasOutput(axis.entries, o))
         && (forall i, j | 0 <= i < j < extent :: axis.entries[i].output != axis.entries[j].output)
         && axis.beg == axis.entries[0].source && axis.end == axis.entries[extent - 1].source + 1
  }

  ghost predicate HasOutput(entries: seq<QueryIndex>, o: nat) {
    exists k :: 0 <= k < |entries| && entries[k].output == o
  }

  /** The position of the entry that fills output position `o`. */
  ghost function EntryFor(entries: seq<QueryIndex>, o: nat): (k: nat)
    requires HasOutput(entries, o)
    ensures k < |entries| && entries[k].output == o
  {
    var k :| 0 <= k < |entries| && entries[k].output == o;
    k
  }

  /** The source coordinate that fills output position `o`. */
  ghost function SourceAt(axis: QueryAxis, o: nat): nat
    requires axis.entries != [] ==> HasOutput(axis.entries, o)
  {
    if axis.entries == [] then axis.beg + o else axis.entries[EntryFor(axis.entries, o)].source
  }

  lemma {:induction false} InMultiset(s: seq<QueryIndex>, t: seq<QueryIndex>, e: QueryIndex)
    requires multiset(s) == multiset(t)
    ensures e in s <==> e in t
  {
    assert e in s <==> e in multiset(s);
    assert e in t <==> e in multiset(t);
  }

  /** Sorting loses nothing: the copied axis still answers the query, duplicates
      and order included. */
  lemma CopyMeansQuery(a: AxisSelection, axis: QueryAxis)
    requires CopyOf(a, axis)
    requires a.Interval? ==> a.end <= I64_MAX
    ensures AxisOk(axis, Extent(a))
    ensures forall o: nat | o < Extent(a) :: SourceAt(axis, o) == Wanted(a, o)
  {
    if a.Indices? {
      var values, s := a.values, axis.entries;
      var raw := EntriesOf(values);
      forall k | 0 <= k < |s| ensures s[k].output < |values| && s[k].source == values[s[k].output] {
        InMultiset(s, raw, s[k]);
        assert s[k] in raw;
      }
      forall o: nat | o < |values| ensures HasOutput(s, o) {
        InMultiset(s, raw, raw[o]);
        assert raw[o] in s;
      }
      forall i, j | 0 <= i < j < |s| ensures s[i].output != s[j].output {
        assert IndexLess(s[i], s[j]);
      }
      forall k | 0 <= k < |s| ensures axis.beg <= s[k].source < axis.end {
        if k > 0 { assert IndexLess(s[0], s[k]); }
        if k < |s| - 1 { assert IndexLess(s[k], s[|s| - 1]); }
      }
    }
  }

  // --- query_lower_bound and query_chunk_span --------------------------------------

  ghost predicate IsLowerBound(entries: seq<QueryIndex>, x: nat, k: nat) {
    && k <= |entries|
    && (forall i | 0 <= i < k :: entries[i].source < x)
    && (forall i | k <= i < |entries| :: x <= entries[i].source)
  }

  method LowerBound(entries: seq<QueryIndex>, x: nat) returns (lo: nat)
    requires SortedEntries(entries)
    ensures IsLowerBound(entries, x, lo)
  {
    lo := 0;
    var hi := |entries|;
    while lo < hi
      invariant lo <= hi <= |entries|
      invariant forall i | 0 <= i < lo :: entries[i].source < x
      invariant forall i | hi <= i < |entries| :: x <= entries[i].source
    {
      var mid := lo + (hi - lo) / 2;
      if entries[mid].source < x {
        assert forall i | 0 <= i < mid :: IndexLess(entries[i], entries[mid]);
        lo := mid + 1;
      } else {
        assert forall i | mid < i < |entries| :: IndexLess(entries[mid], entries[i]);
        hi := mid;
      }
    }
  }

  /** Positions on an axis: entry numbers, or source coordinates for an interval. */
  datatype Span = Span(begin: nat, count: nat)

  function PositionSource(axis: QueryAxis, p: nat): nat
    requires axis.entries != [] ==> p < |axis.entries|
  {
    if axis.entries == [] then p else axis.entries[p].source
  }

  function PositionOutput(axis: QueryAxis, p: nat): int
    requires axis.entries != [] ==> p < |axis.entries|
  {
    if axis.entries == [] then p - axis.beg else axis.entries[p].output
  }

  ghost predicate IsPosition(axis: QueryAxis, p: nat) {
    if axis.entries == [] then axis.beg <= p < axis.end else p < |axis.entries|
  }

  /** The span holds exactly the positions whose source lies in [origin, origin + extent). */
  ghost predicate SpanExact(axis: QueryAxis, origin: nat, extent: nat, span: Span) {
    && (forall p: nat | span.begin <= p < span.begin + span.count :: IsPosition(axis, p))
    && (forall p: nat | IsPosition(axis, p) ::
          (span.begin <= p < span.begin + span.count <==> origin <= PositionSource(axis, p) < origin + extent))
  }

  method ChunkSpan(axis: QueryAxis, origin: nat, extent: nat) returns (span: Span)
    requires SortedEntries(axis.entries) && axis.end <= I64_MAX
    requires forall k | 0 <= k < |axis.entries| :: axis.entries[k].source < axis.end
    ensures SpanExact(axis, origin, extent, span)
  {
    var end := if origin + extent > U64_MAX then U64_MAX else origin + extent;
    assert end <= U64_MAX;
    if axis.entries != [] {
      var begin := LowerBound(axis.entries, origin);
      var stop := LowerBound(axis.entries, end);
      assert begin > 0 ==> axis.entries[begin - 1].source < end;
      return Span(begin, stop - begin);
    }
    var begin := if origin > axis.beg then origin else axis.beg;
    if end > axis.end { end := axis.end; }
    return Span(begin, if end > begin then end - begin else 0);
  }
}
