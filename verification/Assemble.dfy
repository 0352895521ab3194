/** Scattering one decoded chunk into the batch tensor. */
module Assemble {
  import opened Statuses
  import opened Odometer
  import opened Selection
  import opened SelectionGrids
  import opened Tensor
  import opened Arith

  /** A chunk ready to be scattered: its place in the chunk grid and its elements,
      or the fill value when the store has no such chunk. */
  datatype Piece = Piece(chunk: seq<nat>, coordinate: seq<nat>, missing: bool, fill: int, elements: seq<int>)

  /** The destination rows of one sample. */
  datatype Target = Target(shape: seq<nat>, strides: seq<nat>, sample: nat, axes: seq<QueryAxis>)

  ghost predicate TargetOk(t: Target) {
    && 0 < |t.axes| == |t.shape| - 1 && t.sample < t.shape[0]
    && StridesOf(t.shape, t.strides)
    && forall d | 0 <= d < |t.axes| :: AxisOk(t.axes[d], t.shape[d + 1])
  }

  ghost predicate PieceOk(p: Piece) {
    && |p.coordinate| == |p.chunk|
    && (forall d | 0 <= d < |p.chunk| :: p.chunk[d] > 0)
    && (!p.missing ==> |p.elements| == Size(p.chunk))
  }

  // --- What the scatter should do -----------------------------------------------------------

  /** The source coordinate wanted at output coordinate `o`. */
  ghost function SourceCoordinate(axes: seq<QueryAxis>, extents: seq<nat>, o: seq<nat>): (g: seq<nat>)
    requires |axes| == |extents| && InRange(o, extents)
    requires forall d | 0 <= d < |axes| :: AxisOk(axes[d], extents[d])
    ensures |g| == |axes|
  {
    seq(|axes|, d requires 0 <= d < |axes| =>
      assert AxisOk(axes[d], extents[d]) && o[d] < extents[d];
      SourceAt(axes[d], o[d]))
  }

  ghost function Local(g: seq<nat>, chunk: seq<nat>): (c: seq<nat>)
    requires |g| == |chunk| && forall d | 0 <= d < |chunk| :: chunk[d] > 0
    ensures InRange(c, chunk)
  {
    seq(|g|, d requires 0 <= d < |g| => g[d] % chunk[d])
  }

  /** The output coordinate of flat position `x`, without the sample index. */
  ghost function OutputAt(t: Target, x: nat): (o: seq<nat>)
    requires TargetOk(t) && x < Size(t.shape)
    ensures InRange(o, t.shape[1..])
  {
    RavelUnravel(t.shape, x);
    Unravel(t.shape, x)[1..]
  }

  ghost function SourceOf(t: Target, x: nat): (g: seq<nat>)
    requires TargetOk(t) && x < Size(t.shape)
    ensures |g| == |t.axes|
  {
    SourceCoordinate(t.axes, t.shape[1..], OutputAt(t, x))
  }

  /** Flat position `x` belongs to this sample and takes its value from this chunk. */
  ghost predicate Covers(t: Target, p: Piece, x: nat)
    requires TargetOk(t) && PieceOk(p) && |p.chunk| == |t.axes|
  {
    x < Size(t.shape) && Unravel(t.shape, x)[0] == t.sample && CellOf(SourceOf(t, x), p.chunk) == p.coordinate
  }

  ghost function PieceAt(p: Piece, g: seq<nat>): int
    requires PieceOk(p) && |g| == |p.chunk|
  {
    if p.missing then p.fill
    else
      RavelBound(p.chunk, Local(g, p.chunk));
      p.elements[Ravel(p.chunk, Local(g, p.chunk))]
  }

  ghost function ValueAt(t: Target, p: Piece, convert: int -> int, x: nat): int
    requires TargetOk(t) && PieceOk(p) && |p.chunk| == |t.axes| && x < Size(t.shape)
  {
    convert(PieceAt(p, SourceOf(t, x)))
  }

  // --- One axis ---------------------------------------------------------------------------------

  /** The position on the axis that fills output position `o`. */
  ghost function PositionFor(axis: QueryAxis, extent: nat, o: nat): nat
    requires AxisOk(axis, extent) && o < extent
  {
    if axis.entries == [] then axis.beg + o else EntryFor(axis.entries, o)
  }

  ghost predicate SpanOf(axis: QueryAxis, chunk: nat, cell: nat, span: Span) {
    SpanExact(axis, cell * chunk, chunk, span)
  }

  lemma InCell(x: nat, chunk: nat, cell: nat)
    requires chunk > 0
    ensures x / chunk == cell <==> cell * chunk <= x < cell * chunk + chunk
    ensures x / chunk == cell ==> x % chunk == x - cell * chunk
  {
    DivGalois(cell, x, chunk);
    DivGalois(cell + 1, x, chunk);
    assert (cell + 1) * chunk == cell * chunk + chunk;
    DivBounds(x, chunk);
  }

  /** Positions in the span are the output positions whose source lies in the cell. */
  lemma SpanPosition(axis: QueryAxis, extent: nat, chunk: nat, cell: nat, span: Span, j: nat)
    requires AxisOk(axis, extent) && chunk > 0 && SpanOf(axis, chunk, cell, span) && j < span.count
    ensures var p := span.begin + j;
            && IsPosition(axis, p)
            && 0 <= PositionOutput(axis, p) < extent
            && SourceAt(axis, PositionOutput(axis, p)) == PositionSource(axis, p)
            && PositionSource(axis, p) / chunk == cell
            && PositionSource(axis, p) % chunk == PositionSource(axis, p) - cell * chunk
            && PositionFor(axis, extent, PositionOutput(axis, p)) == p
  {
    var p := span.begin + j;
    assert IsPosition(axis, p);
    InCell(PositionSource(axis, p), chunk, cell);
    if axis.entries != [] {
      var k := EntryFor(axis.entries, axis.entries[p].output);
      assert k == p;
    }
  }

  lemma SpanComplete(axis: QueryAxis, extent: nat, chunk: nat, cell: nat, span: Span, o: nat)
    requires AxisOk(axis, extent) && chunk > 0 && SpanOf(axis, chunk, cell, span) && o < extent
    requires SourceAt(axis, o) / chunk == cell
    ensures span.begin <= PositionFor(axis, extent, o) < span.begin + span.count
    ensures PositionOutput(axis, PositionFor(axis, extent, o)) == o
  {
    var p := PositionFor(axis, extent, o);
    InCell(SourceAt(axis, o), chunk, cell);
    assert IsPosition(axis, p) && PositionSource(axis, p) == SourceAt(axis, o);
  }

  // --- All axes -----------------------------------------------------------------------------------

  ghost predicate SpansOk(t: Target, p: Piece, spans: seq<Span>)
    requires TargetOk(t) && PieceOk(p) && |p.chunk| == |t.axes|
  {
    && |spans| == |t.axes|
    && forall d | 0 <= d < |spans| :: SpanOf(t.axes[d], p.chunk[d], p.coordinate[d], spans[d])
  }

  function Counts(spans: seq<Span>): (r: seq<nat>)
    ensures |r| == |spans|
  {
    seq(|spans|, d requires 0 <= d < |spans| => spans[d].count)
  }

  ghost predicate PlaceOk(t: Target, p: Piece, spans: seq<Span>, f: seq<nat>) {
    && TargetOk(t) && PieceOk(p) && |p.chunk| == |t.axes|
    && SpansOk(t, p, spans) && InRange(f, Counts(spans))
  }

  lemma PlacePositions(t: Target, p: Piece, spans: seq<Span>, f: seq<nat>, d: nat)
    requires PlaceOk(t, p, spans, f) && d < |f|
    ensures IsPosition(t.axes[d], spans[d].begin + f[d])
    ensures 0 <= PositionOutput(t.axes[d], spans[d].begin + f[d]) < t.shape[d + 1]
    ensures SourceAt(t.axes[d], PositionOutput(t.axes[d], spans[d].begin + f[d]))
            == PositionSource(t.axes[d], spans[d].begin + f[d])
    ensures PositionSource(t.axes[d], spans[d].begin + f[d]) / p.chunk[d] == p.coordinate[d]
    ensures PositionSource(t.axes[d], spans[d].begin + f[d]) - p.coordinate[d] * p.chunk[d]
            == PositionSource(t.axes[d], spans[d].begin + f[d]) % p.chunk[d]
    ensures PositionFor(t.axes[d], t.shape[d + 1], PositionOutput(t.axes[d], spans[d].begin + f[d]))
            == spans[d].begin + f[d]
  {
    assert f[d] < Counts(spans)[d] == spans[d].count;
    assert AxisOk(t.axes[d], t.shape[d + 1]) && SpanOf(t.axes[d], p.chunk[d], p.coordinate[d], spans[d]);
    SpanPosition(t.axes[d], t.shape[d + 1], p.chunk[d], p.coordinate[d], spans[d], f[d]);
  }

  /** Source and output coordinates of the element at span offsets `f`. */
  ghost function SourcesAt(t: Target, p: Piece, spans: seq<Span>, f: seq<nat>): (g: seq<nat>)
    requires PlaceOk(t, p, spans, f)
    ensures |g| == |f|
  {
    seq(|f|, d requires 0 <= d < |f| => SourceFor(t, p, spans, f, d))
  }

  ghost function SourceFor(t: Target, p: Piece, spans: seq<Span>, f: seq<nat>, d: nat): nat
    requires PlaceOk(t, p, spans, f) && d < |f|
  {
    PlacePositions(t, p, spans, f, d);
    PositionSource(t.axes[d], spans[d].begin + f[d])
  }

  ghost function OutputsAt(t: Target, p: Piece, spans: seq<Span>, f: seq<nat>): (o: seq<nat>)
    requires PlaceOk(t, p, spans, f)
    ensures |o| == |f|
  {
    seq(|f|, d requires 0 <= d < |f| => OutputOf(t, p, spans, f, d))
  }

  ghost function OutputOf(t: Target, p: Piece, spans: seq<Span>, f: seq<nat>, d: nat): nat
    requires PlaceOk(t, p, spans, f) && d < |f|
  {
    PlacePositions(t, p, spans, f, d);
    PositionOutput(t.axes[d], spans[d].begin + f[d])
  }

  ghost function Destination(t: Target, p: Piece, spans: seq<Span>, f: seq<nat>): nat
    requires PlaceOk(t, p, spans, f)
  {
    Ravel(t.shape, [t.sample] + OutputsAt(t, p, spans, f))
  }

  /** Every span offset names one covered position and the element that belongs there. */
  lemma OffsetIsCovered(t: Target, p: Piece, spans: seq<Span>, f: seq<nat>)
    requires PlaceOk(t, p, spans, f)
    ensures var x := Destination(t, p, spans, f);
            && x < Size(t.shape) && Covers(t, p, x)
            && SourceOf(t, x) == SourcesAt(t, p, spans, f)
            && Ravel(p.chunk, Local(SourcesAt(t, p, spans, f), p.chunk)) < Size(p.chunk)
  {
    hide SpanExact, AxisOk, StridesOf;
    var o, g := OutputsAt(t, p, spans, f), SourcesAt(t, p, spans, f);
    var c := [t.sample] + o;
    forall d | 0 <= d < |f|
      ensures o[d] < t.shape[d + 1] && g[d] / p.chunk[d] == p.coordinate[d]
    {
      PlacePositions(t, p, spans, f, d);
    }
    assert InRange(c, t.shape);
    UnravelRavel(t.shape, c);
    var x := Ravel(t.shape, c);
    assert c[1..] == o == OutputAt(t, x);
    forall d | 0 <= d < |f| ensures SourceOf(t, x)[d] == g[d] {
      PlacePositions(t, p, spans, f, d);
    }
    assert SourceOf(t, x) == g;
    assert CellOf(g, p.chunk) == p.coordinate;
    RavelBound(p.chunk, Local(g, p.chunk));
  }

  ghost function OffsetsFor(t: Target, p: Piece, spans: seq<Span>, x: nat): (f: seq<nat>)
    requires TargetOk(t) && PieceOk(p) && |p.chunk| == |t.axes| && SpansOk(t, p, spans) && Covers(t, p, x)
    ensures |f| == |t.axes|
  {
    seq(|t.axes|, d requires 0 <= d < |t.axes| => OffsetFor(t, p, spans, x, d))
  }

  ghost function OffsetFor(t: Target, p: Piece, spans: seq<Span>, x: nat, d: nat): nat
    requires TargetOk(t) && PieceOk(p) && |p.chunk| == |t.axes| && SpansOk(t, p, spans) && Covers(t, p, x)
    requires d < |t.axes|
  {
    CoveredOffset(t, p, spans, x, d);
    PositionFor(t.axes[d], t.shape[d + 1], OutputAt(t, x)[d]) - spans[d].begin
  }

  lemma CoveredOffset(t: Target, p: Piece, spans: seq<Span>, x: nat, d: nat)
    requires TargetOk(t) && PieceOk(p) && |p.chunk| == |t.axes| && SpansOk(t, p, spans) && Covers(t, p, x)
    requires d < |t.axes|
    ensures OutputAt(t, x)[d] < t.shape[d + 1]
    ensures AxisOk(t.axes[d], t.shape[d + 1])
    ensures var q := PositionFor(t.axes[d], t.shape[d + 1], OutputAt(t, x)[d]);
            spans[d].begin <= q < spans[d].begin + spans[d].count && PositionOutput(t.axes[d], q) == OutputAt(t, x)[d]
  {
    var o := OutputAt(t, x);
    assert o[d] < t.shape[1..][d];
    assert SourceOf(t, x)[d] == SourceAt(t.axes[d], o[d]);
    assert CellOf(SourceOf(t, x), p.chunk)[d] == p.coordinate[d];
    assert SpanOf(t.axes[d], p.chunk[d], p.coordinate[d], spans[d]);
    SpanComplete(t.axes[d], t.shape[d + 1], p.chunk[d], p.coordinate[d], spans[d], o[d]);
  }

  /** Every covered position is named by some span offset. */
  lemma CoveredHasOffset(t: Target, p: Piece, spans: seq<Span>, x: nat)
    requires TargetOk(t) && PieceOk(p) && |p.chunk| == |t.axes| && SpansOk(t, p, spans) && Covers(t, p, x)
    ensures PlaceOk(t, p, spans, OffsetsFor(t, p, spans, x))
    ensures Destination(t, p, spans, OffsetsFor(t, p, spans, x)) == x
  {
    var f := OffsetsFor(t, p, spans, x);
    forall d | 0 <= d < |f|
      ensures f[d] < Counts(spans)[d] && PositionOutput(t.axes[d], spans[d].begin + f[d]) == OutputAt(t, x)[d]
    {
      CoveredOffset(t, p, spans, x, d);
    }
    assert OutputsAt(t, p, spans, f) == OutputAt(t, x);
    RavelUnravel(t.shape, x);
    assert Unravel(t.shape, x) == [t.sample] + OutputAt(t, x);
  }

  // --- Rows -----------------------------------------------------------------------------------------

  function Ranges(lens: seq<nat>): (r: seq<seq<nat>>)
    ensures |r| == |lens| && Lengths(r) == lens
  {
    var r := seq(|lens|, d requires 0 <= d < |lens| => Range(0, lens[d]));
    assert Lengths(r) == lens;
    r
  }

  lemma RangesPick(lens: seq<nat>, p: seq<nat>)
    requires InRange(p, lens)
    ensures Pick(Ranges(lens), p) == p
  {
  }

  lemma RangesMembers(lens: seq<nat>, p: seq<nat>)
    ensures p in Product(Ranges(lens)) <==> InRange(p, lens)
  {
    ProductMembers(Ranges(lens), p);
    if |p| == |lens| {
      forall d | 0 <= d < |p| ensures p[d] in Ranges(lens)[d] <==> p[d] < lens[d] {
        if p[d] < lens[d] { assert Range(0, lens[d])[p[d]] == p[d]; }
      }
    }
  }

  /** Rows run along the last axis when it is an interval, otherwise they hold one element. */
  predicate WholeRows(axes: seq<QueryAxis>)
    requires axes != []
  {
    axes[|axes| - 1].entries == []
  }

  function RowLengths(axes: seq<QueryAxis>, counts: seq<nat>): (r: seq<nat>)
    requires axes != [] && |axes| == |counts|
    ensures |r| == |counts|
  {
    if WholeRows(axes) then counts[|counts| - 1 := 1] else counts
  }

  function RowWidth(axes: seq<QueryAxis>, counts: seq<nat>): nat
    requires axes != [] && |axes| == |counts|
  {
    if WholeRows(axes) then counts[|counts| - 1] else 1
  }

  /** The offsets of element `j` of row `q`. */
  function InRow(axes: seq<QueryAxis>, q: seq<nat>, j: nat): (f: seq<nat>)
    requires axes != [] && |q| == |axes|
    ensures |f| == |q|
  {
    if WholeRows(axes) then q[|q| - 1 := j] else q
  }

  ghost function RowOf(axes: seq<QueryAxis>, f: seq<nat>): (q: seq<nat>)
    requires axes != [] && |f| == |axes|
    ensures |q| == |f|
  {
    if WholeRows(axes) then f[|f| - 1 := 0] else f
  }

  ghost function Offset(t: Target, p: Piece, spans: seq<Span>, f: seq<nat>): nat
    requires PlaceOk(t, p, spans, f)
  {
    Ravel(p.chunk, Local(SourcesAt(t, p, spans, f), p.chunk))
  }

  ghost predicate RowOk(t: Target, p: Piece, spans: seq<Span>, q: seq<nat>) {
    && PlaceOk(t, p, spans, q)
    && InRange(q, RowLengths(t.axes, Counts(spans)))
  }

  lemma RowPlaces(t: Target, p: Piece, spans: seq<Span>, q: seq<nat>, j: nat)
    requires RowOk(t, p, spans, q) && j < RowWidth(t.axes, Counts(spans))
    ensures PlaceOk(t, p, spans, InRow(t.axes, q, j))
  {
    var f, counts := InRow(t.axes, q, j), Counts(spans);
    forall d | 0 <= d < |f| ensures f[d] < counts[d] { }
  }

  lemma RowAxis(t: Target, p: Piece, spans: seq<Span>, q: seq<nat>, j: nat, d: nat)
    requires RowOk(t, p, spans, q) && PlaceOk(t, p, spans, InRow(t.axes, q, j)) && WholeRows(t.axes) && d < |q|
    ensures var f, step := InRow(t.axes, q, j), if d == |q| - 1 then j else 0;
            && OutputsAt(t, p, spans, f)[d] == OutputsAt(t, p, spans, q)[d] + step
            && Local(SourcesAt(t, p, spans, f), p.chunk)[d] == Local(SourcesAt(t, p, spans, q), p.chunk)[d] + step
  {
    hide SpanExact, SpanOf, SourceAt, PositionFor, AxisOk, StridesOf, Ravel;
    if d == |q| - 1 { assert q[d] < RowLengths(t.axes, Counts(spans))[d] == 1; }
    PlacePositions(t, p, spans, q, d);
    PlacePositions(t, p, spans, InRow(t.axes, q, j), d);
  }

  /** Element j of a row lies j positions after its first element, on both sides. */
  lemma RowContiguous(t: Target, p: Piece, spans: seq<Span>, q: seq<nat>, j: nat)
    requires RowOk(t, p, spans, q) && j < RowWidth(t.axes, Counts(spans))
    requires PlaceOk(t, p, spans, InRow(t.axes, q, j))
    ensures Destination(t, p, spans, InRow(t.axes, q, j)) == Destination(t, p, spans, q) + j
    ensures Offset(t, p, spans, InRow(t.axes, q, j)) == Offset(t, p, spans, q) + j
  {
    hide SpanOf, AxisOk, StridesOf, Ravel, SourcesAt, OutputsAt, Local;
    var f := InRow(t.axes, q, j);
    if WholeRows(t.axes) {
      var o, o' := OutputsAt(t, p, spans, q), OutputsAt(t, p, spans, f);
      var g, g' := Local(SourcesAt(t, p, spans, q), p.chunk), Local(SourcesAt(t, p, spans, f), p.chunk);
      forall d | 0 <= d < |q|
        ensures o'[d] == o[d] + (if d == |q| - 1 then j else 0) && g'[d] == g[d] + (if d == |q| - 1 then j else 0)
      {
        RowAxis(t, p, spans, q, j, d);
      }
      var c := [t.sample] + o;
      assert [t.sample] + o' == c[|c| - 1 := c[|c| - 1] + j];
      RavelLast(t.shape, c, j);
      assert g' == g[|q| - 1 := g[|q| - 1] + j];
      RavelLast(p.chunk, g, j);
    } else {
      assert f == q;
    }
  }

  /** What writing row `q` at `destination` leaves in the buffer. */
  ghost predicate RowWritten(p: Piece, convert: int -> int, source: nat, destination: nat, width: nat,
                             before: seq<int>, after: seq<int>)
    requires destination + width <= |before|
    requires !p.missing ==> source + width <= |p.elements|
  {
    && |after| == |before|
    && (forall x: nat | x < |before| && !(destination <= x < destination + width) :: after[x] == before[x])
    && (forall x: nat | destination <= x < destination + width ::
          after[x] == convert(if p.missing then p.fill else p.elements[source + x - destination]))
  }

  method CopyRow(buffer: array<int>, p: Piece, convert: int -> int, source: nat, destination: nat, width: nat)
    requires destination + width <= buffer.Length
    requires !p.missing ==> source + width <= |p.elements|
    modifies buffer
    ensures RowWritten(p, convert, source, destination, width, old(buffer[..]), buffer[..])
  {
    for i := 0 to width
      invariant forall x: nat | x < buffer.Length && !(destination <= x < destination + i) ::
                  buffer[x] == old(buffer[x])
      invariant forall x: nat | destination <= x < destination + i ::
                  buffer[x] == convert(if p.missing then p.fill else p.elements[source + x - destination])
    {
      buffer[destination + i] := convert(if p.missing then p.fill else p.elements[source + i]);
    }
  }

  /** The rows in `done` hold their final values; everything else is as before or final. */
  ghost predicate Scattered(t: Target, p: Piece, spans: seq<Span>, convert: int -> int, done: seq<seq<nat>>,
                            before: seq<int>, now: seq<int>)
    requires TargetOk(t) && PieceOk(p) && |p.chunk| == |t.axes| && SpansOk(t, p, spans)
  {
    && |before| == |now| == Size(t.shape)
    && (forall x: nat | x < |now| :: now[x] == before[x] || (Covers(t, p, x) && now[x] == ValueAt(t, p, convert, x)))
    && (forall x: nat | x < |now| && Covers(t, p, x) && RowOf(t.axes, OffsetsFor(t, p, spans, x)) in done ::
          now[x] == ValueAt(t, p, convert, x))
  }

  ghost predicate IsRow(t: Target, p: Piece, spans: seq<Span>, q: seq<nat>, source: nat, destination: nat, width: nat) {
    && RowOk(t, p, spans, q)
    && width == RowWidth(t.axes, Counts(spans))
    && source == Offset(t, p, spans, q) && destination == Destination(t, p, spans, q)
  }

  /** Position x of row q: covered, and holding the row's element. */
  lemma RowElement(t: Target, p: Piece, spans: seq<Span>, q: seq<nat>, source: nat, destination: nat, width: nat,
                   j: nat)
    requires IsRow(t, p, spans, q, source, destination, width) && j < width
    ensures destination + j < Size(t.shape) && Covers(t, p, destination + j)
    ensures !p.missing ==> source + j < |p.elements|
    ensures PieceAt(p, SourceOf(t, destination + j)) == if p.missing then p.fill else p.elements[source + j]
  {
    hide SpanExact, AxisOk, StridesOf, Ravel, RowLengths;
    RowPlaces(t, p, spans, q, j);
    RowContiguous(t, p, spans, q, j);
    OffsetIsCovered(t, p, spans, InRow(t.axes, q, j));
  }

  lemma RowFits(t: Target, p: Piece, spans: seq<Span>, q: seq<nat>, source: nat, destination: nat, width: nat)
    requires IsRow(t, p, spans, q, source, destination, width)
    ensures width > 0 && destination + width <= Size(t.shape)
    ensures !p.missing ==> source + width <= |p.elements|
  {
    assert q[|q| - 1] < Counts(spans)[|q| - 1];
    RowElement(t, p, spans, q, source, destination, width, width - 1);
  }

  /** A covered position whose row is `q` is one of the positions row `q` writes. */
  lemma RowReaches(t: Target, p: Piece, spans: seq<Span>, q: seq<nat>, source: nat, destination: nat, width: nat,
                   x: nat)
    requires IsRow(t, p, spans, q, source, destination, width)
    requires x < Size(t.shape) && Covers(t, p, x) && RowOf(t.axes, OffsetsFor(t, p, spans, x)) == q
    ensures destination <= x < destination + width
  {
    hide SpanExact, AxisOk, StridesOf, Ravel;
    CoveredHasOffset(t, p, spans, x);
    var f := OffsetsFor(t, p, spans, x);
    var j := if WholeRows(t.axes) then f[|f| - 1] else 0;
    assert f[|f| - 1] < Counts(spans)[|f| - 1];
    assert InRow(t.axes, q, j) == f;
    RowContiguous(t, p, spans, q, j);
  }

  lemma RowScattered(t: Target, p: Piece, spans: seq<Span>, convert: int -> int, done: seq<seq<nat>>, q: seq<nat>,
                     source: nat, destination: nat, width: nat, before: seq<int>, now: seq<int>, after: seq<int>)
    requires IsRow(t, p, spans, q, source, destination, width)
    requires Scattered(t, p, spans, convert, done, before, now)
    requires destination + width <= |now| && (!p.missing ==> source + width <= |p.elements|)
    requires RowWritten(p, convert, source, destination, width, now, after)
    ensures Scattered(t, p, spans, convert, done + [q], before, after)
  {
    hide SpansOk, Covers, SourceOf, PieceAt, Destination, Offset, RowOf;
    forall x: nat | x < |after| && destination <= x < destination + width
      ensures Covers(t, p, x) && after[x] == ValueAt(t, p, convert, x)
    {
      var j := x - destination;
      RowElement(t, p, spans, q, source, destination, width, j);
    }
    forall x: nat | x < |after| && Covers(t, p, x) && RowOf(t.axes, OffsetsFor(t, p, spans, x)) in done + [q]
      ensures after[x] == ValueAt(t, p, convert, x)
    {
      if RowOf(t.axes, OffsetsFor(t, p, spans, x)) == q {
        RowReaches(t, p, spans, q, source, destination, width, x);
      }
    }
  }

  /** The result of scattering a whole piece. */
  ghost predicate PieceScattered(t: Target, p: Piece, convert: int -> int, before: seq<int>, after: seq<int>)
    requires TargetOk(t) && PieceOk(p) && |p.chunk| == |t.axes|
  {
    && |before| == |after| == Size(t.shape)
    && forall x: nat | x < |after| ::
         after[x] == if Covers(t, p, x) then ValueAt(t, p, convert, x) else before[x]
  }

  lemma AllRowsScattered(t: Target, p: Piece, spans: seq<Span>, convert: int -> int, before: seq<int>, now: seq<int>)
    requires TargetOk(t) && PieceOk(p) && |p.chunk| == |t.axes| && SpansOk(t, p, spans)
    requires Scattered(t, p, spans, convert, Product(Ranges(RowLengths(t.axes, Counts(spans)))), before, now)
    ensures PieceScattered(t, p, convert, before, now)
  {
    hide SpanOf, SourceOf, PieceAt;
    var lens := RowLengths(t.axes, Counts(spans));
    forall x: nat | x < |now| && Covers(t, p, x) ensures now[x] == ValueAt(t, p, convert, x) {
      CoveredHasOffset(t, p, spans, x);
      var q := RowOf(t.axes, OffsetsFor(t, p, spans, x));
      assert InRange(q, lens);
      RangesMembers(lens, q);
    }
  }

  // --- gather_chunk --------------------------------------------------------------------------------

  method ChunkSpans(t: Target, p: Piece) returns (spans: seq<Span>)
    requires TargetOk(t) && PieceOk(p) && |p.chunk| == |t.axes|
    ensures SpansOk(t, p, spans)
  {
    spans := [];
    for d := 0 to |t.axes|
      invariant |spans| == d
      invariant forall k | 0 <= k < d :: SpanOf(t.axes[k], p.chunk[k], p.coordinate[k], spans[k])
    {
      assert AxisOk(t.axes[d], t.shape[d + 1]);
      var span := ChunkSpan(t.axes[d], p.coordinate[d] * p.chunk[d], p.chunk[d]);
      spans := spans + [span];
    }
  }

  /** Where the element at span offsets `f` is read and written. */
  method ElementPosition(t: Target, p: Piece, spans: seq<Span>, f: seq<nat>) returns (source: nat, destination: nat)
    requires PlaceOk(t, p, spans, f)
    ensures source == Offset(t, p, spans, f) && destination == Destination(t, p, spans, f)
  {
    hide SpanExact, AxisOk, StridesOf, Ravel, SourceAt, PositionFor;
    var locals: seq<nat>, outputs: seq<nat> := [], [t.sample];
    for d := 0 to |f|
      invariant |locals| == d && |outputs| == d + 1 && outputs[0] == t.sample
      invariant forall k | 0 <= k < d :: locals[k] == Local(SourcesAt(t, p, spans, f), p.chunk)[k]
      invariant forall k | 0 <= k < d :: outputs[k + 1] == OutputsAt(t, p, spans, f)[k]
    {
      PlacePositions(t, p, spans, f, d);
      var position := spans[d].begin + f[d];
      locals := locals + [PositionSource(t.axes[d], position) - p.coordinate[d] * p.chunk[d]];
      outputs := outputs + [PositionOutput(t.axes[d], position)];
    }
    assert locals == Local(SourcesAt(t, p, spans, f), p.chunk);
    assert outputs == [t.sample] + OutputsAt(t, p, spans, f);
    source := HornerPosition(p.chunk, locals);
    destination := StridePosition(t.shape, t.strides, outputs);
  }

  /** Rows before `position` are done. */
  ghost predicate GatherInv(t: Target, p: Piece, spans: seq<Span>, convert: int -> int, position: seq<nat>,
                            done: seq<seq<nat>>, before: seq<int>, now: seq<int>)
    requires TargetOk(t) && PieceOk(p) && |p.chunk| == |t.axes| && SpansOk(t, p, spans)
  {
    var lens := RowLengths(t.axes, Counts(spans));
    && RowOk(t, p, spans, position)
    && Product(Ranges(lens)) == done + From(Ranges(lens), position)
    && Scattered(t, p, spans, convert, done, before, now)
  }

  ghost predicate NonEmpty(counts: seq<nat>) {
    forall d | 0 <= d < |counts| :: counts[d] > 0
  }

  lemma GatherStart(t: Target, p: Piece, spans: seq<Span>, convert: int -> int, buffer: seq<int>)
    requires TargetOk(t) && PieceOk(p) && |p.chunk| == |t.axes| && SpansOk(t, p, spans)
    requires |buffer| == Size(t.shape) && NonEmpty(Counts(spans))
    ensures GatherInv(t, p, spans, convert, Zeros(|t.axes|), [], buffer, buffer)
  {
    var lens := RowLengths(t.axes, Counts(spans));
    FromStart(Ranges(lens));
  }

  lemma RowTop(axes: seq<QueryAxis>, counts: seq<nat>, q: seq<nat>)
    requires axes != [] && |axes| == |counts| && InRange(q, RowLengths(axes, counts))
    ensures var top := if WholeRows(axes) then |q| - 1 else |q|;
            && q == q[..top] + Zeros(|q| - top)
            && Next(RowLengths(axes, counts)[top..], q[top..]).None?
  {
    var lens := RowLengths(axes, counts);
    if WholeRows(axes) {
      var last := |q| - 1;
      assert q[last] < lens[last] == 1;
      assert lens[last..] == [1] && q[last..] == [0];
      assert [0][1..] == [];
    }
  }

  /** Finishing row `q` and stepping the odometer keeps the invariant, or ends the walk. */
  lemma GatherStep(t: Target, p: Piece, spans: seq<Span>, convert: int -> int, q: seq<nat>,
                   done: seq<seq<nat>>, before: seq<int>, now: seq<int>)
    requires TargetOk(t) && PieceOk(p) && |p.chunk| == |t.axes| && SpansOk(t, p, spans)
    requires RowOk(t, p, spans, q)
    requires Product(Ranges(RowLengths(t.axes, Counts(spans))))
               == done + From(Ranges(RowLengths(t.axes, Counts(spans))), q)
    requires Scattered(t, p, spans, convert, done + [q], before, now)
    ensures var lens := RowLengths(t.axes, Counts(spans));
            match Next(lens, q)
            case Some(r) =>
              && GatherInv(t, p, spans, convert, r, done + [q], before, now)
              && |From(Ranges(lens), r)| < |From(Ranges(lens), q)|
            case None => PieceScattered(t, p, convert, before, now)
  {
    hide SpanOf, Scattered, PieceScattered, AxisOk, StridesOf, From, Product;
    var lens := RowLengths(t.axes, Counts(spans));
    var lists := Ranges(lens);
    RangesPick(lens, q);
    FromStep(lists, q);
    match Next(lens, q) {
      case Some(r) =>
        assert done + From(lists, q) == (done + [q]) + From(lists, r);
        assert InRange(r, Counts(spans)) by {
          forall d | 0 <= d < |r| ensures r[d] < Counts(spans)[d] {
            assert r[d] < lens[d] && q[d] < Counts(spans)[d];
          }
        }
      case None =>
        assert done + From(lists, q) == done + [q];
        AllRowsScattered(t, p, spans, convert, before, now);
    }
  }

  lemma NothingCovered(t: Target, p: Piece, spans: seq<Span>, convert: int -> int, buffer: seq<int>)
    requires TargetOk(t) && PieceOk(p) && |p.chunk| == |t.axes| && SpansOk(t, p, spans)
    requires |buffer| == Size(t.shape) && !NonEmpty(Counts(spans))
    ensures PieceScattered(t, p, convert, buffer, buffer)
  {
    forall x: nat | x < |buffer| ensures !Covers(t, p, x) {
      if Covers(t, p, x) {
        CoveredHasOffset(t, p, spans, x);
        assert false;
      }
    }
  }

  method SpanElements(spans: seq<Span>) returns (elements: nat)
    ensures elements == 0 <==> !NonEmpty(Counts(spans))
  {
    elements := 1;
    for d := 0 to |spans|
      invariant elements > 0 <==> forall k | 0 <= k < d :: Counts(spans)[k] > 0
    {
      assert Counts(spans)[d] == spans[d].count;
      if elements > 0 && spans[d].count > 0 { MulMono(1, elements, spans[d].count); }
      elements := elements * spans[d].count;
    }
  }

  /** Scatters one chunk of a region with any mix of intervals and index lists. */
  method GatherChunk(buffer: array<int>, t: Target, p: Piece, convert: int -> int)
    requires TargetOk(t) && PieceOk(p) && |p.chunk| == |t.axes| && buffer.Length == Size(t.shape)
    modifies buffer
    ensures PieceScattered(t, p, convert, old(buffer[..]), buffer[..])
  {
    ghost var before := buffer[..];
    var spans := ChunkSpans(t, p);
    var elements := SpanElements(spans);
    if elements == 0 {
      NothingCovered(t, p, spans, convert, before);
      return;
    }
    GatherStart(t, p, spans, convert, before);
    GatherRows(buffer, t, p, convert, spans);
  }

  method GatherRows(buffer: array<int>, t: Target, p: Piece, convert: int -> int, spans: seq<Span>)
    requires TargetOk(t) && PieceOk(p) && |p.chunk| == |t.axes| && SpansOk(t, p, spans)
    requires buffer.Length == Size(t.shape)
    requires GatherInv(t, p, spans, convert, Zeros(|t.axes|), [], buffer[..], buffer[..])
    modifies buffer
    ensures PieceScattered(t, p, convert, old(buffer[..]), buffer[..])
  {
    hide Scattered, PieceScattered, From, SpanOf, AxisOk, StridesOf, Destination, Offset;
    ghost var before, done: seq<seq<nat>> := buffer[..], [];
    var lens, width := RowLengths(t.axes, Counts(spans)), RowWidth(t.axes, Counts(spans));
    var position := Zeros(|t.axes|);
    var more := true;
    while more
      invariant |position| == |t.axes|
      invariant more ==> GatherInv(t, p, spans, convert, position, done, before, buffer[..])
      invariant !more ==> PieceScattered(t, p, convert, before, buffer[..])
      decreases if more then |From(Ranges(lens), position)| + 1 else 0
    {
      ghost var q, now := position, buffer[..];
      var source, destination := ElementPosition(t, p, spans, position);
      RowFits(t, p, spans, q, source, destination, width);
      CopyRow(buffer, p, convert, source, destination, width);
      RowScattered(t, p, spans, convert, done, q, source, destination, width, before, now, buffer[..]);
      GatherStep(t, p, spans, convert, q, done, before, buffer[..]);
      RowTop(t.axes, Counts(spans), q);
      more, position := Advance(lens, position, if WholeRows(t.axes) then |t.axes| - 1 else |t.axes|);
      done := done + [q];
    }
  }

  // --- The copy path of assemble_chunk ----------------------------------------------------------------

  ghost predicate PlainAxes(axes: seq<QueryAxis>) {
    forall d | 0 <= d < |axes| :: axes[d].entries == []
  }

  /** The box of source coordinates in both the region and the chunk. */
  method CopyBox(t: Target, p: Piece) returns (lo: seq<nat>, hi: seq<nat>)
    requires TargetOk(t) && PieceOk(p) && |p.chunk| == |t.axes| && PlainAxes(t.axes)
    ensures |lo| == |hi| == |t.axes|
    ensures forall d | 0 <= d < |lo| ::
              lo[d] < hi[d] ==> SpanOf(t.axes[d], p.chunk[d], p.coordinate[d], Span(lo[d], hi[d] - lo[d]))
    ensures forall d | 0 <= d < |lo| :: lo[d] < hi[d] <==> Touches(t.axes[d], p.chunk[d], p.coordinate[d])
  {
    hide AxisOk, StridesOf, Touches, Selects;
    lo, hi := [], [];
    for d := 0 to |t.axes|
      invariant |lo| == |hi| == d
      invariant forall k | 0 <= k < d ::
                  lo[k] < hi[k] ==> SpanOf(t.axes[k], p.chunk[k], p.coordinate[k], Span(lo[k], hi[k] - lo[k]))
      invariant forall k | 0 <= k < d :: lo[k] < hi[k] <==> Touches(t.axes[k], p.chunk[k], p.coordinate[k])
    {
      var origin := p.coordinate[d] * p.chunk[d];
      var beg, end := t.axes[d].beg, t.axes[d].end;
      var l := if origin > beg then origin else beg;
      var h := if origin + p.chunk[d] < end then origin + p.chunk[d] else end;
      AxisBounds(t, d);
      BoxTouches(t.axes[d], p.chunk[d], p.coordinate[d], l, h);
      lo, hi := lo + [l], hi + [h];
    }
  }

  lemma AxisBounds(t: Target, d: nat)
    requires TargetOk(t) && d < |t.axes|
    ensures t.axes[d].beg < t.axes[d].end
  {
    assert AxisOk(t.axes[d], t.shape[d + 1]);
  }

  lemma BoxTouches(axis: QueryAxis, chunk: nat, cell: nat, lo: nat, hi: nat)
    requires axis.entries == [] && axis.beg < axis.end && chunk > 0
    requires lo == if cell * chunk > axis.beg then cell * chunk else axis.beg
    requires hi == if cell * chunk + chunk < axis.end then cell * chunk + chunk else axis.end
    ensures lo < hi <==> Touches(axis, chunk, cell)
  {
    if lo < hi {
      InCell(lo, chunk, cell);
      assert Selects(axis, lo);
    }
    if Touches(axis, chunk, cell) {
      var x: nat :| Selects(axis, x) && x / chunk == cell;
      InCell(x, chunk, cell);
    }
  }

  /** The carry loop over a box of coordinates, below axis `top`. */
  method AdvanceBox(lo: seq<nat>, hi: seq<nat>, c: seq<nat>, top: nat, ghost lens: seq<nat>, ghost q: seq<nat>)
    returns (more: bool, c': seq<nat>)
    requires |lo| == |hi| == |c| == |lens| == |q| && top <= |c|
    requires InRange(q, lens) && q == q[..top] + Zeros(|q| - top) && Next(lens[top..], q[top..]).None?
    requires forall d | 0 <= d < |c| :: c[d] == lo[d] + q[d]
    requires forall d | 0 <= d < top :: lo[d] + lens[d] == hi[d]
    ensures |c'| == |c|
    ensures more <==> Next(lens, q).Some?
    ensures more ==> forall d | 0 <= d < |c| :: c'[d] == lo[d] + Next(lens, q).value[d]
  {
    c' := c;
    var d := top;
    ghost var r := q;
    while d > 0
      invariant 0 <= d <= top && |c'| == |c| == |r|
      invariant r == q[..d] + Zeros(|q| - d) && Next(lens[d..], q[d..]).None?
      invariant forall k | 0 <= k < |c| :: c'[k] == lo[k] + r[k]
    {
      d := d - 1;
      CarryDigits(lens, q, d);
      if c'[d] + 1 < hi[d] {
        return true, c'[d := c'[d] + 1];
      }
      c' := c'[d := lo[d]];
      r := r[d := 0];
    }
    assert lens[0..] == lens && q[0..] == q;
    return false, c';
  }

  ghost function BoxSpans(lo: seq<nat>, hi: seq<nat>): (spans: seq<Span>)
    requires |lo| == |hi| && forall d | 0 <= d < |lo| :: lo[d] < hi[d]
    ensures |spans| == |lo|
  {
    seq(|lo|, d requires 0 <= d < |lo| => Span(lo[d], hi[d] - lo[d]))
  }

  method CoordinatePosition(t: Target, p: Piece, c: seq<nat>, ghost lo: seq<nat>, ghost hi: seq<nat>, ghost q: seq<nat>)
    returns (source: nat, destination: nat)
    requires |lo| == |hi| && forall d | 0 <= d < |lo| :: lo[d] < hi[d]
    requires PlaceOk(t, p, BoxSpans(lo, hi), q) && PlainAxes(t.axes)
    requires |c| == |q| && forall d | 0 <= d < |c| :: c[d] == lo[d] + q[d]
    ensures source == Offset(t, p, BoxSpans(lo, hi), q) && destination == Destination(t, p, BoxSpans(lo, hi), q)
  {
    hide SpanExact, AxisOk, StridesOf, Ravel, SourceAt, PositionFor;
    ghost var spans := BoxSpans(lo, hi);
    var locals: seq<nat>, outputs: seq<nat> := [], [t.sample];
    for d := 0 to |c|
      invariant |locals| == d && |outputs| == d + 1 && outputs[0] == t.sample
      invariant forall k | 0 <= k < d :: locals[k] == Local(SourcesAt(t, p, spans, q), p.chunk)[k]
      invariant forall k | 0 <= k < d :: outputs[k + 1] == OutputsAt(t, p, spans, q)[k]
    {
      PlacePositions(t, p, spans, q, d);
      locals := locals + [c[d] - p.coordinate[d] * p.chunk[d]];
      outputs := outputs + [c[d] - t.axes[d].beg];
    }
    assert locals == Local(SourcesAt(t, p, spans, q), p.chunk);
    assert outputs == [t.sample] + OutputsAt(t, p, spans, q);
    source := HornerPosition(p.chunk, locals);
    destination := StridePosition(t.shape, t.strides, outputs);
  }

  /** Scatters one chunk of a region made of intervals only. The region must touch the chunk. */
  method CopyChunk(buffer: array<int>, t: Target, p: Piece, convert: int -> int)
    requires TargetOk(t) && PieceOk(p) && |p.chunk| == |t.axes| && buffer.Length == Size(t.shape)
    requires PlainAxes(t.axes)
    requires forall d | 0 <= d < |t.axes| :: Touches(t.axes[d], p.chunk[d], p.coordinate[d])
    modifies buffer
    ensures PieceScattered(t, p, convert, old(buffer[..]), buffer[..])
  {
    var lo, hi := CopyBox(t, p);
    GatherStart(t, p, BoxSpans(lo, hi), convert, buffer[..]);
    CopyRows(buffer, t, p, convert, lo, hi);
  }

  method CopyRows(buffer: array<int>, t: Target, p: Piece, convert: int -> int, lo: seq<nat>, hi: seq<nat>)
    requires TargetOk(t) && PieceOk(p) && |p.chunk| == |t.axes| && buffer.Length == Size(t.shape) && PlainAxes(t.axes)
    requires |lo| == |hi| && forall d | 0 <= d < |lo| :: lo[d] < hi[d]
    requires SpansOk(t, p, BoxSpans(lo, hi))
    requires GatherInv(t, p, BoxSpans(lo, hi), convert, Zeros(|t.axes|), [], buffer[..], buffer[..])
    modifies buffer
    ensures PieceScattered(t, p, convert, old(buffer[..]), buffer[..])
  {
    hide Scattered, PieceScattered, From, SpanOf, AxisOk, StridesOf, Destination, Offset;
    ghost var spans := BoxSpans(lo, hi);
    ghost var before, done: seq<seq<nat>> := buffer[..], [];
    ghost var lens := RowLengths(t.axes, Counts(spans));
    ghost var q := Zeros(|t.axes|);
    var last := |t.axes| - 1;
    var width := hi[last] - lo[last];
    var coordinate := lo;
    var more := true;
    while more
      invariant |coordinate| == |q| == |t.axes|
      invariant more ==> GatherInv(t, p, spans, convert, q, done, before, buffer[..])
      invariant more ==> forall d | 0 <= d < |q| :: coordinate[d] == lo[d] + q[d]
      invariant !more ==> PieceScattered(t, p, convert, before, buffer[..])
      decreases if more then |From(Ranges(lens), q)| + 1 else 0
    {
      ghost var now := buffer[..];
      var source, destination := CoordinatePosition(t, p, coordinate, lo, hi, q);
      RowFits(t, p, spans, q, source, destination, width);
      CopyRow(buffer, p, convert, source, destination, width);
      RowScattered(t, p, spans, convert, done, q, source, destination, width, before, now, buffer[..]);
      GatherStep(t, p, spans, convert, q, done, before, buffer[..]);
      RowTop(t.axes, Counts(spans), q);
      done := done + [q];
      more, coordinate := AdvanceBox(lo, hi, coordinate, last, lens, q);
      if more { q := Next(lens, q).value; }
    }
  }
}
