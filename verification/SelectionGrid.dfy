/** The iterator over the grid cells that a selection touches. */
module SelectionGrids {
  import opened Statuses
  import opened Odometer
  import opened Seqs
  import opened Selection
  import opened Arith

  // --- What the iterator should yield ------------------------------------------------

  ghost predicate Selects(axis: QueryAxis, x: nat) {
    if axis.entries == [] then axis.beg <= x < axis.end
    else exists k :: 0 <= k < |axis.entries| && axis.entries[k].source == x
  }

  ghost predicate Touches(axis: QueryAxis, size: nat, cell: nat)
    requires size > 0
  {
    exists x: nat :: Selects(axis, x) && x / size == cell
  }

  /** The grid cell of the given extents that holds `x`: the chunk of an element, the shard of a chunk. */
  ghost function CellOf(x: seq<nat>, extents: seq<nat>): (c: seq<nat>)
    requires |x| == |extents| && forall d | 0 <= d < |extents| :: extents[d] > 0
    ensures |c| == |x|
  {
    seq(|x|, d requires 0 <= d < |x| => x[d] / extents[d])
  }

  /** The cells in [lo, hi) that the axis touches, in increasing order. */
  ghost function Touched(axis: QueryAxis, size: nat, lo: nat, hi: nat): seq<nat>
    requires size > 0
    decreases hi - lo
  {
    if lo >= hi then []
    else (if Touches(axis, size, lo) then [lo] else []) + Touched(axis, size, lo + 1, hi)
  }

  lemma {:induction false} TouchedSpec(axis: QueryAxis, size: nat, lo: nat, hi: nat)
    requires size > 0
    ensures Increasing(Touched(axis, size, lo, hi))
    ensures forall c: nat :: c in Touched(axis, size, lo, hi) <==> lo <= c < hi && Touches(axis, size, c)
    decreases hi - lo
  {
    if lo < hi {
      TouchedSpec(axis, size, lo + 1, hi);
      var rest := Touched(axis, size, lo + 1, hi);
      assert forall i | 0 <= i < |rest| :: rest[i] in rest;
    }
  }

  /** An increasing sequence is determined by its members. */
  lemma {:induction false} IncreasingUnique(s: seq<nat>, t: seq<nat>)
    requires Increasing(s) && Increasing(t)
    requires forall c: nat :: c in s <==> c in t
    ensures s == t
    decreases |s|
  {
    assert t != [] ==> t[0] in t;
    if s != [] {
      assert s[0] in s;
      assert t[0] == s[0];
      forall c: nat ensures c in s[1..] <==> c in t[1..] {
        if c in s[1..] { assert c in s && c > s[0]; }
        if c in t[1..] { assert c in t && c > t[0]; }
      }
      IncreasingUnique(s[1..], t[1..]);
    }
  }

  /** The cell bounds inside which a chunk walk stays while visiting one shard. */
  datatype Clip = Clip(beg: seq<nat>, end: seq<nat>)

  function CellEnd(axis: QueryAxis, size: nat): nat
    requires size > 0 && axis.end > 0
  {
    (axis.end - 1) / size + 1
  }

  ghost function TouchedOn(axis: QueryAxis, size: nat, clip: Option<Clip>, d: nat): seq<nat>
    requires size > 0 && axis.end > 0
    requires clip.Some? ==> d < |clip.value.beg| && d < |clip.value.end|
  {
    match clip
    case None => Touched(axis, size, 0, CellEnd(axis, size))
    case Some(c) => Touched(axis, size, c.beg[d], c.end[d])
  }

  ghost predicate ClipOk(clip: Option<Clip>, rank: nat) {
    clip.Some? ==> |clip.value.beg| == rank && |clip.value.end| == rank
  }

  ghost predicate DimOk(axis: QueryAxis, size: nat) {
    axis.beg < axis.end && size > 0
  }

  ghost predicate DimsOk(query: seq<QueryAxis>, shape: seq<nat>) {
    |shape| == |query| && forall d | 0 <= d < |query| :: DimOk(query[d], shape[d])
  }

  /** Per axis, the distinct cells the selection touches within the clip. */
  ghost function TouchedLists(query: seq<QueryAxis>, shape: seq<nat>, clip: Option<Clip>): (r: seq<seq<nat>>)
    requires DimsOk(query, shape) && ClipOk(clip, |query|)
    ensures |r| == |query|
  {
    seq(|query|, d requires 0 <= d < |query| => TouchedOn(query[d], shape[d], clip, d))
  }

  // --- Grid axes ---------------------------------------------------------------------

  datatype GridAxis = GridAxis(
    entries: seq<QueryIndex>,
    size: nat,
    cellBeg: nat,
    cellEnd: nat,
    current: nat,
    entryBeg: nat,
    entryEnd: nat,
    entry: nat)

  function Range(lo: nat, hi: nat): (r: seq<nat>)
    ensures |r| == if lo < hi then hi - lo else 0
    ensures forall i | 0 <= i < |r| :: r[i] == lo + i
  {
    if lo < hi then seq(hi - lo, i requires 0 <= i => lo + i) else []
  }

  /** The cells of sorted entries with adjacent repeats dropped. */
  function DistinctCells(entries: seq<QueryIndex>, size: nat): seq<nat>
    requires size > 0
  {
    if entries == [] then []
    else
      var before := DistinctCells(entries[..|entries| - 1], size);
      var cell := entries[|entries| - 1].source / size;
      if before != [] && before[|before| - 1] == cell then before else before + [cell]
  }

  ghost predicate Nondecreasing(entries: seq<QueryIndex>) {
    forall i, j | 0 <= i < j < |entries| :: entries[i].source <= entries[j].source
  }

  lemma {:induction false} DistinctSpec(entries: seq<QueryIndex>, size: nat)
    requires size > 0 && Nondecreasing(entries)
    ensures var r := DistinctCells(entries, size);
            && Increasing(r)
            && (entries != [] ==> r != [] && r[|r| - 1] == entries[|entries| - 1].source / size)
            && (forall c: nat :: c in r <==> exists k :: 0 <= k < |entries| && entries[k].source / size == c)
    decreases |entries|
  {
    if entries != [] {
      var n := |entries| - 1;
      var front := entries[..n];
      DistinctSpec(front, size);
      var before, r, cell := DistinctCells(front, size), DistinctCells(entries, size), entries[n].source / size;
      if n > 0 {
        DivMono(entries[n - 1].source, entries[n].source, size);
        assert before[|before| - 1] == front[n - 1].source / size;
      }
      forall c: nat ensures c in r <==> exists k :: 0 <= k < |entries| && entries[k].source / size == c {
        if c in r {
          if c == cell {
            assert entries[n].source / size == c;
          } else {
            assert c in before;
            var k :| 0 <= k < |front| && front[k].source / size == c;
            assert entries[k].source / size == c;
          }
        }
        if k :| 0 <= k < |entries| && entries[k].source / size == c {
          if k < n { assert front[k].source / size == c; assert c in before; }
        }
      }
    }
  }

  lemma {:induction false} DistinctPrefix(entries: seq<QueryIndex>, size: nat, k: nat)
    requires size > 0 && k <= |entries|
    ensures DistinctCells(entries[..k], size) <= DistinctCells(entries, size)
    decreases |entries|
  {
    if k == |entries| {
      assert entries[..k] == entries;
    } else {
      DistinctPrefix(entries[..|entries| - 1], size, k);
      assert entries[..|entries| - 1][..k] == entries[..k];
    }
  }

  function Cells(a: GridAxis): seq<nat>
    requires GridAxisShape(a)
  {
    if a.entries == [] then Range(a.cellBeg, a.cellEnd)
    else DistinctCells(a.entries[a.entryBeg..a.entryEnd], a.size)
  }

  predicate GridAxisShape(a: GridAxis) {
    a.size > 0 && a.entryBeg <= a.entryEnd <= |a.entries|
  }

  /** Entries of the current cell and before, counted from the first entry in the clip. */
  ghost function Seen(a: GridAxis): seq<nat>
    requires GridAxisShape(a) && a.entryBeg <= a.entry < a.entryEnd
  {
    DistinctCells(a.entries[a.entryBeg..a.entry + 1], a.size)
  }

  ghost predicate GridAxisOk(a: GridAxis) {
    && GridAxisShape(a)
    && if a.entries == [] then a.cellBeg <= a.current < a.cellEnd
       else
         && a.entryBeg <= a.entry < a.entryEnd
         && Seen(a) != [] && a.current == Seen(a)[|Seen(a)| - 1]
  }

  /** Which of the axis's cells is current. */
  ghost function Position(a: GridAxis): nat
    requires GridAxisOk(a)
  {
    if a.entries == [] then a.current - a.cellBeg else |Seen(a)| - 1
  }

  lemma PositionInCells(a: GridAxis)
    requires GridAxisOk(a)
    ensures Position(a) < |Cells(a)| && Cells(a)[Position(a)] == a.current
  {
    if a.entries != [] {
      var all := a.entries[a.entryBeg..a.entryEnd];
      DistinctPrefix(all, a.size, a.entry + 1 - a.entryBeg);
      assert all[..a.entry + 1 - a.entryBeg] == a.entries[a.entryBeg..a.entry + 1];
    }
  }

  /** The parts of a grid axis that iteration never changes. */
  ghost predicate SameCells(a: GridAxis, b: GridAxis) {
    b == a.(current := b.current, entry := b.entry)
  }

  /** One digit of the odometer: move to the next distinct cell, or wrap to the first. */
  method StepAxis(a: GridAxis) returns (b: GridAxis, advanced: bool)
    requires GridAxisOk(a)
    ensures GridAxisOk(b) && SameCells(a, b)
    ensures advanced ==> Position(b) == Position(a) + 1 < |Cells(a)|
    ensures !advanced ==> Position(a) + 1 == |Cells(a)| && Position(b) == 0
  {
    if a.entries != [] {
      b, advanced := StepEntries(a);
      return;
    }
    b := a.(current := a.current + 1);
    advanced := b.current < b.cellEnd;
    if !advanced { b := b.(current := b.cellBeg); }
  }

  method StepEntries(a: GridAxis) returns (b: GridAxis, advanced: bool)
    requires GridAxisOk(a) && a.entries != []
    ensures GridAxisOk(b) && SameCells(a, b)
    ensures advanced ==> Position(b) == Position(a) + 1 < |Cells(a)|
    ensures !advanced ==> Position(a) + 1 == |Cells(a)| && Position(b) == 0
  {
    hide DistinctCells;
    var entry := SkipCell(a);
    advanced := entry < a.entryEnd;
    if advanced {
      b := a.(entry := entry, current := a.entries[entry].source / a.size);
      SeenSnoc(b);
      PositionInCells(b);
    } else {
      b := a.(entry := a.entryBeg, current := a.entries[a.entryBeg].source / a.size);
      AtFirstEntry(b);
    }
  }

  /** The first entry after the current one that lies in another cell. */
  method SkipCell(a: GridAxis) returns (entry: nat)
    requires GridAxisOk(a) && a.entries != []
    ensures a.entry < entry <= a.entryEnd
    ensures DistinctCells(a.entries[a.entryBeg..entry], a.size) == Seen(a)
    ensures entry < a.entryEnd ==> a.entries[entry].source / a.size != a.current
  {
    entry := a.entry + 1;
    while entry < a.entryEnd && a.entries[entry].source / a.size == a.current
      invariant a.entry < entry <= a.entryEnd
      invariant DistinctCells(a.entries[a.entryBeg..entry], a.size) == Seen(a)
    {
      SeenSnoc(a.(entry := entry));
      entry := entry + 1;
    }
  }

  lemma AtFirstEntry(a: GridAxis)
    requires GridAxisShape(a) && a.entries != [] && a.entry == a.entryBeg < a.entryEnd
    requires a.current == a.entries[a.entry].source / a.size
    ensures GridAxisOk(a) && Position(a) == 0
  {
    var s := a.entries[a.entryBeg..a.entry + 1];
    assert s == [a.entries[a.entry]];
    assert s[..0] == [];
    assert DistinctCells(s, a.size) == [] + [a.current];
  }

  lemma SeenSnoc(a: GridAxis)
    requires GridAxisShape(a) && a.entryBeg < a.entry < a.entryEnd
    ensures var before := DistinctCells(a.entries[a.entryBeg..a.entry], a.size);
            var cell := a.entries[a.entry].source / a.size;
            Seen(a) == if before != [] && before[|before| - 1] == cell then before else before + [cell]
  {
    var s := a.entries[a.entryBeg..a.entry + 1];
    assert s[..|s| - 1] == a.entries[a.entryBeg..a.entry];
  }

  // --- Initialisation -----------------------------------------------------------------

  /** Source sorted as query_copy leaves it. */
  ghost predicate AxisSorted(axis: QueryAxis) {
    && SortedEntries(axis.entries)
    && axis.end <= I64_MAX
    && forall k | 0 <= k < |axis.entries| :: axis.beg <= axis.entries[k].source < axis.end
  }

  function CellStart(cell: nat, size: nat): (start: nat)
    requires size > 0
    ensures start == if cell * size <= U64_MAX then cell * size else U64_MAX
  {
    DivGalois(cell, U64_MAX, size);
    if cell > U64_MAX / size then U64_MAX else cell * size
  }

  lemma CellStartExact(x: nat, cell: nat, size: nat)
    requires size > 0 && x < I64_MAX
    ensures CellStart(cell, size) <= x <==> cell <= x / size
  {
    DivGalois(cell, x, size);
    DivMono(x, U64_MAX, size);
  }

  method InitAxis(axis: QueryAxis, size: nat, clip: Option<Clip>, d: nat) returns (a: GridAxis, cellCount: nat)
    requires DimOk(axis, size) && AxisSorted(axis)
    requires clip.Some? ==> d < |clip.value.beg| && d < |clip.value.end|
    ensures GridAxisShape(a) && Cells(a) == TouchedOn(axis, size, clip, d)
    ensures cellCount == |Cells(a)|
    ensures cellCount > 0 ==> GridAxisOk(a) && Position(a) == 0
  {
    hide Touched, SortedEntries, AxisSorted, Seen, DistinctCells, Increasing;
    var beg := axis.beg / size;
    var end := (axis.end - 1) / size + 1;
    if clip.Some? && beg < clip.value.beg[d] { beg := clip.value.beg[d]; }
    if clip.Some? && end > clip.value.end[d] { end := clip.value.end[d]; }
    ClippedRange(axis, size, clip, d, beg, end);
    cellCount := if end > beg then end - beg else 0;
    a := GridAxis([], size, beg, end, beg, 0, 0, 0);
    if axis.entries != [] && cellCount > 0 {
      a, cellCount := InitEntries(axis, size, beg, end);
    } else {
      PlainCellsAreTouched(axis, size, beg, end);
    }
  }

  method InitEntries(axis: QueryAxis, size: nat, beg: nat, end: nat) returns (a: GridAxis, cellCount: nat)
    requires DimOk(axis, size) && AxisSorted(axis) && axis.entries != [] && beg < end
    ensures GridAxisShape(a) && Cells(a) == Touched(axis, size, beg, end)
    ensures cellCount == |Cells(a)|
    ensures cellCount > 0 ==> GridAxisOk(a) && Position(a) == 0
  {
    var first := LowerBound(axis.entries, CellStart(beg, size));
    var last := LowerBound(axis.entries, CellStart(end, size));
    WindowOrder(axis, size, beg, end, first, last);
    IndexedCellsAreTouched(axis, size, beg, end, first, last);
    cellCount := CountCells(axis.entries, size, first, last);
    a := GridAxis(axis.entries, size, beg, end, beg, first, last, first);
    if cellCount > 0 {
      a := a.(current := axis.entries[first].source / size);
      AtFirstEntry(a);
    }
  }

  method CountCells(entries: seq<QueryIndex>, size: nat, first: nat, last: nat) returns (count: nat)
    requires size > 0 && first <= last <= |entries|
    requires forall k | 0 <= k < |entries| :: entries[k].source < I64_MAX
    ensures count == |DistinctCells(entries[first..last], size)|
    ensures count > 0 ==> first < last
  {
    count := 0;
    var previous := U64_MAX;
    for entry := first to last
      invariant count == |DistinctCells(entries[first..entry], size)|
      invariant entry > first ==> count > 0 && DistinctCells(entries[first..entry], size)[count - 1] == previous
      invariant entry == first ==> previous == U64_MAX
    {
      var cell := entries[entry].source / size;
      assert entries[first..entry + 1][..entry - first] == entries[first..entry];
      DivBounds(entries[entry].source, size);
      count := count + if cell != previous then 1 else 0;
      previous := cell;
    }
  }

  lemma WindowOrder(axis: QueryAxis, size: nat, beg: nat, end: nat, first: nat, last: nat)
    requires DimOk(axis, size) && AxisSorted(axis) && beg < end
    requires IsLowerBound(axis.entries, CellStart(beg, size), first)
    requires IsLowerBound(axis.entries, CellStart(end, size), last)
    ensures first <= last <= |axis.entries|
    ensures forall k | 0 <= k < |axis.entries| :: first <= k < last <==> beg <= axis.entries[k].source / size < end
  {
    forall k | 0 <= k < |axis.entries|
      ensures first <= k <==> beg <= axis.entries[k].source / size
      ensures k < last <==> axis.entries[k].source / size < end
    {
      CellStartExact(axis.entries[k].source, beg, size);
      CellStartExact(axis.entries[k].source, end, size);
    }
    assert first > 0 ==> axis.entries[first - 1].source / size < beg;
  }

  lemma WindowTouches(axis: QueryAxis, size: nat, beg: nat, end: nat, first: nat, last: nat, c: nat)
    requires DimOk(axis, size) && axis.entries != [] && first <= last <= |axis.entries|
    requires forall k | 0 <= k < |axis.entries| :: first <= k < last <==> beg <= axis.entries[k].source / size < end
    ensures (exists k :: 0 <= k < last - first && axis.entries[first..last][k].source / size == c) <==>
            beg <= c < end && Touches(axis, size, c)
  {
    var window := axis.entries[first..last];
    if k :| 0 <= k < |window| && window[k].source / size == c {
      assert axis.entries[first + k].source / size == c;
      assert Selects(axis, axis.entries[first + k].source);
    }
    if beg <= c < end && Touches(axis, size, c) {
      var x: nat :| Selects(axis, x) && x / size == c;
      var k :| 0 <= k < |axis.entries| && axis.entries[k].source == x;
      assert window[k - first].source / size == c;
    }
  }

  lemma IndexedCellsAreTouched(axis: QueryAxis, size: nat, beg: nat, end: nat, first: nat, last: nat)
    requires DimOk(axis, size) && AxisSorted(axis) && axis.entries != [] && beg < end
    requires first <= last <= |axis.entries|
    requires forall k | 0 <= k < |axis.entries| :: first <= k < last <==> beg <= axis.entries[k].source / size < end
    ensures DistinctCells(axis.entries[first..last], size) == Touched(axis, size, beg, end)
  {
    var window := axis.entries[first..last];
    assert Nondecreasing(window) by {
      forall i, j | 0 <= i < j < |window| ensures window[i].source <= window[j].source {
        assert IndexLess(axis.entries[first + i], axis.entries[first + j]);
      }
    }
    DistinctSpec(window, size);
    TouchedSpec(axis, size, beg, end);
    forall c: nat ensures c in DistinctCells(window, size) <==> beg <= c < end && Touches(axis, size, c) {
      WindowTouches(axis, size, beg, end, first, last, c);
    }
    IncreasingUnique(DistinctCells(window, size), Touched(axis, size, beg, end));
  }

  lemma IntervalTouches(axis: QueryAxis, size: nat, c: nat)
    requires DimOk(axis, size) && axis.entries == []
    ensures Touches(axis, size, c) <==> axis.beg / size <= c <= (axis.end - 1) / size
  {
    if Touches(axis, size, c) {
      var x: nat :| Selects(axis, x) && x / size == c;
      DivMono(axis.beg, x, size);
      DivMono(x, axis.end - 1, size);
    }
    if axis.beg / size <= c <= (axis.end - 1) / size {
      var x := if c == axis.beg / size then axis.beg else c * size;
      MulDiv(c, size);
      DivGalois(c, axis.beg, size);
      DivGalois(c, axis.end - 1, size);
      assert Selects(axis, x);
    }
  }

  lemma PlainCellsAreTouched(axis: QueryAxis, size: nat, beg: nat, end: nat)
    requires DimOk(axis, size)
    requires axis.entries == [] || beg >= end
    requires axis.beg / size <= beg && end <= CellEnd(axis, size)
    ensures Range(beg, end) == Touched(axis, size, beg, end)
  {
    if beg < end {
      TouchedSpec(axis, size, beg, end);
      forall c: nat ensures c in Range(beg, end) <==> c in Touched(axis, size, beg, end) {
        IntervalTouches(axis, size, c);
        if beg <= c < end { assert Range(beg, end)[c - beg] == c; }
      }
      IncreasingUnique(Range(beg, end), Touched(axis, size, beg, end));
    }
  }

  /** Narrowing the window to the selection's bounding cells drops nothing. */
  lemma ClippedRange(axis: QueryAxis, size: nat, clip: Option<Clip>, d: nat, beg: nat, end: nat)
    requires DimOk(axis, size) && AxisSorted(axis)
    requires clip.Some? ==> d < |clip.value.beg| && d < |clip.value.end|
    requires beg == if clip.Some? && clip.value.beg[d] > axis.beg / size then clip.value.beg[d] else axis.beg / size
    requires end == if clip.Some? && clip.value.end[d] < CellEnd(axis, size) then clip.value.end[d]
               else CellEnd(axis, size)
    ensures Touched(axis, size, beg, end) == TouchedOn(axis, size, clip, d)
  {
    var wide := TouchedOn(axis, size, clip, d);
    TouchedSpec(axis, size, beg, end);
    if clip.Some? {
      TouchedSpec(axis, size, clip.value.beg[d], clip.value.end[d]);
    } else {
      TouchedSpec(axis, size, 0, CellEnd(axis, size));
    }
    forall c: nat | Touches(axis, size, c) ensures axis.beg / size <= c < CellEnd(axis, size) {
      var x: nat :| Selects(axis, x) && x / size == c;
      assert axis.beg <= x < axis.end;
      DivMono(axis.beg, x, size);
      DivMono(x, axis.end - 1, size);
    }
    IncreasingUnique(Touched(axis, size, beg, end), wide);
  }

  // --- The iterator --------------------------------------------------------------------

  ghost predicate AllShaped(axes: seq<GridAxis>) {
    forall d | 0 <= d < |axes| :: GridAxisShape(axes[d])
  }

  ghost predicate AllOk(axes: seq<GridAxis>) {
    forall d | 0 <= d < |axes| :: GridAxisOk(axes[d])
  }

  ghost function CellLists(axes: seq<GridAxis>): (r: seq<seq<nat>>)
    requires AllShaped(axes)
    ensures |r| == |axes|
  {
    seq(|axes|, d requires 0 <= d < |axes| => Cells(axes[d]))
  }

  ghost function Positions(axes: seq<GridAxis>): (p: seq<nat>)
    requires AllOk(axes)
    ensures |p| == |axes|
    ensures InRange(p, Lengths(CellLists(axes)))
  {
    var p := seq(|axes|, d requires 0 <= d < |axes| => Position(axes[d]));
    assert forall d | 0 <= d < |axes| :: p[d] < |Cells(axes[d])| by {
      forall d | 0 <= d < |axes| ensures Position(axes[d]) < |Cells(axes[d])| { PositionInCells(axes[d]); }
    }
    p
  }

  ghost function Currents(axes: seq<GridAxis>): seq<nat> {
    seq(|axes|, d requires 0 <= d < |axes| => axes[d].current)
  }

  lemma CurrentsArePicked(axes: seq<GridAxis>)
    requires AllOk(axes)
    ensures Currents(axes) == Pick(CellLists(axes), Positions(axes))
  {
    forall d | 0 <= d < |axes| ensures axes[d].current == CellLists(axes)[d][Positions(axes)[d]] {
      PositionInCells(axes[d]);
    }
  }

  class SelectionGrid {
    var axes: seq<GridAxis>
    var count: nat
    var finished: bool

    /** An exhausted grid, before initialisation. */
    constructor ()
      ensures finished && axes == [] && count == 0
    {
      axes, count, finished := [], 0, true;
    }

    ghost predicate Valid()
      reads this
    {
      AllShaped(axes) && (!finished ==> AllOk(axes))
    }

    /** The coordinates still to be yielded. */
    ghost function Remaining(): seq<seq<nat>>
      reads this
      requires Valid()
    {
      if finished then [] else From(CellLists(axes), Positions(axes))
    }

    /** Succeeds exactly when the rank is supported, every axis is non-empty with a
        non-zero cell size, and no partial product of cell counts exceeds maxCells;
        the iterator then stands before the whole Cartesian product. */
    method Init(query: seq<QueryAxis>, shape: seq<nat>, clip: Option<Clip>, maxCells: nat) returns (status: Status)
      requires |shape| == |query| && ClipOk(clip, |query|)
      requires forall d | 0 <= d < |query| :: AxisSorted(query[d])
      modifies this
      ensures status == RANK <==> |query| == 0 || |query| > MAX_RANK
      ensures status == OK <==>
                0 < |query| <= MAX_RANK && DimsOk(query, shape) && WithinBudget(query, shape, clip, maxCells)
      ensures status == OK ==>
                && Valid()
                && Remaining() == Product(TouchedLists(query, shape, clip))
                && count == |Remaining()| <= maxCells
      ensures status != OK ==> GridFault(query, shape, clip, maxCells, status)
    {
      axes, count, finished := [], 1, false;
      if |query| == 0 || |query| > MAX_RANK { return RANK; }
      for d := 0 to |query|
        invariant InitInv(query, shape, clip, maxCells, axes, count, finished, d)
      {
        if query[d].end <= query[d].beg || shape[d] == 0 {
          PrefixHolds(query, shape, clip, maxCells, axes, count, finished, d);
          assert BadAxis(query, shape, clip, maxCells, d);
          return INVAL;
        }
        var axis, cellCount := InitAxis(query[d], shape[d], clip, d);
        InitStep(query, shape, clip, maxCells, axes, count, finished, axis, cellCount);
        if cellCount == 0 {
          count := 0;
          finished := true;
        } else {
          if count > maxCells / cellCount {
            OverBudget(query, shape, clip, maxCells, axes, count, finished, axis, cellCount);
            return BUDGET;
          }
          count := count * cellCount;
        }
        axes := axes + [axis];
      }
      InitDone(query, shape, clip, maxCells, axes, count, finished);
      return OK;
    }

    /** Yields the next coordinate, or false once all have been yielded. */
    method Next() returns (more: bool, coordinate: seq<nat>)
      requires Valid()
      modifies this
      ensures Valid() && CellLists(axes) == old(CellLists(axes))
      ensures more <==> old(Remaining()) != []
      ensures more ==> coordinate == old(Remaining())[0] && Remaining() == old(Remaining())[1..]
      ensures !more ==> Remaining() == []
      ensures count == old(count)
    {
      hide From, Cells, Seen, GridAxisShape, Position, Lengths, Pick;
      coordinate := [];
      if finished { return false, coordinate; }
      FromStep(CellLists(axes), Positions(axes));
      CurrentsArePicked(axes);
      for k := 0 to |axes|
        invariant coordinate == Currents(axes)[..k]
      {
        coordinate := coordinate + [axes[k].current];
      }
      var advanced := Carry();
      finished := !advanced;
      return true, coordinate;
    }

    /** The carry loop: the last axis moves, earlier axes move when later ones wrap. */
    method Carry() returns (advanced: bool)
      requires AllOk(axes)
      modifies this`axes
      ensures AllOk(axes) && CellLists(axes) == old(CellLists(axes))
      ensures advanced <==> Odometer.Next(Lengths(CellLists(axes)), old(Positions(axes))).Some?
      ensures advanced ==> Positions(axes) == Odometer.Next(Lengths(CellLists(axes)), old(Positions(axes))).value
    {
      ghost var lists, p := CellLists(axes), Positions(axes);
      CarryStart(axes);
      var d := |axes|;
      while d > 0
        invariant 0 <= d <= |axes| && Carried(axes, lists, p, d)
      {
        d := d - 1;
        var axis;
        axis, advanced := StepAxis(axes[d]);
        CarryStep(axes, lists, p, d, axis, advanced);
        axes := axes[d := axis];
        if advanced {
          DigitsAre(axes, lists, Odometer.Next(Lengths(lists), p).value);
          return;
        }
      }
      CarriedOut(axes, lists, p);
      return false;
    }
  }

  // --- Initialisation, step by step -----------------------------------------------------

  /** No partial product of cell counts exceeds the limit. */
  ghost predicate WithinBudget(query: seq<QueryAxis>, shape: seq<nat>, clip: Option<Clip>, maxCells: nat)
    requires DimsOk(query, shape) && ClipOk(clip, |query|)
  {
    forall k | 0 < k <= |query| :: LengthProduct(Lengths(TouchedLists(query, shape, clip))[..k]) <= maxCells
  }

  /** The number of cells touched on each of the first k axes. */
  ghost function CellCounts(query: seq<QueryAxis>, shape: seq<nat>, clip: Option<Clip>, k: nat): (r: seq<nat>)
    requires |shape| == |query| && ClipOk(clip, |query|) && k <= |query|
    requires forall d | 0 <= d < k :: DimOk(query[d], shape[d])
    ensures |r| == k
  {
    seq(k, d requires 0 <= d < k => assert DimOk(query[d], shape[d]); |TouchedOn(query[d], shape[d], clip, d)|)
  }

  /** Axis k is invalid, the axes before it are not, and their partial products stay within the limit. */
  ghost predicate BadAxis(query: seq<QueryAxis>, shape: seq<nat>, clip: Option<Clip>, maxCells: nat, k: nat)
    requires |shape| == |query| && ClipOk(clip, |query|)
  {
    && k < |query| && !DimOk(query[k], shape[k]) && (forall d | 0 <= d < k :: DimOk(query[d], shape[d]))
    && forall m | 0 < m <= k :: LengthProduct(CellCounts(query, shape, clip, k)[..m]) <= maxCells
  }

  /** Why the grid could not be set up: the rank, an invalid axis, or the limit, whichever comes first. */
  ghost predicate GridFault(query: seq<QueryAxis>, shape: seq<nat>, clip: Option<Clip>, maxCells: nat, status: Status)
    requires |shape| == |query| && ClipOk(clip, |query|)
  {
    if |query| == 0 || |query| > MAX_RANK then status == RANK
    else if exists k: nat :: BadAxis(query, shape, clip, maxCells, k) then status == INVAL
    else status == BUDGET
  }

  ghost predicate AxesTouch(query: seq<QueryAxis>, shape: seq<nat>, clip: Option<Clip>, axes: seq<GridAxis>)
    requires |shape| == |query| && ClipOk(clip, |query|)
  {
    && |axes| <= |query| && AllShaped(axes)
    && (forall k | 0 <= k < |axes| :: DimOk(query[k], shape[k]))
    && (forall k | 0 <= k < |axes| :: Cells(axes[k]) == TouchedOn(query[k], shape[k], clip, k))
  }

  ghost predicate InitInv(query: seq<QueryAxis>, shape: seq<nat>, clip: Option<Clip>, maxCells: nat,
                          axes: seq<GridAxis>, count: nat, finished: bool, d: nat)
    requires |shape| == |query| && ClipOk(clip, |query|)
  {
    && |axes| == d && AxesTouch(query, shape, clip, axes)
    && count == LengthProduct(Lengths(CellLists(axes)))
    && (forall k | 0 < k <= d :: LengthProduct(Lengths(CellLists(axes))[..k]) <= maxCells)
    && (finished <==> exists k :: 0 <= k < d && Cells(axes[k]) == [])
    && (forall k | 0 <= k < d :: Cells(axes[k]) != [] ==> GridAxisOk(axes[k]) && Position(axes[k]) == 0)
  }

  lemma PrefixHolds(query: seq<QueryAxis>, shape: seq<nat>, clip: Option<Clip>, maxCells: nat,
                    axes: seq<GridAxis>, count: nat, finished: bool, d: nat)
    requires |shape| == |query| && ClipOk(clip, |query|)
    requires InitInv(query, shape, clip, maxCells, axes, count, finished, d)
    ensures forall k | 0 <= k < d :: DimOk(query[k], shape[k])
    ensures CellCounts(query, shape, clip, d) == Lengths(CellLists(axes))
    ensures forall m | 0 < m <= d :: LengthProduct(CellCounts(query, shape, clip, d)[..m]) <= maxCells
  {
    assert CellCounts(query, shape, clip, d) == Lengths(CellLists(axes));
  }

  /** A limit that is exceeded before any invalid axis is the reason. */
  lemma OverBudget(query: seq<QueryAxis>, shape: seq<nat>, clip: Option<Clip>, maxCells: nat,
                   axes: seq<GridAxis>, count: nat, finished: bool, axis: GridAxis, cellCount: nat)
    requires |shape| == |query| && ClipOk(clip, |query|)
    requires InitInv(query, shape, clip, maxCells, axes, count, finished, |axes|) && |axes| < |query|
    requires DimOk(query[|axes|], shape[|axes|]) && GridAxisShape(axis)
    requires Cells(axis) == TouchedOn(query[|axes|], shape[|axes|], clip, |axes|) && cellCount == |Cells(axis)|
    requires cellCount > 0 && count > maxCells / cellCount
    ensures !exists k: nat :: BadAxis(query, shape, clip, maxCells, k)
  {
    hide Cells, TouchedOn, GridAxisShape, GridAxisOk;
    var n := |axes|;
    PrefixHolds(query, shape, clip, maxCells, axes, count, finished, n);
    var counts := CellCounts(query, shape, clip, n);
    LengthProductSnoc(counts, cellCount);
    DivGalois(count, maxCells, cellCount);
    forall k: nat ensures !BadAxis(query, shape, clip, maxCells, k) {
      if n < k < |query| && forall d | 0 <= d < k :: DimOk(query[d], shape[d]) {
        assert CellCounts(query, shape, clip, k)[..n + 1] == counts + [cellCount];
      }
    }
  }

  lemma AxesTouchMore(query: seq<QueryAxis>, shape: seq<nat>, clip: Option<Clip>, axes: seq<GridAxis>, axis: GridAxis)
    requires |shape| == |query| && ClipOk(clip, |query|) && |axes| < |query|
    requires AxesTouch(query, shape, clip, axes)
    requires DimOk(query[|axes|], shape[|axes|]) && GridAxisShape(axis)
    requires Cells(axis) == TouchedOn(query[|axes|], shape[|axes|], clip, |axes|)
    ensures AxesTouch(query, shape, clip, axes + [axis])
    ensures Lengths(CellLists(axes + [axis])) == Lengths(CellLists(axes)) + [|Cells(axis)|]
    ensures DimsOk(query, shape) ==>
              Lengths(TouchedLists(query, shape, clip))[..|axes| + 1] == Lengths(CellLists(axes)) + [|Cells(axis)|]
  {
    hide Cells, Touched, GridAxisShape;
    var more := axes + [axis];
    assert more[|axes|] == axis && forall k | 0 <= k < |axes| :: more[k] == axes[k];
  }

  lemma BudgetMore(lens: seq<nat>, n: nat, maxCells: nat)
    requires forall k | 0 < k <= |lens| :: LengthProduct(lens[..k]) <= maxCells
    requires LengthProduct(lens) * n <= maxCells
    ensures LengthProduct(lens + [n]) == LengthProduct(lens) * n
    ensures forall k | 0 < k <= |lens| + 1 :: LengthProduct((lens + [n])[..k]) <= maxCells
  {
    LengthProductSnoc(lens, n);
    forall k | 0 < k <= |lens| + 1 ensures LengthProduct((lens + [n])[..k]) <= maxCells {
      if k == |lens| + 1 {
        assert (lens + [n])[..k] == lens + [n];
      } else {
        assert (lens + [n])[..k] == lens[..k];
      }
    }
  }

  lemma InitStep(query: seq<QueryAxis>, shape: seq<nat>, clip: Option<Clip>, maxCells: nat,
                 axes: seq<GridAxis>, count: nat, finished: bool, axis: GridAxis, cellCount: nat)
    requires |shape| == |query| && ClipOk(clip, |query|)
    requires InitInv(query, shape, clip, maxCells, axes, count, finished, |axes|) && |axes| < |query|
    requires DimOk(query[|axes|], shape[|axes|]) && GridAxisShape(axis)
    requires Cells(axis) == TouchedOn(query[|axes|], shape[|axes|], clip, |axes|) && cellCount == |Cells(axis)|
    requires cellCount > 0 ==> GridAxisOk(axis) && Position(axis) == 0
    ensures cellCount == 0 ==> InitInv(query, shape, clip, maxCells, axes + [axis], 0, true, |axes| + 1)
    ensures cellCount > 0 && count <= maxCells / cellCount ==>
              InitInv(query, shape, clip, maxCells, axes + [axis], count * cellCount, finished, |axes| + 1)
    ensures cellCount > 0 && count > maxCells / cellCount && DimsOk(query, shape) ==>
              !WithinBudget(query, shape, clip, maxCells)
  {
    var lens, n, more := Lengths(CellLists(axes)), |axes|, axes + [axis];
    AxesTouchMore(query, shape, clip, axes, axis);
    assert more[n] == axis && forall k | 0 <= k < n :: more[k] == axes[k];
    if cellCount > 0 { DivGalois(count, maxCells, cellCount); }
    if count * cellCount <= maxCells {
      BudgetMore(lens, cellCount, maxCells);
    } else {
      LengthProductSnoc(lens, cellCount);
    }
  }

  lemma InitDone(query: seq<QueryAxis>, shape: seq<nat>, clip: Option<Clip>, maxCells: nat,
                 axes: seq<GridAxis>, count: nat, finished: bool)
    requires |shape| == |query| && ClipOk(clip, |query|) && query != []
    requires InitInv(query, shape, clip, maxCells, axes, count, finished, |query|)
    ensures DimsOk(query, shape) && WithinBudget(query, shape, clip, maxCells) && count <= maxCells
    ensures !finished ==> AllOk(axes)
    ensures (if finished then [] else From(CellLists(axes), Positions(axes)))
              == Product(TouchedLists(query, shape, clip))
    ensures count == |Product(TouchedLists(query, shape, clip))|
  {
    var lists := CellLists(axes);
    assert lists == TouchedLists(query, shape, clip);
    assert Lengths(lists)[..|query|] == Lengths(lists);
    ProductLength(lists);
    if finished {
      var k :| 0 <= k < |query| && Cells(axes[k]) == [];
      assert lists[k] == [];
      EmptyAxisEmptyProduct(lists);
    } else {
      FromStart(lists);
      assert Positions(axes) == Zeros(|axes|);
    }
  }

  // --- The carry loop ---------------------------------------------------------------------

  /** The axes' cells are `lists` and the axes stand at digits `q`. */
  ghost predicate AtDigits(axes: seq<GridAxis>, lists: seq<seq<nat>>, q: seq<nat>) {
    && |axes| == |lists| == |q|
    && forall k | 0 <= k < |axes| ::
         GridAxisOk(axes[k]) && Cells(axes[k]) == lists[k] && Position(axes[k]) == q[k]
  }

  lemma DigitsAre(axes: seq<GridAxis>, lists: seq<seq<nat>>, q: seq<nat>)
    requires AtDigits(axes, lists, q)
    ensures AllOk(axes) && CellLists(axes) == lists && Positions(axes) == q
  {
  }

  lemma UpdateDigit(axes: seq<GridAxis>, lists: seq<seq<nat>>, q: seq<nat>, d: nat, axis: GridAxis)
    requires AtDigits(axes, lists, q) && d < |axes|
    requires GridAxisOk(axis) && SameCells(axes[d], axis)
    ensures AtDigits(axes[d := axis], lists, q[d := Position(axis)])
  {
    assert Cells(axis) == Cells(axes[d]);
  }

  /** Digits from `d` on have wrapped to zero; the earlier ones still stand at `p`. */
  ghost predicate Carried(axes: seq<GridAxis>, lists: seq<seq<nat>>, p: seq<nat>, d: nat) {
    && d <= |p| == |lists|
    && AtDigits(axes, lists, p[..d] + Zeros(|p| - d))
    && Next(Lengths(lists)[d..], p[d..]).None?
  }

  lemma CarryStart(axes: seq<GridAxis>)
    requires AllOk(axes)
    ensures Carried(axes, CellLists(axes), Positions(axes), |axes|)
  {
    var p := Positions(axes);
    assert p[..|axes|] + Zeros(0) == p && p[|axes|..] == [];
  }

  lemma CarryStep(axes: seq<GridAxis>, lists: seq<seq<nat>>, p: seq<nat>, d: nat, axis: GridAxis, advanced: bool)
    requires d < |axes| && Carried(axes, lists, p, d + 1)
    requires GridAxisOk(axis) && SameCells(axes[d], axis)
    requires advanced ==> Position(axis) == Position(axes[d]) + 1 < |Cells(axes[d])|
    requires !advanced ==> Position(axes[d]) + 1 == |Cells(axes[d])| && Position(axis) == 0
    ensures advanced ==>
              && Next(Lengths(lists), p).Some?
              && AtDigits(axes[d := axis], lists, Next(Lengths(lists), p).value)
    ensures !advanced ==> Carried(axes[d := axis], lists, p, d)
  {
    var lens := Lengths(lists);
    CarryDigits(lens, p, d);
    var q := p[..d + 1] + Zeros(|p| - d - 1);
    assert Position(axes[d]) == q[d] && lens[d] == |Cells(axes[d])|;
    UpdateDigit(axes, lists, q, d, axis);
  }

  lemma CarriedOut(axes: seq<GridAxis>, lists: seq<seq<nat>>, p: seq<nat>)
    requires Carried(axes, lists, p, 0)
    ensures Next(Lengths(lists), p).None?
    ensures AllOk(axes) && CellLists(axes) == lists
  {
    assert Lengths(lists)[0..] == Lengths(lists) && p[0..] == p;
    DigitsAre(axes, lists, p[..0] + Zeros(|p|));
  }

  lemma {:induction false} EmptyAxisEmptyProduct(lists: seq<seq<nat>>)
    requires exists d :: 0 <= d < |lists| && lists[d] == []
    ensures Product(lists) == []
    decreases |lists|
  {
    if lists[0] != [] {
      var d :| 0 <= d < |lists| && lists[d] == [];
      assert lists[1..][d - 1] == [];
      EmptyAxisEmptyProduct(lists[1..]);
      PrependEachLength(lists[0], []);
    }
  }
}
