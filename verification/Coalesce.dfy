/** Fusing read windows: sorted windows of one file that touch are merged up to the
    caps, and every original window remembers where it went. */
module Coalesce {
  import opened Statuses
  import opened Seqs
  import opened ReadOpSort
  import opened Interleave

  const NONE: nat := U32_MAX

  ghost predicate Real(r: ReadOp) {
    r.nbytes != 0 && r.hasPath
  }

  ghost function End(r: ReadOp): nat {
    r.offset + r.nbytes
  }

  // --- What merging must keep -----------------------------------------------------------------

  /** The window `op` lies inside `merged`, `offset` bytes after its start. */
  ghost predicate Window(op: ReadOp, merged: ReadOp, offset: nat) {
    && merged.hasPath == op.hasPath && merged.path == op.path
    && merged.offset + offset == op.offset && offset + op.nbytes <= merged.nbytes
  }

  /** The original windows sent to merged read `m`. */
  ghost function Members(index: seq<nat>, m: nat): set<nat> {
    set i: nat | i < |index| && index[i] == m
  }

  ghost predicate HasByte(ops: seq<ReadOp>, index: seq<nat>, m: nat, b: nat)
    requires |index| == |ops|
  {
    exists i: nat :: i < |ops| && index[i] == m && ops[i].offset <= b < End(ops[i])
  }

  ghost predicate Covered(ops: seq<ReadOp>, index: seq<nat>, m: nat, merged: ReadOp)
    requires |index| == |ops|
  {
    forall b: nat | merged.offset <= b < End(merged) :: HasByte(ops, index, m, b)
  }

  /** A merged read is one original window unchanged, or several within the caps. */
  ghost predicate WithinCaps(ops: seq<ReadOp>, index: seq<nat>, m: nat, merged: ReadOp, maxBytes: nat, maxChunks: nat)
    requires |index| == |ops|
  {
    || (exists i: nat :: i < |ops| && Members(index, m) == {i} && merged == ops[i])
    || (2 <= |Members(index, m)| <= maxChunks && merged.nbytes <= maxBytes && merged.nbytes <= U32_MAX)
  }

  /** In (path, offset) order. */
  ghost predicate Before(a: ReadOp, b: ReadOp) {
    Compare(a.path, b.path) < 0 || (a.path == b.path && a.offset <= b.offset)
  }

  // --- The fuse loop ------------------------------------------------------------------------------

  datatype Fused = Fused(merged: seq<ReadOp>, index: seq<nat>, offset: seq<nat>)

  ghost predicate FusedShape(ops: seq<ReadOp>, f: Fused) {
    |f.index| == |f.offset| == |ops| <= NONE && |f.merged| <= |ops|
  }

  /** The windows listed in `perm[..k]` are placed and no others. */
  ghost predicate Placed(ops: seq<ReadOp>, perm: seq<nat>, k: nat, f: Fused)
    requires FusedShape(ops, f) && AllIndices(ops, perm) && k <= |perm|
  {
    && (forall j | 0 <= j < k ::
        f.index[perm[j]] < |f.merged| && Window(ops[perm[j]], f.merged[f.index[perm[j]]], f.offset[perm[j]]))
    && (forall i | 0 <= i < |ops| && i !in perm[..k] :: f.index[i] == NONE)
  }

  ghost predicate ReadsOk(ops: seq<ReadOp>, f: Fused, maxBytes: nat, maxChunks: nat)
    requires FusedShape(ops, f)
  {
    forall m | 0 <= m < |f.merged| ::
      && Real(f.merged[m])
      && Covered(ops, f.index, m, f.merged[m])
      && WithinCaps(ops, f.index, m, f.merged[m], maxBytes, maxChunks)
  }

  ghost predicate InOrder(ops: seq<ReadOp>, perm: seq<nat>, k: nat, list: seq<ReadOp>)
    requires AllIndices(ops, perm)
  {
    && (forall a, b | 0 <= a < b < |list| :: Before(list[a], list[b]))
    && (forall a, j | 0 <= a < |list| && k <= j < |perm| :: Before(list[a], ops[perm[j]]))
  }

  ghost predicate FuseInv(ops: seq<ReadOp>, perm: seq<nat>, k: nat, f: Fused, maxBytes: nat, maxChunks: nat) {
    && FusedShape(ops, f) && AllIndices(ops, perm) && k <= |perm| && |f.merged| <= k
    && Placed(ops, perm, k, f) && ReadsOk(ops, f, maxBytes, maxChunks) && InOrder(ops, perm, k, f.merged)
    && (k > 0 ==> |f.merged| > 0)
  }

  /** The input of the fuse loop: the real windows, each once, in order. */
  ghost predicate RealSorted(ops: seq<ReadOp>, perm: seq<nat>) {
    && SortedPerm(ops, perm) && |perm| <= |ops|
    && forall i: nat :: i in perm <==> i < |ops| && Real(ops[i])
  }

  lemma PermDistinct(ops: seq<ReadOp>, perm: seq<nat>)
    requires SortedPerm(ops, perm)
    ensures Distinct(perm)
  {
    forall a, b | 0 <= a < b < |perm| ensures perm[a] != perm[b] {
      LessTotalOrder(ops, perm[a], perm[b], perm[a]);
    }
  }

  lemma SortedBefore(ops: seq<ReadOp>, perm: seq<nat>, a: nat, b: nat)
    requires SortedPerm(ops, perm) && a < b < |perm|
    ensures Before(ops[perm[a]], ops[perm[b]])
  {
    assert Less(ops, perm[a], perm[b]);
    CompareOrder(ops[perm[a]].path, ops[perm[b]].path);
  }

  // Starting a new merged read.

  function Start(ops: seq<ReadOp>, f: Fused, e: nat): Fused
    requires e < |ops| && e < |f.index| && e < |f.offset|
  {
    Fused(f.merged + [ops[e]], f.index[e := |f.merged|], f.offset[e := 0])
  }

  lemma StartPlaced(ops: seq<ReadOp>, perm: seq<nat>, k: nat, f: Fused)
    requires FusedShape(ops, f) && AllIndices(ops, perm) && k < |perm| <= |ops| && |f.merged| <= k
    requires Placed(ops, perm, k, f) && Distinct(perm)
    ensures FusedShape(ops, Start(ops, f, perm[k])) && Placed(ops, perm, k + 1, Start(ops, f, perm[k]))
  {
    var e, g := perm[k], Start(ops, f, perm[k]);
    forall j | 0 <= j < k + 1
      ensures g.index[perm[j]] < |g.merged| && Window(ops[perm[j]], g.merged[g.index[perm[j]]], g.offset[perm[j]])
    {
      if j < k { assert perm[j] != e; }
    }
    assert perm[..k + 1] == perm[..k] + [e];
  }

  /** Merged read `m` keeps its members when window `e` goes elsewhere. */
  lemma OtherReadKept(ops: seq<ReadOp>, index: seq<nat>, e: nat, n: nat, m: nat, merged: ReadOp, maxBytes: nat,
                      maxChunks: nat)
    requires |index| == |ops| && e < |ops| && index[e] != m && n != m
    requires Covered(ops, index, m, merged) && WithinCaps(ops, index, m, merged, maxBytes, maxChunks)
    ensures Covered(ops, index[e := n], m, merged) && WithinCaps(ops, index[e := n], m, merged, maxBytes, maxChunks)
  {
    var after := index[e := n];
    assert Members(after, m) == Members(index, m);
    forall b: nat | merged.offset <= b < End(merged) ensures HasByte(ops, after, m, b) {
      assert HasByte(ops, index, m, b);
      var i: nat :| i < |ops| && index[i] == m && ops[i].offset <= b < End(ops[i]);
      assert after[i] == m;
    }
  }

  lemma StartReadsOk(ops: seq<ReadOp>, f: Fused, e: nat, maxBytes: nat, maxChunks: nat)
    requires FusedShape(ops, f) && e < |ops| && Real(ops[e]) && f.index[e] == NONE && |f.merged| < |ops|
    requires ReadsOk(ops, f, maxBytes, maxChunks) && forall i | 0 <= i < |ops| :: f.index[i] != |f.merged|
    ensures FusedShape(ops, Start(ops, f, e)) && ReadsOk(ops, Start(ops, f, e), maxBytes, maxChunks)
  {
    hide Covered, WithinCaps;
    var g, n := Start(ops, f, e), |f.merged|;
    forall m | 0 <= m < |g.merged|
      ensures Real(g.merged[m]) && Covered(ops, g.index, m, g.merged[m])
      ensures WithinCaps(ops, g.index, m, g.merged[m], maxBytes, maxChunks)
    {
      if m < n {
        OtherReadKept(ops, f.index, e, n, m, f.merged[m], maxBytes, maxChunks);
      } else {
        SingleRead(ops, g.index, e, n, maxBytes, maxChunks);
      }
    }
  }

  lemma SingleRead(ops: seq<ReadOp>, index: seq<nat>, e: nat, n: nat, maxBytes: nat, maxChunks: nat)
    requires |index| == |ops| && e < |ops| && forall i | 0 <= i < |ops| :: index[i] == n <==> i == e
    ensures Covered(ops, index, n, ops[e]) && WithinCaps(ops, index, n, ops[e], maxBytes, maxChunks)
  {
    assert Members(index, n) == {e};
    forall b: nat | ops[e].offset <= b < End(ops[e]) ensures HasByte(ops, index, n, b) {
      assert index[e] == n;
    }
  }

  lemma StartInOrder(ops: seq<ReadOp>, perm: seq<nat>, k: nat, list: seq<ReadOp>)
    requires SortedPerm(ops, perm) && k < |perm| && InOrder(ops, perm, k, list)
    ensures InOrder(ops, perm, k + 1, list + [ops[perm[k]]])
  {
    forall j | k < j < |perm| ensures Before(ops[perm[k]], ops[perm[j]]) { SortedBefore(ops, perm, k, j); }
  }

  lemma StartKeeps(ops: seq<ReadOp>, perm: seq<nat>, k: nat, f: Fused, maxBytes: nat, maxChunks: nat)
    requires FuseInv(ops, perm, k, f, maxBytes, maxChunks) && RealSorted(ops, perm) && k < |perm|
    ensures FuseInv(ops, perm, k + 1, Start(ops, f, perm[k]), maxBytes, maxChunks)
  {
    hide ReadsOk, InOrder, SortedPerm;
    PermDistinct(ops, perm);
    StartPlaced(ops, perm, k, f);
    StartInOrder(ops, perm, k, f.merged);
    assert perm[k] !in perm[..k] && perm[k] in perm;
    forall i | 0 <= i < |ops| ensures f.index[i] != |f.merged| {
      if i in perm[..k] { assert f.index[i] < |f.merged|; }
    }
    StartReadsOk(ops, f, perm[k], maxBytes, maxChunks);
  }

  // Growing the last merged read.

  function Grown(r: ReadOp, end: nat): ReadOp {
    r.(nbytes := if end < r.offset then 0 else end - r.offset)
  }

  function Grow(ops: seq<ReadOp>, f: Fused, e: nat, end: nat): Fused
    requires e < |ops| && e < |f.index| && e < |f.offset| && |f.merged| > 0
  {
    var n := |f.merged| - 1;
    Fused(f.merged[n := Grown(f.merged[n], end)], f.index[e := n],
          f.offset[e := if ops[e].offset < f.merged[n].offset then 0 else ops[e].offset - f.merged[n].offset])
  }

  /** Window `e` continues the last merged read, which then ends at `end`. */
  ghost predicate Continues(ops: seq<ReadOp>, f: Fused, e: nat, end: nat, maxBytes: nat, maxChunks: nat)
    requires e < |ops|
  {
    && |f.merged| > 0
    && var last := f.merged[|f.merged| - 1];
       && ops[e].path == last.path && ops[e].hasPath == last.hasPath
       && last.offset <= ops[e].offset <= End(last)
       && end == (if End(ops[e]) > End(last) then End(ops[e]) else End(last))
       && end - last.offset <= maxBytes && end - last.offset <= U32_MAX
       && |Members(f.index, |f.merged| - 1)| < maxChunks
  }

  lemma GrowWindow(op: ReadOp, r: ReadOp, end: nat, offset: nat)
    requires Window(op, r, offset) && End(r) <= end
    ensures Window(op, Grown(r, end), offset)
  {
  }

  lemma GrowPlaced(ops: seq<ReadOp>, perm: seq<nat>, k: nat, f: Fused, end: nat, maxBytes: nat, maxChunks: nat)
    requires FusedShape(ops, f) && AllIndices(ops, perm) && k < |perm|
    requires Placed(ops, perm, k, f) && Distinct(perm) && Continues(ops, f, perm[k], end, maxBytes, maxChunks)
    ensures FusedShape(ops, Grow(ops, f, perm[k], end)) && Placed(ops, perm, k + 1, Grow(ops, f, perm[k], end))
  {
    var e, g, n := perm[k], Grow(ops, f, perm[k], end), |f.merged| - 1;
    assert Window(ops[e], g.merged[n], g.offset[e]);
    hide Window, Grown;
    forall j | 0 <= j < k + 1
      ensures g.index[perm[j]] < |g.merged| && Window(ops[perm[j]], g.merged[g.index[perm[j]]], g.offset[perm[j]])
    {
      if j < k {
        var i := perm[j];
        assert i != e && Window(ops[i], f.merged[f.index[i]], f.offset[i]);
        if f.index[i] == n { GrowWindow(ops[i], f.merged[n], end, f.offset[i]); }
      }
    }
    assert perm[..k + 1] == perm[..k] + [e];
  }

  lemma GrowCovered(ops: seq<ReadOp>, f: Fused, e: nat, end: nat, maxBytes: nat, maxChunks: nat)
    requires FusedShape(ops, f) && e < |ops| && f.index[e] == NONE && Continues(ops, f, e, end, maxBytes, maxChunks)
    requires Covered(ops, f.index, |f.merged| - 1, f.merged[|f.merged| - 1])
    ensures var g, n := Grow(ops, f, e, end), |f.merged| - 1; Covered(ops, g.index, n, g.merged[n])
  {
    var g, n := Grow(ops, f, e, end), |f.merged| - 1;
    forall b: nat | g.merged[n].offset <= b < End(g.merged[n]) ensures HasByte(ops, g.index, n, b) {
      if b < End(f.merged[n]) {
        assert HasByte(ops, f.index, n, b);
        var i: nat :| i < |ops| && f.index[i] == n && ops[i].offset <= b < End(ops[i]);
        assert g.index[i] == n;
      } else {
        assert g.index[e] == n;
      }
    }
  }

  lemma GrowCaps(ops: seq<ReadOp>, f: Fused, e: nat, end: nat, maxBytes: nat, maxChunks: nat)
    requires FusedShape(ops, f) && e < |ops| && f.index[e] == NONE && Continues(ops, f, e, end, maxBytes, maxChunks)
    requires WithinCaps(ops, f.index, |f.merged| - 1, f.merged[|f.merged| - 1], maxBytes, maxChunks)
    ensures var g, n := Grow(ops, f, e, end), |f.merged| - 1;
            && WithinCaps(ops, g.index, n, g.merged[n], maxBytes, maxChunks)
            && |Members(g.index, n)| == |Members(f.index, n)| + 1
  {
    var g, n := Grow(ops, f, e, end), |f.merged| - 1;
    assert Members(g.index, n) == Members(f.index, n) + {e};
    assert e !in Members(f.index, n);
  }

  lemma GrowReadsOk(ops: seq<ReadOp>, f: Fused, e: nat, end: nat, maxBytes: nat, maxChunks: nat)
    requires FusedShape(ops, f) && e < |ops| && f.index[e] == NONE && Continues(ops, f, e, end, maxBytes, maxChunks)
    requires ReadsOk(ops, f, maxBytes, maxChunks)
    ensures FusedShape(ops, Grow(ops, f, e, end)) && ReadsOk(ops, Grow(ops, f, e, end), maxBytes, maxChunks)
  {
    hide Covered, WithinCaps;
    var g, n := Grow(ops, f, e, end), |f.merged| - 1;
    forall m | 0 <= m < |g.merged|
      ensures Real(g.merged[m]) && Covered(ops, g.index, m, g.merged[m])
      ensures WithinCaps(ops, g.index, m, g.merged[m], maxBytes, maxChunks)
    {
      if m < n {
        OtherReadKept(ops, f.index, e, n, m, f.merged[m], maxBytes, maxChunks);
      } else {
        GrowCovered(ops, f, e, end, maxBytes, maxChunks);
        GrowCaps(ops, f, e, end, maxBytes, maxChunks);
      }
    }
  }

  lemma GrowInOrder(ops: seq<ReadOp>, perm: seq<nat>, k: nat, list: seq<ReadOp>, end: nat)
    requires AllIndices(ops, perm) && InOrder(ops, perm, k, list) && |list| > 0
    ensures InOrder(ops, perm, k + 1, list[|list| - 1 := Grown(list[|list| - 1], end)])
  {
    var after := list[|list| - 1 := Grown(list[|list| - 1], end)];
    forall a | 0 <= a < |list| ensures after[a].path == list[a].path && after[a].offset == list[a].offset { }
  }

  lemma GrowKeeps(ops: seq<ReadOp>, perm: seq<nat>, k: nat, f: Fused, end: nat, maxBytes: nat, maxChunks: nat)
    requires FuseInv(ops, perm, k, f, maxBytes, maxChunks) && RealSorted(ops, perm) && k < |perm|
    requires Continues(ops, f, perm[k], end, maxBytes, maxChunks)
    ensures FuseInv(ops, perm, k + 1, Grow(ops, f, perm[k], end), maxBytes, maxChunks)
  {
    hide ReadsOk, InOrder, SortedPerm, Continues;
    PermDistinct(ops, perm);
    GrowPlaced(ops, perm, k, f, end, maxBytes, maxChunks);
    GrowInOrder(ops, perm, k, f.merged, end);
    assert perm[k] !in perm[..k];
    GrowReadsOk(ops, f, perm[k], end, maxBytes, maxChunks);
  }

  // Merging is greedy.

  /** Window `op` may join a read of `count` windows: it starts inside or right after it and
      the caps allow it. */
  ghost predicate Joins(op: ReadOp, r: ReadOp, count: nat, maxBytes: nat, maxChunks: nat) {
    var end := if End(op) > End(r) then End(op) else End(r);
    && op.path == r.path && r.offset <= op.offset <= End(r) && count < maxChunks
    && end - r.offset <= maxBytes && end - r.offset <= U32_MAX
  }

  /** The window that starts read `q` could not join read `p`. */
  ghost predicate Refused(ops: seq<ReadOp>, f: Fused, p: nat, q: nat, maxBytes: nat, maxChunks: nat)
    requires FusedShape(ops, f) && p < |f.merged|
  {
    exists i: nat ::
      i < |ops| && f.index[i] == q && f.offset[i] == 0
        && !Joins(ops[i], f.merged[p], |Members(f.index, p)|, maxBytes, maxChunks)
  }

  ghost predicate RefusedNext(ops: seq<ReadOp>, f: Fused, a: nat, maxBytes: nat, maxChunks: nat)
    requires FusedShape(ops, f) && a < |f.merged|
  {
    Refused(ops, f, a, a + 1, maxBytes, maxChunks)
  }

  /** Every read but the first was started because its first window could not join the read before. */
  ghost predicate Greedy(ops: seq<ReadOp>, f: Fused, n: nat, maxBytes: nat, maxChunks: nat)
    requires FusedShape(ops, f) && n <= |f.merged|
  {
    forall a: nat | a + 1 < n :: RefusedNext(ops, f, a, maxBytes, maxChunks)
  }

  /** Placing window `e` in a later read leaves what was refused before. */
  lemma GreedyKept(ops: seq<ReadOp>, f: Fused, g: Fused, e: nat, m: nat, n: nat, maxBytes: nat, maxChunks: nat)
    requires FusedShape(ops, f) && FusedShape(ops, g) && n <= |f.merged| <= |g.merged|
    requires Greedy(ops, f, n, maxBytes, maxChunks) && e < |ops| && f.index[e] == NONE && n <= m + 1
    requires g.index == f.index[e := m] && |g.offset| == |f.offset| && forall i | 0 <= i < |ops| && i != e ::
               g.offset[i] == f.offset[i]
    requires forall a | 0 <= a < n - 1 :: g.merged[a] == f.merged[a]
    ensures Greedy(ops, g, n, maxBytes, maxChunks)
  {
    hide Joins;
    forall a: nat | a + 1 < n ensures RefusedNext(ops, g, a, maxBytes, maxChunks) {
      assert RefusedNext(ops, f, a, maxBytes, maxChunks);
      var i: nat :| i < |ops| && f.index[i] == a + 1 && f.offset[i] == 0
                    && !Joins(ops[i], f.merged[a], |Members(f.index, a)|, maxBytes, maxChunks);
      assert Members(g.index, a) == Members(f.index, a);
      assert g.index[i] == a + 1;
    }
  }

  /** Starting a read with a window that cannot join the last one. */
  lemma StartGreedy(ops: seq<ReadOp>, f: Fused, e: nat, maxBytes: nat, maxChunks: nat)
    requires FusedShape(ops, f) && e < |ops| && FusedShape(ops, Start(ops, f, e)) && f.index[e] == NONE
    requires Greedy(ops, f, |f.merged|, maxBytes, maxChunks)
    requires |f.merged| > 0 ==>
               !Joins(ops[e], f.merged[|f.merged| - 1], |Members(f.index, |f.merged| - 1)|, maxBytes, maxChunks)
    ensures Greedy(ops, Start(ops, f, e), |f.merged| + 1, maxBytes, maxChunks)
  {
    hide Joins;
    var g, n := Start(ops, f, e), |f.merged|;
    GreedyKept(ops, f, g, e, n, n, maxBytes, maxChunks);
    forall a: nat | a + 1 < n + 1 ensures RefusedNext(ops, g, a, maxBytes, maxChunks) {
      if a + 1 == n {
        assert Members(g.index, a) == Members(f.index, a);
        assert g.index[e] == a + 1 && g.offset[e] == 0;
      }
    }
  }

  /** The loop that merges windows into reads. */
  method FuseReads(ops: seq<ReadOp>, perm: seq<nat>, maxBytes: nat, maxChunks: nat) returns (f: Fused)
    requires RealSorted(ops, perm) && |ops| <= NONE
    ensures FuseInv(ops, perm, |perm|, f, maxBytes, maxChunks)
    ensures Greedy(ops, f, |f.merged|, maxBytes, maxChunks)
  {
    hide ReadsOk, InOrder, Placed, Greedy;
    f := Fused([], seq(|ops|, _ => NONE), seq(|ops|, _ => 0));
    FuseStarts(ops, perm, f, maxBytes, maxChunks);
    var leaderEnd, leaderChunks := 0, 0;
    for k := 0 to |perm|
      invariant FuseInv(ops, perm, k, f, maxBytes, maxChunks) && Greedy(ops, f, |f.merged|, maxBytes, maxChunks)
      invariant |f.merged| > 0 ==>
                  && leaderEnd == End(f.merged[|f.merged| - 1])
                  && leaderChunks == |Members(f.index, |f.merged| - 1)|
    {
      var e := perm[k];
      var end := ops[e].offset + ops[e].nbytes;
      var fusedEnd := if end > leaderEnd then end else leaderEnd;
      LeaderFacts(ops, perm, k, f, maxBytes, maxChunks);
      if |f.merged| > 0 && ops[e].path == f.merged[|f.merged| - 1].path
         && ops[e].offset >= f.merged[|f.merged| - 1].offset && ops[e].offset <= leaderEnd && leaderChunks < maxChunks
         && fusedEnd - f.merged[|f.merged| - 1].offset <= maxBytes
         && fusedEnd - f.merged[|f.merged| - 1].offset <= U32_MAX
      {
        GrowKeeps(ops, perm, k, f, fusedEnd, maxBytes, maxChunks);
        GrowCounts(ops, perm, k, f, fusedEnd, maxBytes, maxChunks);
        GreedyKept(ops, f, Grow(ops, f, e, fusedEnd), e, |f.merged| - 1, |f.merged|, maxBytes, maxChunks);
        f := Grow(ops, f, e, fusedEnd);
        leaderEnd, leaderChunks := fusedEnd, leaderChunks + 1;
      } else {
        StartKeeps(ops, perm, k, f, maxBytes, maxChunks);
        StartCounts(ops, perm, k, f, maxBytes, maxChunks);
        StartGreedy(ops, f, e, maxBytes, maxChunks);
        f := Start(ops, f, e);
        leaderEnd, leaderChunks := end, 1;
      }
    }
  }

  lemma FuseStarts(ops: seq<ReadOp>, perm: seq<nat>, f: Fused, maxBytes: nat, maxChunks: nat)
    requires f == Fused([], seq(|ops|, _ => NONE), seq(|ops|, _ => 0)) && AllIndices(ops, perm) && |ops| <= NONE
    ensures FuseInv(ops, perm, 0, f, maxBytes, maxChunks) && Greedy(ops, f, 0, maxBytes, maxChunks)
  {
  }

  lemma LeaderFacts(ops: seq<ReadOp>, perm: seq<nat>, k: nat, f: Fused, maxBytes: nat, maxChunks: nat)
    requires FuseInv(ops, perm, k, f, maxBytes, maxChunks) && RealSorted(ops, perm) && k < |perm|
    ensures perm[k] < |ops| && Real(ops[perm[k]]) && f.index[perm[k]] == NONE
    ensures |f.merged| > 0 ==> Real(f.merged[|f.merged| - 1])
  {
    PermDistinct(ops, perm);
    assert perm[k] in perm && perm[k] !in perm[..k];
  }

  lemma GrowCounts(ops: seq<ReadOp>, perm: seq<nat>, k: nat, f: Fused, end: nat, maxBytes: nat, maxChunks: nat)
    requires FuseInv(ops, perm, k, f, maxBytes, maxChunks) && RealSorted(ops, perm) && k < |perm|
    requires Continues(ops, f, perm[k], end, maxBytes, maxChunks)
    ensures var g, n := Grow(ops, f, perm[k], end), |f.merged| - 1;
            |Members(g.index, n)| == |Members(f.index, n)| + 1 && End(g.merged[n]) == end
  {
    PermDistinct(ops, perm);
    assert perm[k] !in perm[..k];
    GrowCaps(ops, f, perm[k], end, maxBytes, maxChunks);
  }

  lemma StartCounts(ops: seq<ReadOp>, perm: seq<nat>, k: nat, f: Fused, maxBytes: nat, maxChunks: nat)
    requires FuseInv(ops, perm, k, f, maxBytes, maxChunks) && RealSorted(ops, perm) && k < |perm|
    ensures var g := Start(ops, f, perm[k]); |Members(g.index, |f.merged|)| == 1
  {
    var g := Start(ops, f, perm[k]);
    forall i | 0 <= i < |ops| ensures f.index[i] != |f.merged| {
      if i in perm[..k] { assert f.index[i] < |f.merged|; }
    }
    assert Members(g.index, |f.merged|) == {perm[k]};
  }

  // --- coalesce_reads ------------------------------------------------------------------------------

  /** Merging refines the original windows. The first `nReal` reads are merged ones: every
      window lies in its read at its offset, every byte of a read was asked for, and
      reads of several windows respect the caps. The rest are the placeholders, one each. */
  ghost predicate Coalesced(ops: seq<ReadOp>, f: Fused, nReal: nat, maxBytes: nat, maxChunks: nat) {
    && FusedShape(ops, f) && nReal <= |f.merged|
    && WindowsKept(ops, f, nReal) && FillsKept(ops, f, nReal, |ops|) && MergedOk(ops, f, nReal, maxBytes, maxChunks)
  }

  ghost predicate WindowsKept(ops: seq<ReadOp>, f: Fused, nReal: nat)
    requires FusedShape(ops, f) && nReal <= |f.merged|
  {
    forall i | 0 <= i < |ops| && Real(ops[i]) ::
      f.index[i] < nReal && Window(ops[i], f.merged[f.index[i]], f.offset[i])
  }

  /** The placeholders among the first n windows have a read each, in their order. */
  ghost predicate FillsKept(ops: seq<ReadOp>, f: Fused, nReal: nat, n: nat)
    requires FusedShape(ops, f) && nReal <= |f.merged| && n <= |ops|
  {
    && (forall i | 0 <= i < n && !Real(ops[i]) ::
          nReal <= f.index[i] < |f.merged| && f.merged[f.index[i]] == ops[i] && f.offset[i] == 0)
    && (forall i, j | 0 <= i < j < n && !Real(ops[i]) && !Real(ops[j]) :: f.index[i] < f.index[j])
    && (forall m: nat | nReal <= m < |f.merged| :: IsFill(ops, f, n, m))
  }

  ghost predicate IsFill(ops: seq<ReadOp>, f: Fused, n: nat, m: nat)
    requires FusedShape(ops, f) && n <= |ops|
  {
    exists i: nat :: i < n && !Real(ops[i]) && f.index[i] == m
  }

  ghost predicate MergedOk(ops: seq<ReadOp>, f: Fused, nReal: nat, maxBytes: nat, maxChunks: nat)
    requires FusedShape(ops, f) && nReal <= |f.merged|
  {
    forall m | 0 <= m < nReal ::
      && Real(f.merged[m])
      && Covered(ops, f.index, m, f.merged[m])
      && WithinCaps(ops, f.index, m, f.merged[m], maxBytes, maxChunks)
  }

  function Paths(list: seq<ReadOp>): (p: seq<string>)
    ensures |p| == |list|
  {
    seq(|list|, k requires 0 <= k < |list| => list[k].path)
  }

  method RealIndices(ops: seq<ReadOp>) returns (perm: seq<nat>)
    ensures AllIndices(ops, perm) && Distinct(perm) && |perm| <= |ops|
    ensures forall i: nat :: i in perm <==> i < |ops| && Real(ops[i])
  {
    perm := [];
    for i := 0 to |ops|
      invariant AllIndices(ops, perm) && Distinct(perm) && |perm| <= i
      invariant forall j: nat :: j in perm <==> j < i && Real(ops[j])
    {
      if ops[i].nbytes != 0 && ops[i].hasPath {
        assert forall k | 0 <= k < |perm| :: perm[k] in perm;
        perm := perm + [i];
      }
    }
  }

  method SortReal(ops: seq<ReadOp>) returns (perm: seq<nat>)
    ensures RealSorted(ops, perm)
  {
    var indices := RealIndices(ops);
    var a := new nat[|indices|](k requires 0 <= k < |indices| => indices[k]);
    assert a[..] == indices;
    PermSort(ops, a);
    perm := a[..];
    forall i: nat ensures i in perm <==> i in indices {
      assert i in perm <==> i in multiset(perm);
      assert i in indices <==> i in multiset(indices);
    }
    assert |multiset(perm)| == |perm| && |multiset(indices)| == |indices|;
  }

  lemma FuseDone(ops: seq<ReadOp>, perm: seq<nat>, f: Fused, maxBytes: nat, maxChunks: nat)
    requires FuseInv(ops, perm, |perm|, f, maxBytes, maxChunks) && RealSorted(ops, perm)
    ensures WindowsKept(ops, f, |f.merged|) && MergedOk(ops, f, |f.merged|, maxBytes, maxChunks)
    ensures FillsKept(ops, f, |f.merged|, 0)
    ensures forall i | 0 <= i < |ops| && !Real(ops[i]) :: f.index[i] == NONE
    ensures Sorted(f.merged)
  {
    hide Covered, WithinCaps, Window;
    assert perm[..|perm|] == perm;
    forall i | 0 <= i < |ops| && Real(ops[i])
      ensures f.index[i] < |f.merged| && Window(ops[i], f.merged[f.index[i]], f.offset[i])
    {
      assert i in perm;
      var j :| 0 <= j < |perm| && perm[j] == i;
    }
  }

  ghost predicate Sorted(list: seq<ReadOp>) {
    forall a, b | 0 <= a < b < |list| :: Before(list[a], list[b])
  }

  function AddFill(ops: seq<ReadOp>, f: Fused, i: nat): Fused
    requires i < |ops| && i < |f.index| && i < |f.offset|
  {
    Fused(f.merged + [ops[i]], f.index[i := |f.merged|], f.offset[i := 0])
  }

  lemma AddFillKeeps(ops: seq<ReadOp>, f: Fused, nReal: nat, i: nat, maxBytes: nat, maxChunks: nat)
    requires FusedShape(ops, f) && nReal <= |f.merged| && i < |ops| && |f.merged| < |ops|
    requires WindowsKept(ops, f, nReal) && FillsKept(ops, f, nReal, i) && MergedOk(ops, f, nReal, maxBytes, maxChunks)
    requires !Real(ops[i]) && f.index[i] == NONE
    ensures var g := AddFill(ops, f, i);
            && FusedShape(ops, g) && WindowsKept(ops, g, nReal) && FillsKept(ops, g, nReal, i + 1)
            && MergedOk(ops, g, nReal, maxBytes, maxChunks) && g.merged[..nReal] == f.merged[..nReal]
  {
    hide Covered, WithinCaps, Window;
    var g, n := AddFill(ops, f, i), |f.merged|;
    forall m | 0 <= m < nReal
      ensures Covered(ops, g.index, m, g.merged[m]) && WithinCaps(ops, g.index, m, g.merged[m], maxBytes, maxChunks)
    {
      OtherReadKept(ops, f.index, i, n, m, f.merged[m], maxBytes, maxChunks);
    }
    var next := i + 1;
    forall m: nat | nReal <= m < |g.merged| ensures IsFill(ops, g, next, m) {
      if m < n {
        assert IsFill(ops, f, i, m);
        var j: nat :| j < i && !Real(ops[j]) && f.index[j] == m;
        assert g.index[j] == m;
      } else {
        assert g.index[i] == m;
      }
    }
  }

  /** Appends the placeholders, and gives them their own slots. */
  method AppendFills(ops: seq<ReadOp>, f: Fused, pos: seq<nat>, maxBytes: nat, maxChunks: nat, ghost perm: seq<nat>)
    returns (g: Fused, pos': seq<nat>)
    requires FuseInv(ops, perm, |perm|, f, maxBytes, maxChunks) && RealSorted(ops, perm) && |pos| == |f.merged|
    requires Greedy(ops, f, |f.merged|, maxBytes, maxChunks)
    ensures Coalesced(ops, g, |f.merged|, maxBytes, maxChunks) && Greedy(ops, g, |f.merged|, maxBytes, maxChunks)
    ensures |f.merged| <= |pos'| == |g.merged| && pos'[..|f.merged|] == pos && g.merged[..|f.merged|] == f.merged
    ensures forall k | |f.merged| <= k < |pos'| :: pos'[k] == k
  {
    hide MergedOk, WindowsKept, FillsKept, Greedy;
    FuseDone(ops, perm, f, maxBytes, maxChunks);
    var nReal := |f.merged|;
    g, pos' := f, pos;
    assert |f.merged| <= |ops| - Fills(ops, 0) by { RoomForFills(ops, perm); }
    for i := 0 to |ops|
      invariant FusedShape(ops, g) && |pos'| == |g.merged| && nReal <= |g.merged| <= |ops| - Fills(ops, i)
      invariant WindowsKept(ops, g, nReal) && FillsKept(ops, g, nReal, i)
                  && MergedOk(ops, g, nReal, maxBytes, maxChunks)
      invariant forall j | 0 <= j < |ops| :: g.index[j] == NONE <==> i <= j && !Real(ops[j])
      invariant pos'[..nReal] == pos && g.merged[..nReal] == f.merged && Greedy(ops, g, nReal, maxBytes, maxChunks)
      invariant forall k | nReal <= k < |pos'| :: pos'[k] == k
    {
      if g.index[i] != NONE {
        SkipReal(ops, g, nReal, i);
        continue;
      }
      AddFillKeeps(ops, g, nReal, i, maxBytes, maxChunks);
      GreedyKept(ops, g, AddFill(ops, g, i), i, |g.merged|, nReal, maxBytes, maxChunks);
      pos' := pos' + [|g.merged|];
      g := AddFill(ops, g, i);
    }
  }

  lemma SkipReal(ops: seq<ReadOp>, f: Fused, nReal: nat, i: nat)
    requires FusedShape(ops, f) && nReal <= |f.merged| && i < |ops| && FillsKept(ops, f, nReal, i) && Real(ops[i])
    ensures FillsKept(ops, f, nReal, i + 1)
  {
    var next := i + 1;
    forall m: nat | nReal <= m < |f.merged| ensures IsFill(ops, f, next, m) {
      assert IsFill(ops, f, i, m);
    }
  }

  /** The number of placeholders from position `i` on. */
  ghost function Fills(ops: seq<ReadOp>, i: nat): nat
    requires i <= |ops|
    decreases |ops| - i
  {
    if i == |ops| then 0 else Fills(ops, i + 1) + if Real(ops[i]) then 0 else 1
  }

  lemma {:induction false} FillsAreUnlisted(ops: seq<ReadOp>, perm: seq<nat>, i: nat)
    requires i <= |ops| && Distinct(perm) && forall k | 0 <= k < |perm| :: i <= perm[k] < |ops| && Real(ops[perm[k]])
    ensures |perm| + Fills(ops, i) <= |ops| - i
    decreases |ops| - i
  {
    assert perm != [] ==> i <= perm[0] < |ops|;
    if i < |ops| {
      if k :| 0 <= k < |perm| && perm[k] == i {
        var rest := perm[..k] + perm[k + 1..];
        forall a | 0 <= a < |rest| ensures i < rest[a] < |ops| && Real(ops[rest[a]]) {
          assert rest[a] == perm[if a < k then a else a + 1];
        }
        forall a, b | 0 <= a < b < |rest| ensures rest[a] != rest[b] {
          assert rest[a] == perm[if a < k then a else a + 1] && rest[b] == perm[if b < k then b else b + 1];
        }
        FillsAreUnlisted(ops, rest, i + 1);
      } else {
        FillsAreUnlisted(ops, perm, i + 1);
      }
    }
  }

  lemma RoomForFills(ops: seq<ReadOp>, perm: seq<nat>)
    requires RealSorted(ops, perm)
    ensures |perm| + Fills(ops, 0) <= |ops|
  {
    PermDistinct(ops, perm);
    forall k | 0 <= k < |perm| ensures perm[k] < |ops| && Real(ops[perm[k]]) { assert perm[k] in perm; }
    FillsAreUnlisted(ops, perm, 0);
  }

  // Emitting the reads in their slots.

  /** `pos` permutes the slots, the merged ones among themselves. */
  ghost predicate SlotsOk(pos: seq<nat>, nReal: nat) {
    && (forall k | 0 <= k < |pos| :: pos[k] < |pos| && (pos[k] < nReal <==> k < nReal))
    && (forall a, b | 0 <= a < b < |pos| :: pos[a] != pos[b])
    && (forall k | nReal <= k < |pos| :: pos[k] == k)
    && forall m: nat | m < |pos| :: m in pos
  }

  function Moved(index: seq<nat>, pos: seq<nat>): (r: seq<nat>)
    requires forall i | 0 <= i < |index| :: index[i] < |pos|
    ensures |r| == |index|
  {
    seq(|index|, i requires 0 <= i < |index| => pos[index[i]])
  }

  ghost predicate Emitted(list: seq<ReadOp>, pos: seq<nat>, out: seq<ReadOp>) {
    |list| == |pos| == |out| && forall k | 0 <= k < |pos| :: pos[k] < |out| && out[pos[k]] == list[k]
  }

  /** Renumbering the reads keeps everything. */
  lemma MovedCoalesced(ops: seq<ReadOp>, f: Fused, pos: seq<nat>, out: seq<ReadOp>, nReal: nat, maxBytes: nat,
                       maxChunks: nat)
    requires Coalesced(ops, f, nReal, maxBytes, maxChunks) && SlotsOk(pos, nReal) && Emitted(f.merged, pos, out)
    ensures forall i | 0 <= i < |ops| :: f.index[i] < |pos|
    ensures Coalesced(ops, Fused(out, Moved(f.index, pos), f.offset), nReal, maxBytes, maxChunks)
  {
    hide Covered, WithinCaps, Window;
    var index := Moved(f.index, pos);
    var g := Fused(out, index, f.offset);
    forall m | 0 <= m < nReal
      ensures Real(out[m]) && Covered(ops, index, m, out[m]) && WithinCaps(ops, index, m, out[m], maxBytes, maxChunks)
    {
      assert m in pos;
      var k :| 0 <= k < |pos| && pos[k] == m;
      MovedRead(ops, f.index, pos, k, f.merged[k], maxBytes, maxChunks);
    }
    forall m: nat | nReal <= m < |out| ensures IsFill(ops, g, |ops|, m) {
      assert IsFill(ops, f, |ops|, m);
      var i: nat :| i < |ops| && !Real(ops[i]) && f.index[i] == m;
      assert g.index[i] == m;
    }
  }

  lemma MovedRead(ops: seq<ReadOp>, index: seq<nat>, pos: seq<nat>, k: nat, merged: ReadOp, maxBytes: nat,
                  maxChunks: nat)
    requires |index| == |ops| && k < |pos| && (forall i | 0 <= i < |index| :: index[i] < |pos|)
    requires forall a, b | 0 <= a < b < |pos| :: pos[a] != pos[b]
    requires Covered(ops, index, k, merged) && WithinCaps(ops, index, k, merged, maxBytes, maxChunks)
    ensures Covered(ops, Moved(index, pos), pos[k], merged)
    ensures WithinCaps(ops, Moved(index, pos), pos[k], merged, maxBytes, maxChunks)
  {
    var index', m := Moved(index, pos), pos[k];
    forall i | 0 <= i < |index| ensures index'[i] == m <==> index[i] == k { }
    assert Members(index', m) == Members(index, k);
    forall b: nat | merged.offset <= b < End(merged) ensures HasByte(ops, index', m, b) {
      assert HasByte(ops, index, k, b);
      var i: nat :| i < |ops| && index[i] == k && ops[i].offset <= b < End(ops[i]);
      assert index'[i] == m;
    }
  }

  /** After renumbering: a read that follows another one of its file in offset order was refused by it. */
  ghost predicate MergedGreedily(ops: seq<ReadOp>, f: Fused, order: seq<nat>, maxBytes: nat, maxChunks: nat)
    requires FusedShape(ops, f) && |order| <= |f.merged|
  {
    forall p: nat, q: nat | p < |order| && q < |order| && order[q] == order[p] + 1 ::
        Refused(ops, f, p, q, maxBytes, maxChunks)
  }

  lemma MovedGreedy(ops: seq<ReadOp>, f: Fused, pos: seq<nat>, order: seq<nat>, out: seq<ReadOp>, maxBytes: nat,
                    maxChunks: nat)
    requires FusedShape(ops, f) && |order| <= |f.merged| && Greedy(ops, f, |order|, maxBytes, maxChunks)
    requires Emitted(f.merged, pos, out) && SlotsOk(pos, |order|)
    requires (forall i | 0 <= i < |ops| :: f.index[i] < |pos|)
    requires forall m | 0 <= m < |order| :: order[m] < |order| && pos[order[m]] == m
    ensures MergedGreedily(ops, Fused(out, Moved(f.index, pos), f.offset), order, maxBytes, maxChunks)
  {
    hide Joins;
    var g := Fused(out, Moved(f.index, pos), f.offset);
    forall p: nat, q: nat | p < |order| && q < |order| && order[q] == order[p] + 1
      ensures Refused(ops, g, p, q, maxBytes, maxChunks)
    {
      var a := order[p];
      assert RefusedNext(ops, f, a, maxBytes, maxChunks);
      var i: nat :| i < |ops| && f.index[i] == a + 1 && f.offset[i] == 0
                    && !Joins(ops[i], f.merged[a], |Members(f.index, a)|, maxBytes, maxChunks);
      assert Members(g.index, p) == Members(f.index, a);
      assert g.index[i] == q && out[p] == f.merged[a];
    }
  }

  lemma InterleavedSlots(paths: seq<string>, pos: seq<nat>, order: seq<nat>, all: seq<nat>)
    requires Interleaved(paths, pos, order) && |pos| <= |all| && all[..|pos|] == pos
    requires forall k | |pos| <= k < |all| :: all[k] == k
    ensures SlotsOk(all, |pos|)
  {
    hide KeyLess;
    var n := |pos|;
    forall k | 0 <= k < |all| ensures all[k] < |all| && (all[k] < n <==> k < n) {
      if k < n { assert all[k] == all[..n][k] == pos[k]; }
    }
    forall a, b | 0 <= a < b < |all| ensures all[a] != all[b] {
      if b < n {
        assert all[a] == all[..n][a] == pos[a] && all[b] == all[..n][b] == pos[b];
        assert order[pos[a]] == a && order[pos[b]] == b;
      }
    }
    forall m: nat | m < |all| ensures m in all {
      if m < n {
        assert all[order[m]] == all[..n][order[m]] == pos[order[m]] == m;
      } else {
        assert all[m] == m;
      }
    }
  }

  /** The order in which merged reads are emitted: files in turn, each by offset. */
  ghost predicate EmittedInTurn(out: seq<ReadOp>, nReal: nat, sorted: seq<ReadOp>, order: seq<nat>) {
    && |sorted| == |order| == nReal <= |out|
    && Sorted(sorted)
    && (forall m | 0 <= m < nReal :: order[m] < nReal && out[m] == sorted[order[m]])
    && (exists pos :: Interleaved(Paths(sorted), pos, order))
  }

  method CoalesceReads(list: array<ReadOp>, n: nat, maxBytes: nat, maxChunks: nat)
    returns (n': nat, index: seq<nat>, offset: seq<nat>, ghost nReal: nat, ghost sorted: seq<ReadOp>,
             ghost order: seq<nat>)
    requires n <= list.Length && n <= NONE
    modifies list
    ensures n' <= n
    ensures Coalesced(old(list[..n]), Fused(list[..n'], index, offset), nReal, maxBytes, maxChunks)
    ensures EmittedInTurn(list[..n'], nReal, sorted, order)
    ensures MergedGreedily(old(list[..n]), Fused(list[..n'], index, offset), order, maxBytes, maxChunks)
    ensures forall k | n <= k < list.Length :: list[k] == old(list[k])
  {
    hide Coalesced, FuseInv, RealSorted, Greedy, MergedGreedily;
    var ops := list[..n];
    var perm := SortReal(ops);
    var f := FuseReads(ops, perm, maxBytes, maxChunks);
    nReal, sorted := |f.merged|, f.merged;
    FusedIsSorted(ops, perm, f, maxBytes, maxChunks);
    var pos;
    pos, order := Positions(Paths(f.merged));
    var g, all := AppendFills(ops, f, pos, maxBytes, maxChunks, perm);
    InterleavedSlots(Paths(sorted), pos, order, all);
    SlotBounds(ops, g, all, nReal, maxBytes, maxChunks);
    EmitAll(list, n, g.merged, all, nReal);
    n' := |g.merged|;
    MovedCoalesced(ops, g, all, list[..n'], nReal, maxBytes, maxChunks);
    MovedOrder(pos, order, all, Paths(sorted));
    MovedGreedy(ops, g, all, order, list[..n'], maxBytes, maxChunks);
    index, offset := Moved(g.index, all), g.offset;
    InTurn(f.merged, g.merged, pos, order, all, list[..n']);
  }

  lemma SlotBounds(ops: seq<ReadOp>, f: Fused, pos: seq<nat>, nReal: nat, maxBytes: nat, maxChunks: nat)
    requires Coalesced(ops, f, nReal, maxBytes, maxChunks) && |pos| == |f.merged|
    ensures FusedShape(ops, f)
    ensures forall i | 0 <= i < |f.index| :: f.index[i] < |pos|
  {
    hide Covered, WithinCaps, Window;
  }

  lemma MovedOrder(pos: seq<nat>, order: seq<nat>, all: seq<nat>, paths: seq<string>)
    requires Interleaved(paths, pos, order) && |pos| <= |all| && all[..|pos|] == pos
    ensures forall m | 0 <= m < |order| :: order[m] < |order| && all[order[m]] == m
  {
    hide KeyLess;
    forall m | 0 <= m < |order| ensures order[m] < |order| && all[order[m]] == m {
      assert all[..|pos|][order[m]] == all[order[m]];
    }
  }

  lemma FusedIsSorted(ops: seq<ReadOp>, perm: seq<nat>, f: Fused, maxBytes: nat, maxChunks: nat)
    requires FuseInv(ops, perm, |perm|, f, maxBytes, maxChunks)
    ensures Sorted(f.merged)
  {
    hide Covered, WithinCaps, Window;
  }

  /** Writes the reads to their slots. */
  method EmitAll(list: array<ReadOp>, ghost n: nat, merged: seq<ReadOp>, pos: seq<nat>, ghost nReal: nat)
    requires |merged| == |pos| <= n <= list.Length && SlotsOk(pos, nReal)
    modifies list
    ensures Emitted(merged, pos, list[..|merged|])
    ensures forall k | n <= k < list.Length :: list[k] == old(list[k])
  {
    for k := 0 to |merged|
      invariant forall j | 0 <= j < k :: list[pos[j]] == merged[j]
      invariant forall j | n <= j < list.Length :: list[j] == old(list[j])
    {
      list[pos[k]] := merged[k];
    }
  }

  lemma InTurn(sorted: seq<ReadOp>, merged: seq<ReadOp>, pos: seq<nat>, order: seq<nat>, all: seq<nat>,
               out: seq<ReadOp>)
    requires Interleaved(Paths(sorted), pos, order) && Sorted(sorted) && |sorted| <= |merged|
               && merged[..|sorted|] == sorted
    requires Emitted(merged, all, out) && all[..|sorted|] == pos
    ensures EmittedInTurn(out, |sorted|, sorted, order)
  {
    hide KeyLess, Before;
    forall m | 0 <= m < |sorted| ensures order[m] < |sorted| && out[m] == sorted[order[m]] {
      var k := order[m];
      assert pos[k] == m && all[..|sorted|][k] == all[k] && merged[..|sorted|][k] == merged[k];
    }
  }

  // --- What the emitted order gives ---------------------------------------------------------------------

  lemma {:induction false} BetweenSamePath(sorted: seq<ReadOp>, a: nat, b: nat)
    requires Sorted(sorted) && a <= b < |sorted| && sorted[a].path == sorted[b].path
    ensures Run(Paths(sorted), a) == Run(Paths(sorted), b)
    decreases b
  {
    if a < b {
      CompareOrder(sorted[b - 1].path, sorted[b].path);
      CompareOrder(sorted[a].path, sorted[b - 1].path);
      CompareOrder(sorted[a].path, sorted[b].path);
      assert Before(sorted[b - 1], sorted[b]);
      if a < b - 1 { assert Before(sorted[a], sorted[b - 1]); }
      BetweenSamePath(sorted, a, b - 1);
    }
  }

  lemma {:induction false} SameRunSamePath(paths: seq<string>, a: nat, b: nat)
    requires a <= b < |paths|
    ensures Run(paths, a) <= Run(paths, b)
    ensures Run(paths, a) == Run(paths, b) ==> paths[a] == paths[b]
    decreases b
  {
    if a < b { SameRunSamePath(paths, a, b - 1); }
  }

  /** Two reads share a file exactly when they share a run. */
  lemma RunIsFile(sorted: seq<ReadOp>, a: nat, b: nat)
    requires Sorted(sorted) && a < |sorted| && b < |sorted|
    ensures sorted[a].path == sorted[b].path <==> Run(Paths(sorted), a) == Run(Paths(sorted), b)
  {
    var lo, hi := if a < b then a else b, if a < b then b else a;
    SameRunSamePath(Paths(sorted), lo, hi);
    if sorted[a].path == sorted[b].path { BetweenSamePath(sorted, lo, hi); }
  }

  /** Reads of one file are emitted in offset order, and back to back only when every
      other file's reads are already out. */
  lemma EmittedSpread(out: seq<ReadOp>, nReal: nat, sorted: seq<ReadOp>, order: seq<nat>, p: nat, q: nat)
    requires EmittedInTurn(out, nReal, sorted, order) && p < nReal && q < nReal
    ensures p < q && out[p].path == out[q].path ==> out[p].offset <= out[q].offset
    ensures p + 1 < nReal && out[p].path == out[p + 1].path && out[q].path != out[p].path ==> q < p
  {
    hide KeyLess, Before, Sorted;
    var paths := Paths(sorted);
    var pos :| Interleaved(paths, pos, order);
    RunIsFile(sorted, order[p], order[q]);
    if p < q && out[p].path == out[q].path { FileOffsets(sorted, pos, order, p, q); }
    if p + 1 < nReal {
      RunIsFile(sorted, order[p], order[p + 1]);
      if out[p].path == out[p + 1].path && out[q].path != out[p].path { SpreadAcrossFiles(paths, pos, order, p, q); }
    }
  }

  lemma FileOffsets(sorted: seq<ReadOp>, pos: seq<nat>, order: seq<nat>, p: nat, q: nat)
    requires Sorted(sorted) && Interleaved(Paths(sorted), pos, order) && p < q < |order|
    requires Run(Paths(sorted), order[p]) == Run(Paths(sorted), order[q])
               && sorted[order[p]].path == sorted[order[q]].path
    ensures sorted[order[p]].offset <= sorted[order[q]].offset
  {
    hide KeyLess;
    var a, b := order[p], order[q];
    if b < a {
      FileOrderKept(Paths(sorted), pos, order, b, a);
      assert false;
    }
    CompareOrder(sorted[a].path, sorted[b].path);
    assert a < b ==> Before(sorted[a], sorted[b]);
  }
}
