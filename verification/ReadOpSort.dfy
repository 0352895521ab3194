/** Sorting read windows by (path, file offset, index): an in-place quicksort of a
    permutation of their indices. */
module ReadOpSort {
  import opened Seqs

  /** One window of a file to read. A missing path or a zero length marks a placeholder. */
  datatype ReadOp = ReadOp(path: string, hasPath: bool, offset: nat, nbytes: nat)

  const INSERTION_CUTOFF: nat := 16

  // --- perm_lt ----------------------------------------------------------------------------

  /** strcmp: negative, zero or positive. */
  function Compare(a: string, b: string): int {
    if a == [] then (if b == [] then 0 else -1)
    else if b == [] then 1
    else if a[0] < b[0] then -1
    else if b[0] < a[0] then 1
    else Compare(a[1..], b[1..])
  }

  predicate Less(ops: seq<ReadOp>, a: nat, b: nat)
    requires a < |ops| && b < |ops|
  {
    var order := Compare(ops[a].path, ops[b].path);
    if order != 0 then order < 0
    else if ops[a].offset != ops[b].offset then ops[a].offset < ops[b].offset
    else a < b
  }

  lemma {:induction false} CompareOrder(a: string, b: string)
    ensures Compare(a, b) == 0 <==> a == b
    ensures Compare(a, b) < 0 <==> Compare(b, a) > 0
  {
    if a != [] && b != [] {
      CompareOrder(a[1..], b[1..]);
      assert a == [a[0]] + a[1..] && b == [b[0]] + b[1..];
    }
  }

  lemma {:induction false} CompareTransitive(a: string, b: string, c: string)
    requires Compare(a, b) < 0 && Compare(b, c) < 0
    ensures Compare(a, c) < 0
  {
    if a != [] && b != [] && c != [] && a[0] == b[0] == c[0] {
      CompareTransitive(a[1..], b[1..], c[1..]);
    }
  }

  /** The strings agree up to k, where `a` ends or has the smaller character. */
  ghost predicate SmallerAt(a: string, b: string, k: nat) {
    k <= |a| && k < |b| && a[..k] == b[..k] && (k < |a| ==> a[k] < b[k])
  }

  ghost predicate PathBefore(a: string, b: string) {
    exists k: nat :: SmallerAt(a, b, k)
  }

  lemma {:induction false} CompareMeans(a: string, b: string)
    ensures Compare(a, b) < 0 <==> PathBefore(a, b)
  {
    if a == [] {
      if b != [] { assert SmallerAt(a, b, 0); }
    } else if b != [] {
      CompareMeans(a[1..], b[1..]);
      if a[0] < b[0] { assert SmallerAt(a, b, 0); }
      if a[0] == b[0] {
        if k: nat :| SmallerAt(a[1..], b[1..], k) {
          assert a[..k + 1] == [a[0]] + a[1..][..k] && b[..k + 1] == [b[0]] + b[1..][..k];
          assert SmallerAt(a, b, k + 1);
        }
        if k: nat :| SmallerAt(a, b, k) {
          assert k > 0;
          assert a[1..][..k - 1] == a[..k][1..] && b[1..][..k - 1] == b[..k][1..];
          assert SmallerAt(a[1..], b[1..], k - 1);
        }
      }
    }
  }

  /** By path, windows of one file by offset, and equal offsets by index. */
  lemma LessMeans(ops: seq<ReadOp>, a: nat, b: nat)
    requires a < |ops| && b < |ops|
    ensures Less(ops, a, b) <==>
            || PathBefore(ops[a].path, ops[b].path)
            || (ops[a].path == ops[b].path && ops[a].offset < ops[b].offset)
            || (ops[a].path == ops[b].path && ops[a].offset == ops[b].offset && a < b)
  {
    CompareMeans(ops[a].path, ops[b].path);
    CompareOrder(ops[a].path, ops[b].path);
  }

  /** The comparison is a strict total order on indices, whatever the windows. */
  lemma LessTotalOrder(ops: seq<ReadOp>, a: nat, b: nat, c: nat)
    requires a < |ops| && b < |ops| && c < |ops|
    ensures !Less(ops, a, a)
    ensures a != b ==> (Less(ops, a, b) <==> !Less(ops, b, a))
    ensures Less(ops, a, b) && Less(ops, b, c) ==> Less(ops, a, c)
  {
    CompareOrder(ops[a].path, ops[b].path);
    CompareOrder(ops[b].path, ops[a].path);
    CompareOrder(ops[b].path, ops[c].path);
    CompareOrder(ops[a].path, ops[a].path);
    if Compare(ops[a].path, ops[b].path) < 0 && Compare(ops[b].path, ops[c].path) < 0 {
      CompareTransitive(ops[a].path, ops[b].path, ops[c].path);
    }
  }

  // --- Positions in the order -------------------------------------------------------------------

  ghost function Below(ops: seq<ReadOp>, a: nat): set<nat>
    requires a < |ops|
  {
    set b: nat | b < |ops| && Less(ops, b, a)
  }

  ghost function Rank(ops: seq<ReadOp>, a: nat): nat
    requires a < |ops|
  {
    |Below(ops, a)|
  }

  lemma SmallerSet(s: set<nat>, t: set<nat>)
    requires s < t
    ensures |s| < |t|
  {
    var x :| x in t && x !in s;
    assert s <= t - {x};
    Subset(s, t - {x});
  }

  lemma {:induction false} Subset(s: set<nat>, t: set<nat>)
    requires s <= t
    ensures |s| <= |t|
    decreases s
  {
    if s != {} {
      var x :| x in s;
      Subset(s - {x}, t - {x});
    }
  }

  /** The order on indices is the order of their ranks. */
  lemma RankOrder(ops: seq<ReadOp>, a: nat, b: nat)
    requires a < |ops| && b < |ops|
    ensures Less(ops, a, b) <==> Rank(ops, a) < Rank(ops, b)
    ensures Rank(ops, a) == Rank(ops, b) ==> a == b
  {
    LessTotalOrder(ops, a, b, a);
    if Less(ops, a, b) { RankRises(ops, a, b); }
    if Less(ops, b, a) { RankRises(ops, b, a); }
  }

  lemma RankRises(ops: seq<ReadOp>, a: nat, b: nat)
    requires a < |ops| && b < |ops| && Less(ops, a, b)
    ensures Rank(ops, a) < Rank(ops, b)
  {
    forall c | c in Below(ops, a) ensures c in Below(ops, b) { LessTotalOrder(ops, c, a, b); }
    LessTotalOrder(ops, a, a, a);
    assert a in Below(ops, b) && a !in Below(ops, a);
    SmallerSet(Below(ops, a), Below(ops, b));
  }

  ghost predicate AllIndices(ops: seq<ReadOp>, s: seq<nat>) {
    forall k | 0 <= k < |s| :: s[k] < |ops|
  }

  /** Pairs of positions in [lo, hi] are in order. */
  ghost predicate SortedIn(ops: seq<ReadOp>, s: seq<nat>, lo: int, hi: int)
    requires AllIndices(ops, s)
  {
    forall a, b | 0 <= lo <= a < b <= hi < |s| :: Rank(ops, s[a]) <= Rank(ops, s[b])
  }

  method PermLess(ops: seq<ReadOp>, a: nat, b: nat) returns (less: bool)
    requires a < |ops| && b < |ops|
    ensures less <==> Rank(ops, a) < Rank(ops, b)
  {
    RankOrder(ops, a, b);
    var order := Compare(ops[a].path, ops[b].path);
    if order != 0 { return order < 0; }
    if ops[a].offset != ops[b].offset { return ops[a].offset < ops[b].offset; }
    return a < b;
  }

  // --- Rearrangements ------------------------------------------------------------------------------

  /** `t` rearranges positions [lo, hi] of `s` and nothing else. */
  ghost predicate Rearranged(s: seq<nat>, t: seq<nat>, lo: int, hi: int) {
    && |s| == |t| && multiset(s) == multiset(t)
    && forall k | 0 <= k < |s| && !(lo <= k <= hi) :: s[k] == t[k]
  }

  function Swapped(s: seq<nat>, i: nat, j: nat): (t: seq<nat>)
    requires i < |s| && j < |s|
    ensures |t| == |s| && forall k | 0 <= k < |s| :: t[k] == if k == i then s[j] else if k == j then s[i] else s[k]
  {
    s[i := s[j]][j := s[i]]
  }

  lemma SwapRearranges(s: seq<nat>, i: nat, j: nat, lo: int, hi: int)
    requires 0 <= lo <= i <= hi && lo <= j <= hi < |s|
    ensures Rearranged(s, Swapped(s, i, j), lo, hi)
  {
  }

  lemma RearrangedTwice(s: seq<nat>, t: seq<nat>, u: seq<nat>, lo: int, hi: int)
    requires Rearranged(s, t, lo, hi) && Rearranged(t, u, lo, hi)
    ensures Rearranged(s, u, lo, hi)
  {
  }

  lemma Segments(s: seq<nat>, lo: nat, end: nat, v: nat)
    requires lo <= end <= |s|
    ensures multiset(s)[v] == multiset(s[..lo])[v] + multiset(s[lo..end])[v] + multiset(s[end..])[v]
  {
    assert s == s[..lo] + s[lo..end] + s[end..];
  }

  /** Each value in a rearranged part comes from that part. */
  lemma FromSegment(s: seq<nat>, t: seq<nat>, lo: nat, hi: int, k: nat) returns (k': nat)
    requires Rearranged(s, t, lo, hi) && lo <= k <= hi < |s|
    ensures lo <= k' <= hi && s[k'] == t[k]
  {
    assert s[..lo] == t[..lo] && s[hi + 1..] == t[hi + 1..];
    var v := t[k];
    assert v == t[lo..hi + 1][k - lo];
    assert v in multiset(t[lo..hi + 1]);
    assert multiset(s)[v] == multiset(t)[v];
    Segments(s, lo, hi + 1, v);
    Segments(t, lo, hi + 1, v);
    assert multiset(s[lo..hi + 1])[v] == multiset(t[lo..hi + 1])[v];
    assert v in s[lo..hi + 1];
    var m :| 0 <= m < |s[lo..hi + 1]| && s[lo..hi + 1][m] == v;
    k' := lo + m;
  }

  method Swap(ops: seq<ReadOp>, perm: array<nat>, i: nat, j: nat, ghost lo: nat, ghost hi: nat, ghost was: seq<nat>)
    requires lo <= i <= hi && lo <= j <= hi < perm.Length
    requires AllIndices(ops, perm[..]) && Rearranged(was, perm[..], lo, hi)
    modifies perm
    ensures perm[..] == Swapped(old(perm[..]), i, j)
    ensures AllIndices(ops, perm[..]) && Rearranged(was, perm[..], lo, hi)
  {
    hide Rearranged;
    ghost var s := perm[..];
    perm[i], perm[j] := perm[j], perm[i];
    assert perm[..] == Swapped(s, i, j);
    SwapRearranges(s, i, j, lo, hi);
    RearrangedTwice(was, s, perm[..], lo, hi);
  }

  // --- perm_insertion_sort ----------------------------------------------------------------------------

  method InsertionSort(ops: seq<ReadOp>, perm: array<nat>, lo: nat, hi: nat)
    requires lo <= hi < perm.Length && AllIndices(ops, perm[..])
    modifies perm
    ensures Rearranged(old(perm[..]), perm[..], lo, hi) && AllIndices(ops, perm[..])
    ensures SortedIn(ops, perm[..], lo, hi)
  {
    hide Rank;
    var i := lo + 1;
    while i <= hi
      invariant lo < i <= hi + 1
      invariant AllIndices(ops, perm[..])
      invariant Rearranged(old(perm[..]), perm[..], lo, hi)
      invariant SortedIn(ops, perm[..], lo, i - 1)
    {
      ghost var s := perm[..];
      Insert(ops, perm, lo, i);
      Widen(s, perm[..], lo, i, hi);
      RearrangedTwice(old(perm[..]), s, perm[..], lo, hi);
      i := i + 1;
    }
  }

  lemma Widen(s: seq<nat>, t: seq<nat>, lo: int, i: int, hi: int)
    requires Rearranged(s, t, lo, i) && i <= hi
    ensures Rearranged(s, t, lo, hi)
  {
  }

  /** While position j is being filled, the rest of [lo, i] is in order and above the key. */
  ghost predicate Shifting(ops: seq<ReadOp>, s: seq<nat>, lo: nat, j: nat, i: nat, key: nat)
    requires AllIndices(ops, s) && i < |s| && key < |ops|
  {
    && lo <= j <= i
    && (forall a, b | lo <= a < b <= i && a != j && b != j :: Rank(ops, s[a]) <= Rank(ops, s[b]))
    && (forall b | j < b <= i :: Rank(ops, key) <= Rank(ops, s[b]))
  }

  lemma ShiftKeepsOrder(ops: seq<ReadOp>, s: seq<nat>, lo: nat, j: nat, i: nat, key: nat)
    requires AllIndices(ops, s) && lo < j <= i < |s| && key < |ops|
    requires Shifting(ops, s, lo, j, i, key) && Rank(ops, key) <= Rank(ops, s[j - 1])
    ensures AllIndices(ops, s[j := s[j - 1]])
    ensures Shifting(ops, s[j := s[j - 1]], lo, j - 1, i, key)
  {
    hide Rank;
    var t := s[j := s[j - 1]];
    forall a, b | lo <= a < b <= i && a != j - 1 && b != j - 1 ensures Rank(ops, t[a]) <= Rank(ops, t[b]) {
      var a', b' := if a == j then j - 1 else a, if b == j then j - 1 else b;
      assert Rank(ops, s[a']) <= Rank(ops, s[b']);
    }
  }

  lemma ShiftRearranges(s: seq<nat>, lo: nat, j: nat, i: nat, key: nat, was: seq<nat>)
    requires lo < j <= i < |s| && Rearranged(was, s[j := key], lo, i)
    ensures Rearranged(was, s[j := s[j - 1]][j - 1 := key], lo, i)
  {
    hide Rearranged;
    var view := s[j := key];
    SwapRearranges(view, j - 1, j, lo, i);
    assert s[j := s[j - 1]][j - 1 := key] == Swapped(view, j - 1, j);
    RearrangedTwice(was, view, Swapped(view, j - 1, j), lo, i);
  }

  lemma ShiftStart(ops: seq<ReadOp>, s: seq<nat>, lo: nat, i: nat)
    requires AllIndices(ops, s) && lo < i < |s| && SortedIn(ops, s, lo, i - 1)
    ensures Shifting(ops, s, lo, i, i, s[i]) && Rearranged(s, s[i := s[i]], lo, i)
  {
    hide Rank;
    assert s[i := s[i]] == s;
  }

  lemma ShiftDone(ops: seq<ReadOp>, s: seq<nat>, lo: nat, j: nat, i: nat, key: nat)
    requires AllIndices(ops, s) && lo <= j <= i < |s| && key < |ops|
    requires Shifting(ops, s, lo, j, i, key) && (j > lo ==> Rank(ops, s[j - 1]) <= Rank(ops, key))
    ensures AllIndices(ops, s[j := key]) && SortedIn(ops, s[j := key], lo, i)
  {
    hide Rank;
    var t := s[j := key];
    forall a, b | lo <= a < b <= i ensures Rank(ops, t[a]) <= Rank(ops, t[b]) {
      if b == j && a < j - 1 { assert Rank(ops, s[a]) <= Rank(ops, s[j - 1]); }
    }
  }

  method Insert(ops: seq<ReadOp>, perm: array<nat>, lo: nat, i: nat)
    requires lo < i < perm.Length && AllIndices(ops, perm[..]) && SortedIn(ops, perm[..], lo, i - 1)
    modifies perm
    ensures AllIndices(ops, perm[..]) && SortedIn(ops, perm[..], lo, i)
    ensures Rearranged(old(perm[..]), perm[..], lo, i)
  {
    hide Rank, SortedIn, Shifting, Rearranged;
    var key := perm[i];
    var j := i;
    ShiftStart(ops, perm[..], lo, i);
    while j > lo
      invariant lo <= j <= i && AllIndices(ops, perm[..])
      invariant Rearranged(old(perm[..]), perm[..][j := key], lo, i)
      invariant Shifting(ops, perm[..], lo, j, i, key)
      decreases j
    {
      var less := PermLess(ops, perm[j - 1], key);
      if less { break; }
      ghost var s := perm[..];
      ShiftKeepsOrder(ops, s, lo, j, i, key);
      ShiftRearranges(s, lo, j, i, key, old(perm[..]));
      perm[j] := perm[j - 1];
      assert perm[..] == s[j := s[j - 1]];
      j := j - 1;
    }
    ghost var s := perm[..];
    ShiftDone(ops, s, lo, j, i, key);
    perm[j] := key;
    assert perm[..] == s[j := key];
  }

  // --- perm_quicksort -----------------------------------------------------------------------------------

  ghost function Pow2(e: nat): nat {
    if e == 0 then 1 else 2 * Pow2(e - 1)
  }

  /** The three sampled positions, as the median step leaves them. */
  ghost predicate Sentinels(ops: seq<ReadOp>, s: seq<nat>, lo: nat, hi: nat)
    requires AllIndices(ops, s) && lo + 1 < hi < |s|
  {
    Rank(ops, s[lo]) <= Rank(ops, s[hi - 1]) <= Rank(ops, s[hi])
  }

  /** Puts the smaller of two entries first. */
  method Order(ops: seq<ReadOp>, perm: array<nat>, a: nat, b: nat, ghost lo: nat, ghost hi: nat, ghost was: seq<nat>)
    requires lo <= a < b <= hi < perm.Length && AllIndices(ops, perm[..]) && Rearranged(was, perm[..], lo, hi)
    modifies perm
    ensures AllIndices(ops, perm[..]) && Rearranged(was, perm[..], lo, hi)
    ensures Rank(ops, perm[a]) <= Rank(ops, perm[b])
    ensures perm[..] == old(perm[..]) || perm[..] == Swapped(old(perm[..]), a, b)
    ensures Rank(ops, perm[a]) <= old(Rank(ops, perm[a])) && old(Rank(ops, perm[b])) <= Rank(ops, perm[b])
  {
    hide Rank, Rearranged;
    var less := PermLess(ops, perm[b], perm[a]);
    if less { Swap(ops, perm, a, b, lo, hi, was); }
  }

  /** Puts the median of the first, middle and last entries just before the end. */
  method MedianOfThree(ops: seq<ReadOp>, perm: array<nat>, lo: nat, hi: nat)
    requires lo + 1 < hi < perm.Length && AllIndices(ops, perm[..])
    modifies perm
    ensures Rearranged(old(perm[..]), perm[..], lo, hi) && AllIndices(ops, perm[..])
    ensures Sentinels(ops, perm[..], lo, hi)
  {
    hide Rank;
    ghost var was := perm[..];
    assert Rearranged(was, was, lo, hi);
    hide Rearranged;
    var mid := lo + (hi - lo) / 2;
    Order(ops, perm, lo, mid, lo, hi, was);
    Order(ops, perm, lo, hi, lo, hi, was);
    Order(ops, perm, mid, hi, lo, hi, was);
    Swap(ops, perm, mid, hi - 1, lo, hi, was);
  }

  /** Everything up to `i` is at most the pivot and everything from `j` on at least it. */
  ghost predicate Scanned(ops: seq<ReadOp>, s: seq<nat>, lo: nat, hi: nat, i: nat, j: nat)
    requires AllIndices(ops, s) && lo + 1 < hi < |s|
  {
    var pivot := Rank(ops, s[hi - 1]);
    && (forall k | lo <= k <= i && k <= hi :: Rank(ops, s[k]) <= pivot)
    && (forall k | j <= k <= hi && lo <= k :: pivot <= Rank(ops, s[k]))
  }

  ghost predicate AtMostPivot(ops: seq<ReadOp>, s: seq<nat>, lo: nat, i: nat, hi: nat)
    requires AllIndices(ops, s) && lo + 1 < hi < |s|
  {
    i <= hi && forall k | lo <= k < i :: Rank(ops, s[k]) <= Rank(ops, s[hi - 1])
  }

  ghost predicate AtLeastPivot(ops: seq<ReadOp>, s: seq<nat>, j: nat, hi: nat)
    requires AllIndices(ops, s) && 0 < hi < |s|
  {
    forall k | j < k <= hi :: Rank(ops, s[hi - 1]) <= Rank(ops, s[k])
  }

  /** First scan: stops at the pivot at the latest, so it needs no bound. */
  method ScanUp(ops: seq<ReadOp>, perm: array<nat>, lo: nat, hi: nat, i: nat, j: nat) returns (i': nat)
    requires lo + 1 < hi < perm.Length && AllIndices(ops, perm[..]) && lo <= i < j <= hi - 1
    requires Scanned(ops, perm[..], lo, hi, i, j)
    ensures i < i' <= hi - 1 && Rank(ops, perm[i']) >= Rank(ops, perm[hi - 1])
    ensures AtMostPivot(ops, perm[..], lo, i', hi)
  {
    hide Rank;
    i' := i + 1;
    var less := PermLess(ops, perm[i'], perm[hi - 1]);
    while less
      invariant i < i' <= hi - 1
      invariant less <==> Rank(ops, perm[i']) < Rank(ops, perm[hi - 1])
      invariant forall k | lo <= k < i' :: Rank(ops, perm[k]) <= Rank(ops, perm[hi - 1])
      decreases hi - i'
    {
      i' := i' + 1;
      less := PermLess(ops, perm[i'], perm[hi - 1]);
    }
  }

  /** Second scan: stops at the first entry at the latest. */
  method ScanDown(ops: seq<ReadOp>, perm: array<nat>, lo: nat, hi: nat, i: nat, j: nat) returns (j': nat)
    requires lo + 1 < hi < perm.Length && AllIndices(ops, perm[..]) && lo < j <= hi - 1
    requires Sentinels(ops, perm[..], lo, hi)
    requires Scanned(ops, perm[..], lo, hi, lo, j)
    ensures lo <= j' < j && Rank(ops, perm[j']) <= Rank(ops, perm[hi - 1])
    ensures AtLeastPivot(ops, perm[..], j', hi)
  {
    hide Rank;
    j' := j - 1;
    var less := PermLess(ops, perm[hi - 1], perm[j']);
    while less
      invariant lo <= j' < j
      invariant less <==> Rank(ops, perm[hi - 1]) < Rank(ops, perm[j'])
      invariant forall k | j' < k <= hi :: Rank(ops, perm[hi - 1]) <= Rank(ops, perm[k])
      decreases j'
    {
      j' := j' - 1;
      less := PermLess(ops, perm[hi - 1], perm[j']);
    }
  }

  /** Position `i` separates [lo, hi]. */
  ghost predicate Split(ops: seq<ReadOp>, s: seq<nat>, lo: nat, i: nat, hi: nat)
    requires AllIndices(ops, s)
  {
    && lo <= i <= hi < |s|
    && (forall k | lo <= k <= i :: Rank(ops, s[k]) <= Rank(ops, s[i]))
    && (forall k | i <= k <= hi :: Rank(ops, s[i]) <= Rank(ops, s[k]))
  }

  method Partition(ops: seq<ReadOp>, perm: array<nat>, lo: nat, hi: nat) returns (i: nat)
    requires lo + 1 < hi < perm.Length && AllIndices(ops, perm[..]) && Sentinels(ops, perm[..], lo, hi)
    modifies perm
    ensures lo < i < hi
    ensures Rearranged(old(perm[..]), perm[..], lo, hi) && AllIndices(ops, perm[..])
    ensures Split(ops, perm[..], lo, i, hi)
  {
    hide Rank, Split;
    ghost var was := perm[..];
    assert Rearranged(was, was, lo, hi);
    i := lo;
    var j: nat := hi - 1;
    assert Scanned(ops, perm[..], lo, hi, i, j);
    hide Rearranged, Sentinels, Scanned, AtMostPivot, AtLeastPivot;
    while true
      invariant lo <= i < j <= hi - 1
      invariant AllIndices(ops, perm[..]) && Rearranged(was, perm[..], lo, hi)
      invariant Sentinels(ops, perm[..], lo, hi) && Scanned(ops, perm[..], lo, hi, i, j)
      decreases j
    {
      ScannedLess(ops, perm[..], lo, hi, i, j);
      i := ScanUp(ops, perm, lo, hi, i, j);
      j := ScanDown(ops, perm, lo, hi, i, j);
      if i >= j { break; }
      SwapScanned(ops, perm[..], lo, hi, i, j);
      Swap(ops, perm, i, j, lo, hi, was);
    }
    ghost var s := perm[..];
    Swap(ops, perm, i, hi - 1, lo, hi, was);
    PivotPlaced(ops, s, lo, hi, i, j);
  }

  lemma ScannedLess(ops: seq<ReadOp>, s: seq<nat>, lo: nat, hi: nat, i: nat, j: nat)
    requires AllIndices(ops, s) && lo + 1 < hi < |s| && lo <= i && Scanned(ops, s, lo, hi, i, j)
    ensures Scanned(ops, s, lo, hi, lo, j)
  {
    hide Rank;
  }

  lemma SwapScanned(ops: seq<ReadOp>, s: seq<nat>, lo: nat, hi: nat, i: nat, j: nat)
    requires AllIndices(ops, s) && lo + 1 < hi < |s| && lo < i < j < hi - 1 && Sentinels(ops, s, lo, hi)
    requires Rank(ops, s[hi - 1]) <= Rank(ops, s[i]) && Rank(ops, s[j]) <= Rank(ops, s[hi - 1])
    requires AtMostPivot(ops, s, lo, i, hi) && AtLeastPivot(ops, s, j, hi)
    ensures AllIndices(ops, Swapped(s, i, j))
    ensures Sentinels(ops, Swapped(s, i, j), lo, hi) && Scanned(ops, Swapped(s, i, j), lo, hi, i, j)
  {
    hide Rank;
  }

  lemma PivotPlaced(ops: seq<ReadOp>, s: seq<nat>, lo: nat, hi: nat, i: nat, j: nat)
    requires lo + 1 < hi < |s| && AllIndices(ops, s) && lo < i <= hi - 1 && j <= i
    requires AtMostPivot(ops, s, lo, i, hi) && AtLeastPivot(ops, s, j, hi)
    requires Rank(ops, s[hi - 1]) <= Rank(ops, s[i])
    ensures AllIndices(ops, Swapped(s, i, hi - 1)) && Split(ops, Swapped(s, i, hi - 1), lo, i, hi)
  {
    hide Rank;
  }

  /** All pairs of [lo0, hi0] that are not both in [lo, hi] are in order. */
  ghost predicate OuterSorted(ops: seq<ReadOp>, s: seq<nat>, lo0: nat, hi0: nat, lo: int, hi: int)
    requires AllIndices(ops, s)
  {
    forall a, b | lo0 <= a < b <= hi0 < |s| && (a < lo || hi < b) :: Rank(ops, s[a]) <= Rank(ops, s[b])
  }

  lemma LeftDone(ops: seq<ReadOp>, s: seq<nat>, t: seq<nat>, lo0: nat, hi0: nat, lo: nat, i: nat, hi: nat)
    requires AllIndices(ops, s) && AllIndices(ops, t) && lo0 <= lo < i < hi <= hi0 < |s|
    requires OuterSorted(ops, s, lo0, hi0, lo, hi) && Split(ops, s, lo, i, hi)
    requires Rearranged(s, t, lo, i - 1) && SortedIn(ops, t, lo, i - 1)
    ensures OuterSorted(ops, t, lo0, hi0, i + 1, hi)
  {
    hide Rank, Rearranged;
    SameOutside(s, t, lo, i - 1);
    forall a, b | lo0 <= a < b <= hi0 && (a < i + 1 || hi < b) ensures Rank(ops, t[a]) <= Rank(ops, t[b]) {
      if !(lo <= a && b < i) {
        var a', b' := a, b;
        if lo <= a < i { a' := FromSegment(s, t, lo, i - 1, a); }
        if lo <= b < i { b' := FromSegment(s, t, lo, i - 1, b); }
        CrossOrdered(ops, s, lo0, hi0, lo, i, hi, a', b');
      }
    }
  }

  lemma RightDone(ops: seq<ReadOp>, s: seq<nat>, t: seq<nat>, lo0: nat, hi0: nat, lo: nat, i: nat, hi: nat)
    requires AllIndices(ops, s) && AllIndices(ops, t) && lo0 <= lo < i < hi <= hi0 < |s|
    requires OuterSorted(ops, s, lo0, hi0, lo, hi) && Split(ops, s, lo, i, hi)
    requires Rearranged(s, t, i + 1, hi) && SortedIn(ops, t, i + 1, hi)
    ensures OuterSorted(ops, t, lo0, hi0, lo, i - 1)
  {
    hide Rank, Rearranged;
    SameOutside(s, t, i + 1, hi);
    forall a, b | lo0 <= a < b <= hi0 && (a < lo || i - 1 < b) ensures Rank(ops, t[a]) <= Rank(ops, t[b]) {
      if !(i < a && b <= hi) {
        var a', b' := a, b;
        if i < a <= hi { a' := FromSegment(s, t, i + 1, hi, a); }
        if i < b <= hi { b' := FromSegment(s, t, i + 1, hi, b); }
        CrossOrdered(ops, s, lo0, hi0, lo, i, hi, a', b');
      }
    }
  }

  lemma SameOutside(s: seq<nat>, t: seq<nat>, lo: int, hi: int)
    requires Rearranged(s, t, lo, hi)
    ensures |s| == |t| && forall k | 0 <= k < |s| && !(lo <= k <= hi) :: s[k] == t[k]
  {
  }

  /** Pairs on different sides of the split, or reaching outside [lo, hi], are in order. */
  lemma CrossOrdered(ops: seq<ReadOp>, s: seq<nat>, lo0: nat, hi0: nat, lo: nat, i: nat, hi: nat, a: nat, b: nat)
    requires AllIndices(ops, s) && lo0 <= lo < i < hi <= hi0 < |s|
    requires OuterSorted(ops, s, lo0, hi0, lo, hi) && Split(ops, s, lo, i, hi)
    requires lo0 <= a < b <= hi0 && (a < lo || hi < b || a <= i <= b)
    ensures Rank(ops, s[a]) <= Rank(ops, s[b])
  {
    hide Rank;
  }

  /** Sorts [lo0, hi0]. Recursion goes into the smaller part only, so 2 to the depth
      of the recursion never exceeds the number of entries: `depth` both bounds the
      recursion and makes it end. */
  method QuickSort(ops: seq<ReadOp>, perm: array<nat>, lo0: nat, hi0: nat, ghost depth: nat)
    requires lo0 <= hi0 < perm.Length && AllIndices(ops, perm[..])
    requires hi0 - lo0 + 1 < Pow2(depth + 1)
    modifies perm
    ensures Rearranged(old(perm[..]), perm[..], lo0, hi0) && AllIndices(ops, perm[..])
    ensures SortedIn(ops, perm[..], lo0, hi0)
    decreases depth
  {
    hide Rank, Split, Sentinels, OuterSorted, Rearranged, SortedIn;
    ghost var was := perm[..];
    SortStart(ops, was, lo0, hi0);
    var lo: int, hi: int := lo0, hi0;
    while hi > lo
      invariant lo0 <= lo <= hi + 1 <= hi0 + 1
      invariant AllIndices(ops, perm[..]) && Rearranged(was, perm[..], lo0, hi0)
      invariant OuterSorted(ops, perm[..], lo0, hi0, lo, hi)
      decreases hi - lo
    {
      ghost var s := perm[..];
      if hi - lo < INSERTION_CUTOFF {
        InsertionSort(ops, perm, lo, hi);
        InnerDone(ops, s, perm[..], lo0, hi0, lo, hi);
        RearrangedWithin(was, s, perm[..], lo0, hi0, lo, hi);
        return;
      }
      MedianOfThree(ops, perm, lo, hi);
      ghost var m := perm[..];
      var i := Partition(ops, perm, lo, hi);
      RearrangedTwice(s, m, perm[..], lo, hi);
      KeepsOuter(ops, s, perm[..], lo0, hi0, lo, hi);
      RearrangedWithin(was, s, perm[..], lo0, hi0, lo, hi);
      ghost var t := perm[..];
      if (i - 1) - lo < hi - (i + 1) {
        if i > lo + 1 { QuickSort(ops, perm, lo, i - 1, depth - 1); } else { OneSorted(ops, t, lo); }
        LeftDone(ops, t, perm[..], lo0, hi0, lo, i, hi);
        RearrangedWithin(was, t, perm[..], lo0, hi0, lo, i - 1);
        lo := i + 1;
      } else {
        if i + 1 < hi { QuickSort(ops, perm, i + 1, hi, depth - 1); } else { OneSorted(ops, t, hi); }
        RightDone(ops, t, perm[..], lo0, hi0, lo, i, hi);
        RearrangedWithin(was, t, perm[..], lo0, hi0, i + 1, hi);
        hi := i - 1;
      }
    }
    OuterIsAll(ops, perm[..], lo0, hi0, lo, hi);
  }

  lemma SortStart(ops: seq<ReadOp>, s: seq<nat>, lo: nat, hi: nat)
    requires AllIndices(ops, s)
    ensures Rearranged(s, s, lo, hi) && OuterSorted(ops, s, lo, hi, lo, hi)
  {
  }

  lemma OneSorted(ops: seq<ReadOp>, s: seq<nat>, k: nat)
    requires AllIndices(ops, s)
    ensures Rearranged(s, s, k, k) && SortedIn(ops, s, k, k)
  {
  }

  lemma OuterIsAll(ops: seq<ReadOp>, s: seq<nat>, lo0: nat, hi0: nat, lo: int, hi: int)
    requires AllIndices(ops, s) && OuterSorted(ops, s, lo0, hi0, lo, hi) && hi <= lo
    ensures SortedIn(ops, s, lo0, hi0)
  {
    hide Rank;
  }

  lemma RearrangedWithin(was: seq<nat>, s: seq<nat>, t: seq<nat>, lo0: int, hi0: int, lo: int, hi: int)
    requires Rearranged(was, s, lo0, hi0) && Rearranged(s, t, lo, hi) && lo0 <= lo && hi <= hi0
    ensures Rearranged(was, t, lo0, hi0)
  {
  }

  lemma KeepsOuter(ops: seq<ReadOp>, s: seq<nat>, t: seq<nat>, lo0: nat, hi0: nat, lo: nat, hi: nat)
    requires AllIndices(ops, s) && AllIndices(ops, t) && lo0 <= lo <= hi <= hi0 < |s|
    requires OuterSorted(ops, s, lo0, hi0, lo, hi) && Rearranged(s, t, lo, hi)
    ensures OuterSorted(ops, t, lo0, hi0, lo, hi)
  {
    hide Rank, Rearranged;
    SameOutside(s, t, lo, hi);
    forall a, b | lo0 <= a < b <= hi0 && (a < lo || hi < b) ensures Rank(ops, t[a]) <= Rank(ops, t[b]) {
      var a', b' := a, b;
      if lo <= a <= hi { a' := FromSegment(s, t, lo, hi, a); }
      if lo <= b <= hi { b' := FromSegment(s, t, lo, hi, b); }
      assert Rank(ops, s[a']) <= Rank(ops, s[b']);
    }
  }

  lemma InnerDone(ops: seq<ReadOp>, s: seq<nat>, t: seq<nat>, lo0: nat, hi0: nat, lo: nat, hi: nat)
    requires AllIndices(ops, s) && AllIndices(ops, t) && lo0 <= lo <= hi <= hi0 < |s|
    requires OuterSorted(ops, s, lo0, hi0, lo, hi) && Rearranged(s, t, lo, hi) && SortedIn(ops, t, lo, hi)
    ensures SortedIn(ops, t, lo0, hi0)
  {
    hide Rank;
    KeepsOuter(ops, s, t, lo0, hi0, lo, hi);
    assert |s| == |t|;
  }

  // --- read_op_perm_sort ---------------------------------------------------------------------------------

  /** The listed indices in strictly increasing order. */
  ghost predicate SortedPerm(ops: seq<ReadOp>, s: seq<nat>) {
    && AllIndices(ops, s)
    && forall a, b | 0 <= a < b < |s| :: Less(ops, s[a], s[b])
  }

  method PermSort(ops: seq<ReadOp>, perm: array<nat>)
    requires AllIndices(ops, perm[..])
    requires forall a, b | 0 <= a < b < perm.Length :: perm[a] != perm[b]
    modifies perm
    ensures multiset(perm[..]) == multiset(old(perm[..]))
    ensures SortedPerm(ops, perm[..])
  {
    if perm.Length > 1 {
      ghost var depth := LogDepth(perm.Length);
      QuickSort(ops, perm, 0, perm.Length - 1, depth);
    }
    StrictlySorted(ops, old(perm[..]), perm[..]);
  }

  /** The depth given to the sort: the logarithm of the number of entries, rounded down. */
  ghost method LogDepth(n: nat) returns (depth: nat)
    requires n > 0
    ensures Pow2(depth) <= n < Pow2(depth + 1)
  {
    depth := 0;
    while n >= Pow2(depth + 1)
      invariant Pow2(depth) <= n
      decreases n - Pow2(depth)
    {
      depth := depth + 1;
    }
  }

  lemma StrictlySorted(ops: seq<ReadOp>, s: seq<nat>, t: seq<nat>)
    requires AllIndices(ops, s) && AllIndices(ops, t) && multiset(s) == multiset(t)
    requires forall a, b | 0 <= a < b < |s| :: s[a] != s[b]
    requires SortedIn(ops, t, 0, |t| - 1)
    ensures SortedPerm(ops, t)
  {
    hide Rank;
    forall a, b | 0 <= a < b < |t| ensures Less(ops, t[a], t[b]) {
      RankOrder(ops, t[a], t[b]);
      if t[a] == t[b] {
        CountTwice(t, a, b);
        DistinctCount(s, t[a]);
        assert false;
      }
    }
  }
}
