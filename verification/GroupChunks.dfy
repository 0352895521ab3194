/** Grouping chunk plans by the read that serves them: a stable counting sort. */
module GroupChunks {
  import opened Statuses
  import opened Seqs

  /** One chunk of the batch: its bytes inside a read, and what it is for. `use` stands for
      the sample and grid coordinate, which travel along unchanged. */
  datatype ChunkPlan = ChunkPlan(read: nat, offset: nat, nbytes: nat, decoded: nat, fill: bool, use: nat)

  datatype Group = Group(read: nat, first: nat, count: nat, decoded: nat)

  // --- The reference: the chunks of each read, in their order ---------------------------------

  ghost function OfRead(s: seq<ChunkPlan>, r: nat): (t: seq<ChunkPlan>)
    ensures |t| <= |s|
  {
    if s == [] then []
    else
      var n := |s| - 1;
      OfRead(s[..n], r) + if s[n].read == r then [s[n]] else []
  }

  ghost function First(s: seq<ChunkPlan>, r: nat): nat {
    if r == 0 then 0 else First(s, r - 1) + |OfRead(s, r - 1)|
  }

  /** All chunks, by read, each read's chunks in their original order. */
  ghost function Grouped(s: seq<ChunkPlan>, readCount: nat): (t: seq<ChunkPlan>)
    ensures |t| == First(s, readCount)
  {
    if readCount == 0 then [] else Grouped(s, readCount - 1) + OfRead(s, readCount - 1)
  }

  ghost predicate ReadsBelow(s: seq<ChunkPlan>, n: nat) {
    forall i | 0 <= i < |s| :: s[i].read < n
  }

  lemma {:induction false} OfReadMembers(s: seq<ChunkPlan>, r: nat, e: ChunkPlan)
    ensures e in OfRead(s, r) <==> e in s && e.read == r
    decreases |s|
  {
    if s != [] { OfReadMembers(s[..|s| - 1], r, e); }
  }

  lemma {:induction false} OfReadPrefix(s: seq<ChunkPlan>, r: nat, i: nat)
    requires i <= |s|
    ensures OfRead(s[..i], r) <= OfRead(s, r)
    decreases |s|
  {
    if i == |s| {
      assert s[..i] == s;
    } else {
      OfReadPrefix(s[..|s| - 1], r, i);
      assert s[..|s| - 1][..i] == s[..i];
    }
  }

  lemma OfReadStep(s: seq<ChunkPlan>, r: nat, i: nat)
    requires i < |s|
    ensures OfRead(s[..i + 1], r) == OfRead(s[..i], r) + if s[i].read == r then [s[i]] else []
  {
    assert s[..i + 1][..i] == s[..i];
  }

  lemma {:induction false} FirstMonotone(s: seq<ChunkPlan>, q: nat, r: nat)
    requires q <= r
    ensures First(s, q) <= First(s, r)
    ensures q < r ==> First(s, q) + |OfRead(s, q)| <= First(s, r)
    decreases r
  {
    if q < r { FirstMonotone(s, q, r - 1); }
  }

  lemma {:induction false} FirstSnoc(s: seq<ChunkPlan>, e: ChunkPlan, r: nat)
    ensures First(s + [e], r) == First(s, r) + if e.read < r then 1 else 0
    decreases r
  {
    if r > 0 {
      FirstSnoc(s, e, r - 1);
      assert (s + [e])[..|s|] == s;
    }
  }

  /** The counts add up to the number of chunks. */
  lemma {:induction false} FirstTotal(s: seq<ChunkPlan>, n: nat)
    requires ReadsBelow(s, n)
    ensures First(s, n) == |s|
    decreases |s|
  {
    if s == [] {
      FirstOfNone(n);
    } else {
      var m := |s| - 1;
      FirstTotal(s[..m], n);
      FirstSnoc(s[..m], s[m], n);
      assert s[..m] + [s[m]] == s;
    }
  }

  lemma {:induction false} FirstOfNone(n: nat)
    ensures First([], n) == 0
    decreases n
  {
    if n > 0 { FirstOfNone(n - 1); }
  }

  /** Where chunk j of read r goes. */
  ghost function Slot(s: seq<ChunkPlan>, r: nat, j: nat): nat {
    First(s, r) + j
  }

  lemma {:induction false} GroupedAt(s: seq<ChunkPlan>, n: nat, r: nat, j: nat)
    requires r < n && j < |OfRead(s, r)|
    ensures Slot(s, r, j) < First(s, n) && Grouped(s, n)[Slot(s, r, j)] == OfRead(s, r)[j]
    decreases n
  {
    hide OfRead;
    FirstMonotone(s, r, n);
    FirstMonotone(s, r, n - 1);
    if r < n - 1 {
      GroupedAt(s, n - 1, r, j);
    }
  }

  lemma SlotsApart(s: seq<ChunkPlan>, q: nat, i: nat, r: nat, j: nat)
    requires i < |OfRead(s, q)| && j < |OfRead(s, r)|
    ensures Slot(s, q, i) == Slot(s, r, j) <==> q == r && i == j
  {
    if q < r { FirstMonotone(s, q, r); }
    if r < q { FirstMonotone(s, r, q); }
  }

  /** Every slot belongs to some chunk of some read. */
  lemma {:induction false} SlotExists(s: seq<ChunkPlan>, n: nat, x: nat) returns (r: nat, j: nat)
    requires x < First(s, n)
    ensures r < n && j < |OfRead(s, r)| && Slot(s, r, j) == x
    decreases n
  {
    if x < First(s, n - 1) {
      r, j := SlotExists(s, n - 1, x);
    } else {
      r, j := n - 1, x - First(s, n - 1);
    }
  }

  lemma {:induction false} OfReadCount(s: seq<ChunkPlan>, r: nat, e: ChunkPlan)
    ensures multiset(OfRead(s, r))[e] == if e.read == r then multiset(s)[e] else 0
    decreases |s|
  {
    if s != [] {
      var n := |s| - 1;
      OfReadCount(s[..n], r, e);
      assert s == s[..n] + [s[n]];
    }
  }

  lemma {:induction false} GroupedCount(s: seq<ChunkPlan>, n: nat, e: ChunkPlan)
    ensures multiset(Grouped(s, n))[e] == if e.read < n then multiset(s)[e] else 0
    decreases n
  {
    hide OfRead, First;
    if n > 0 {
      GroupedCount(s, n - 1, e);
      OfReadCount(s, n - 1, e);
      assert Grouped(s, n) == Grouped(s, n - 1) + OfRead(s, n - 1);
    }
  }

  /** Grouping loses no chunk and makes none up. */
  lemma GroupedPermutes(s: seq<ChunkPlan>, n: nat)
    requires ReadsBelow(s, n)
    ensures multiset(Grouped(s, n)) == multiset(s) && |Grouped(s, n)| == |s|
  {
    FirstTotal(s, n);
    forall e ensures multiset(Grouped(s, n))[e] == multiset(s)[e] {
      GroupedCount(s, n, e);
      if e in s { assert e.read < n; }
    }
  }

  // --- group_chunks_by_read ------------------------------------------------------------------------

  /** The head table holds the first slot of each read. */
  ghost predicate Heads(s: seq<ChunkPlan>, head: seq<nat>, n: nat) {
    |head| == n + 1 && forall r | 0 <= r <= n :: head[r] == First(s, r)
  }

  /** Counting: head[r + 1] is the number of chunks of read r. */
  method CountReads(s: seq<ChunkPlan>, n: nat) returns (ok: bool, head: seq<nat>)
    ensures ok <==> ReadsBelow(s, n)
    ensures ok ==> |head| == n + 1 && head[0] == 0 && forall q | 1 <= q <= n :: head[q] == |OfRead(s, q - 1)|
  {
    head := seq(n + 1, _ => 0);
    for i := 0 to |s|
      invariant ReadsBelow(s[..i], n) && |head| == n + 1 && head[0] == 0
      invariant forall q | 1 <= q <= n :: head[q] == |OfRead(s[..i], q - 1)|
    {
      var r := s[i].read;
      if r >= n { return false, head; }
      ghost var before := head;
      head := head[r + 1 := head[r + 1] + 1];
      forall q | 1 <= q <= n ensures head[q] == |OfRead(s[..i + 1], q - 1)| {
        assert before[q] == |OfRead(s[..i], q - 1)|;
        OfReadStep(s, q - 1, i);
      }
    }
    assert s[..|s|] == s;
    return true, head;
  }

  method PrefixSums(s: seq<ChunkPlan>, n: nat, counts: seq<nat>) returns (head: seq<nat>)
    requires |counts| == n + 1 && counts[0] == 0 && forall q | 1 <= q <= n :: counts[q] == |OfRead(s, q - 1)|
    ensures Heads(s, head, n)
  {
    hide OfRead;
    head := counts;
    for r := 1 to n + 1
      invariant |head| == n + 1
      invariant forall q | 0 <= q < r :: head[q] == First(s, q)
      invariant forall q | r <= q <= n :: head[q] == counts[q]
    {
      head := head[r := head[r] + head[r - 1]];
    }
  }

  /** Group g describes the chunks of its read. */
  ghost predicate GroupOk(s: seq<ChunkPlan>, n: nat, g: Group) {
    g.read < n && g.first == First(s, g.read) && g.count == |OfRead(s, g.read)| > 0
  }

  ghost predicate GroupsFor(s: seq<ChunkPlan>, n: nat, groups: seq<Group>) {
    && (forall k | 0 <= k < |groups| :: GroupOk(s, n, groups[k]))
    && (forall i, k | 0 <= i < k < |groups| :: groups[i].read < groups[k].read)
    && (forall r: nat | r < n && OfRead(s, r) != [] :: HasGroup(groups, r))
  }

  ghost predicate HasGroup(groups: seq<Group>, r: nat) {
    exists k :: 0 <= k < |groups| && groups[k].read == r
  }

  method MakeGroups(s: seq<ChunkPlan>, n: nat, head: seq<nat>) returns (groups: seq<Group>)
    requires Heads(s, head, n)
    ensures GroupsFor(s, n, groups) && |groups| <= n
    ensures forall k | 0 <= k < |groups| :: groups[k].decoded == 0
  {
    groups := [];
    for r := 0 to n
      invariant GroupsFor(s, r, groups) && |groups| <= r
      invariant forall k | 0 <= k < |groups| :: groups[k].decoded == 0
    {
      var first, last := head[r], head[r + 1];
      if first == last {
        MoreReads(s, r, groups, []);
      } else {
        MoreReads(s, r, groups, [Group(r, first, last - first, 0)]);
        groups := groups + [Group(r, first, last - first, 0)];
      }
    }
  }

  lemma MoreReads(s: seq<ChunkPlan>, r: nat, groups: seq<Group>, more: seq<Group>)
    requires GroupsFor(s, r, groups)
    requires OfRead(s, r) == [] ==> more == []
    requires OfRead(s, r) != [] ==> |more| == 1 && more[0].read == r && GroupOk(s, r + 1, more[0])
    ensures GroupsFor(s, r + 1, groups + more)
  {
    hide OfRead, First, HasGroup, GroupOk;
    var after, n := groups + more, r + 1;
    forall k | 0 <= k < |after| ensures GroupOk(s, n, after[k]) && after[k].read < n {
      if k < |groups| {
        assert after[k] == groups[k] && GroupOk(s, r, groups[k]);
        WiderGroup(s, r, groups[k]);
      } else {
        assert after[k] == more[k - |groups|];
      }
    }
    forall i, k | 0 <= i < k < |after| ensures after[i].read < after[k].read {
      assert after[i] == groups[i];
      if k < |groups| { assert after[k] == groups[k]; } else { WiderGroup(s, r, groups[i]); }
    }
    forall q: nat | q < n && OfRead(s, q) != [] ensures HasGroup(after, q) {
      if q < r { assert HasGroup(groups, q); }
      MoreHasGroup(groups, more, q);
    }
  }

  lemma WiderGroup(s: seq<ChunkPlan>, r: nat, g: Group)
    requires GroupOk(s, r, g)
    ensures GroupOk(s, r + 1, g) && g.read < r
  {
  }

  lemma MoreHasGroup(groups: seq<Group>, more: seq<Group>, q: nat)
    requires HasGroup(groups, q) || (more != [] && more[0].read == q)
    ensures HasGroup(groups + more, q)
  {
    var after := groups + more;
    if HasGroup(groups, q) {
      var k :| 0 <= k < |groups| && groups[k].read == q;
      assert after[k].read == q;
    } else {
      assert after[|groups|].read == q;
    }
  }

  /** The chunks before position i are in their slots. */
  ghost predicate Scattered(s: seq<ChunkPlan>, n: nat, i: nat, out: seq<ChunkPlan>)
    requires i <= |s|
  {
    && |out| == First(s, n)
    && forall r: nat, j: nat | r < n && j < |OfRead(s[..i], r)| :: ChunkAt(s, r, j, out)
  }

  ghost predicate ChunkAt(s: seq<ChunkPlan>, r: nat, j: nat, out: seq<ChunkPlan>) {
    j < |OfRead(s, r)| && Slot(s, r, j) < |out| && out[Slot(s, r, j)] == OfRead(s, r)[j]
  }

  ghost predicate ScatterHeads(s: seq<ChunkPlan>, n: nat, i: nat, head: seq<nat>)
    requires i <= |s|
  {
    |head| == n + 1 && forall r | 0 <= r < n :: head[r] == Slot(s, r, |OfRead(s[..i], r)|)
  }

  lemma ScatterOne(s: seq<ChunkPlan>, n: nat, i: nat, head: seq<nat>, out: seq<ChunkPlan>)
    requires i < |s| && s[i].read < n && Scattered(s, n, i, out) && ScatterHeads(s, n, i, head)
    ensures var r := s[i].read;
            && head[r] < |out|
            && Scattered(s, n, i + 1, out[head[r] := s[i]])
            && ScatterHeads(s, n, i + 1, head[r := head[r] + 1])
  {
    hide OfRead, First;
    var r := s[i].read;
    var j0 := |OfRead(s[..i], r)|;
    OfReadStep(s, r, i);
    OfReadPrefix(s, r, i + 1);
    GroupedAt(s, n, r, j0);
    var out' := out[head[r] := s[i]];
    forall q: nat, j: nat | q < n && j < |OfRead(s[..i + 1], q)| ensures ChunkAt(s, q, j, out') {
      OfReadStep(s, q, i);
      OfReadPrefix(s, q, i + 1);
      SlotsApart(s, q, j, r, j0);
      if q != r || j < j0 { assert ChunkAt(s, q, j, out); }
    }
    var head' := head[r := head[r] + 1];
    forall q | 0 <= q < n ensures head'[q] == Slot(s, q, |OfRead(s[..i + 1], q)|) {
      OfReadStep(s, q, i);
    }
  }

  lemma AllScattered(s: seq<ChunkPlan>, n: nat, out: seq<ChunkPlan>)
    requires Scattered(s, n, |s|, out)
    ensures out == Grouped(s, n)
  {
    assert s[..|s|] == s;
    forall x | 0 <= x < |out| ensures out[x] == Grouped(s, n)[x] {
      var r, j := SlotExists(s, n, x);
      assert ChunkAt(s, r, j, out);
      GroupedAt(s, n, r, j);
    }
  }

  /** The counting sort proper. */
  method ScatterChunks(plans: array<ChunkPlan>, n: nat, readCount: nat, head: seq<nat>)
    requires n <= plans.Length && ReadsBelow(plans[..n], readCount) && Heads(plans[..n], head, readCount)
    modifies plans
    ensures plans[..n] == Grouped(old(plans[..n]), readCount)
    ensures plans[n..] == old(plans[n..])
  {
    ghost var s := plans[..n];
    FirstTotal(s, readCount);
    if n < 2 {
      FewChunks(s, readCount);
      return;
    }
    var scratch := ScatterAll(plans[..n], readCount, head);
    CopyBack(plans, scratch);
  }

  method ScatterAll(s: seq<ChunkPlan>, readCount: nat, head: seq<nat>) returns (scratch: seq<ChunkPlan>)
    requires ReadsBelow(s, readCount) && Heads(s, head, readCount) && First(s, readCount) == |s|
    ensures scratch == Grouped(s, readCount) && |scratch| == |s|
  {
    hide Scattered, ScatterHeads, Grouped, First, OfRead;
    scratch := s;
    var next := head;
    ScatterStart(s, readCount, next, scratch);
    for i := 0 to |s|
      invariant |scratch| == |s| && |next| == readCount + 1
      invariant Scattered(s, readCount, i, scratch) && ScatterHeads(s, readCount, i, next)
    {
      ScatterOne(s, readCount, i, next, scratch);
      scratch := scratch[next[s[i].read] := s[i]];
      next := next[s[i].read := next[s[i].read] + 1];
    }
    AllScattered(s, readCount, scratch);
  }

  method CopyBack(plans: array<ChunkPlan>, scratch: seq<ChunkPlan>)
    requires |scratch| <= plans.Length
    modifies plans
    ensures plans[..|scratch|] == scratch && plans[|scratch|..] == old(plans[|scratch|..])
  {
    for i := 0 to |scratch|
      invariant plans[..i] == scratch[..i] && plans[|scratch|..] == old(plans[|scratch|..])
    {
      plans[i] := scratch[i];
    }
  }

  lemma ScatterStart(s: seq<ChunkPlan>, n: nat, head: seq<nat>, out: seq<ChunkPlan>)
    requires Heads(s, head, n) && |out| == First(s, n)
    ensures Scattered(s, n, 0, out) && ScatterHeads(s, n, 0, head)
  {
    assert s[..0] == [];
  }

  lemma FewChunks(s: seq<ChunkPlan>, n: nat)
    requires |s| < 2 && ReadsBelow(s, n) && First(s, n) == |s|
    ensures Grouped(s, n) == s
  {
    hide Grouped, OfRead, First;
    GroupedPermutes(s, n);
    if |s| == 1 {
      var g := Grouped(s, n);
      assert g[0] in multiset(g);
      assert g[0] in multiset(s);
      assert s == [s[0]] && g == [g[0]];
    }
  }

  ghost function Sum(s: seq<ChunkPlan>): nat {
    if s == [] then 0 else Sum(s[..|s| - 1]) + s[|s| - 1].decoded
  }

  /** The finished table: every group spans exactly the chunks of its read. */
  ghost predicate GroupTable(s: seq<ChunkPlan>, n: nat, groups: seq<Group>, plans: seq<ChunkPlan>) {
    && plans == Grouped(s, n)
    && GroupsFor(s, n, groups)
    && forall k | 0 <= k < |groups| :: GroupSpan(s, groups[k], plans)
  }

  ghost predicate GroupSpan(s: seq<ChunkPlan>, g: Group, plans: seq<ChunkPlan>) {
    && g.first + g.count <= |plans|
    && plans[g.first..g.first + g.count] == OfRead(s, g.read)
    && g.decoded == Sum(OfRead(s, g.read))
  }

  lemma SpanIsRead(s: seq<ChunkPlan>, n: nat, g: Group, plans: seq<ChunkPlan>)
    requires plans == Grouped(s, n) && GroupOk(s, n, g)
    ensures g.first + g.count <= |plans| && plans[g.first..g.first + g.count] == OfRead(s, g.read)
  {
    FirstMonotone(s, g.read, n);
    forall j | 0 <= j < g.count ensures plans[g.first + j] == OfRead(s, g.read)[j] {
      GroupedAt(s, n, g.read, j);
      assert Slot(s, g.read, j) == g.first + j;
    }
  }

  method SumGroup(plans: seq<ChunkPlan>, first: nat, count: nat) returns (sum: nat)
    requires first + count <= |plans|
    ensures sum == Sum(plans[first..first + count])
  {
    sum := 0;
    for i := 0 to count
      invariant sum == Sum(plans[first..first + i])
    {
      assert plans[first..first + i + 1] == plans[first..first + i] + [plans[first + i]];
      sum := sum + plans[first + i].decoded;
    }
  }

  method GroupByRead(plans: array<ChunkPlan>, n: nat, readCount: nat, capacity: nat)
    returns (status: Status, groups: seq<Group>)
    requires n <= plans.Length
    modifies plans
    ensures status == OK <==>
              n == 0 || readCount == 0 || (capacity >= readCount && old(ReadsBelow(plans[..n], readCount)))
    ensures status != OK ==> status == (if capacity < readCount then BUDGET else INVAL) && plans[..] == old(plans[..])
    ensures status == OK && n > 0 && readCount > 0 ==> GroupTable(old(plans[..n]), readCount, groups, plans[..n])
    ensures status == OK && (n == 0 || readCount == 0) ==> groups == [] && plans[..] == old(plans[..])
  {
    groups := [];
    if n == 0 || readCount == 0 { return OK, groups; }
    if capacity < readCount { return BUDGET, groups; }
    ghost var s := plans[..n];
    var ok, counts := CountReads(plans[..n], readCount);
    if !ok { return INVAL, groups; }
    var head := PrefixSums(plans[..n], readCount, counts);
    groups := MakeGroups(plans[..n], readCount, head);
    ScatterChunks(plans, n, readCount, head);
    groups := FillTotals(s, readCount, groups, plans[..n]);
    return OK, groups;
  }

  method FillTotals(ghost s: seq<ChunkPlan>, ghost n: nat, groups: seq<Group>, plans: seq<ChunkPlan>)
    returns (filled: seq<Group>)
    requires GroupsFor(s, n, groups) && plans == Grouped(s, n)
    ensures GroupTable(s, n, filled, plans)
  {
    hide Grouped, OfRead, First, Sum;
    filled := groups;
    for k := 0 to |groups|
      invariant |filled| == |groups|
      invariant forall j | 0 <= j < |groups| :: filled[j] == groups[j].(decoded := filled[j].decoded)
      invariant forall j | 0 <= j < k :: GroupSpan(s, filled[j], plans)
    {
      var g := filled[k];
      assert g == groups[k].(decoded := g.decoded) && GroupOk(s, n, groups[k]);
      SpanIsRead(s, n, g, plans);
      var sum := SumGroup(plans, g.first, g.count);
      filled := filled[k := g.(decoded := sum)];
    }
    SameGroups(s, n, groups, filled);
  }

  lemma SameGroups(s: seq<ChunkPlan>, n: nat, groups: seq<Group>, filled: seq<Group>)
    requires GroupsFor(s, n, groups) && |filled| == |groups|
    requires forall j | 0 <= j < |groups| :: filled[j] == groups[j].(decoded := filled[j].decoded)
    ensures GroupsFor(s, n, filled)
  {
    forall r: nat | r < n && OfRead(s, r) != [] ensures HasGroup(filled, r) {
      assert HasGroup(groups, r);
      var k :| 0 <= k < |groups| && groups[k].read == r;
      assert filled[k].read == r;
    }
  }
}
