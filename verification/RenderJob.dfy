/** Packing the read groups of a batch into waves, with rollback of the last wave. */
module RenderJobs {
  import opened Statuses
  import opened ReadOpSort
  import opened Coalesce
  import opened GroupChunks
  import opened Dispatch

  datatype WaveLimits = WaveLimits(inputCap: nat, devCap: nat, maxChunks: nat)

  datatype StopReason = Drained | Host | Chunks | Dev

  /** One read of a wave: where in the file, and where in the wave's input buffer. */
  datatype StoreRead = StoreRead(path: string, dst: nat, offset: nat, len: nat)

  datatype Wave = Wave(chunkOffset: nat, prevGroups: nat, nChunks: nat, list: seq<StoreRead>, inputUsed: nat,
                       fillWave: bool,
                       stop: StopReason)

  // --- The groups cover the chunks ----------------------------------------------------------------

  /** The first chunk of group k, or the end of the chunks. */
  function ChunkStart(groups: seq<Group>, k: nat, n: nat): nat {
    if k < |groups| then groups[k].first else n
  }

  /** Consecutive groups hold consecutive chunks, from the first to the last. */
  ghost predicate GroupsTile(groups: seq<Group>, n: nat) {
    ChunkStart(groups, 0, n) == 0 && forall k | 0 <= k < |groups| :: TileAt(groups, k, n)
  }

  ghost predicate TileAt(groups: seq<Group>, k: nat, n: nat)
    requires k < |groups|
  {
    groups[k].count > 0 && groups[k].first + groups[k].count == ChunkStart(groups, k + 1, n) <= n
  }

  lemma {:induction false} NoChunksBetween(s: seq<ChunkPlan>, q: nat, r: nat)
    requires q <= r && forall p: nat | q <= p < r :: OfRead(s, p) == []
    ensures First(s, q) == First(s, r)
    decreases r - q
  {
    if q < r { NoChunksBetween(s, q, r - 1); }
  }

  /** Reads between two neighbouring groups have no chunks. */
  lemma SkippedReads(s: seq<ChunkPlan>, n: nat, groups: seq<Group>, k: nat, p: nat)
    requires GroupsFor(s, n, groups) && k <= |groups| && p < n
    requires k > 0 ==> groups[k - 1].read < p
    requires k < |groups| ==> p < groups[k].read
    ensures OfRead(s, p) == []
  {
    hide OfRead, First, GroupOk;
    forall j | 0 <= j < |groups| ensures groups[j].read != p {
      assert j < k - 1 ==> groups[j].read < groups[k - 1].read;
      assert k < j ==> groups[k].read < groups[j].read;
    }
    assert !HasGroup(groups, p);
  }

  lemma GroupTableTiles(s: seq<ChunkPlan>, n: nat, groups: seq<Group>, plans: seq<ChunkPlan>)
    requires GroupTable(s, n, groups, plans)
    ensures GroupsTile(groups, |plans|)
  {
    hide OfRead, Grouped, First, GroupSpan;
    assert First(s, 0) == 0 by { FirstOfZero(s); }
    NextStart(s, n, groups, 0, 0);
    forall k | 0 <= k < |groups| ensures TileAt(groups, k, |plans|) { GroupStart(s, n, groups, k); }
  }

  lemma FirstOfZero(s: seq<ChunkPlan>)
    ensures First(s, 0) == 0
  {
  }

  lemma GroupStart(s: seq<ChunkPlan>, n: nat, groups: seq<Group>, k: nat)
    requires GroupsFor(s, n, groups) && k < |groups|
    ensures TileAt(groups, k, First(s, n))
  {
    hide OfRead, First, GroupsFor;
    GroupAt(s, n, groups, k);
    FirstStep(s, groups[k].read);
    NextStart(s, n, groups, k + 1, groups[k].read + 1);
    FirstMonotone(s, groups[k].read, n);
  }

  lemma GroupAt(s: seq<ChunkPlan>, n: nat, groups: seq<Group>, k: nat)
    requires GroupsFor(s, n, groups) && k < |groups|
    ensures GroupOk(s, n, groups[k])
  {
    hide OfRead, First, HasGroup;
  }

  lemma FirstStep(s: seq<ChunkPlan>, r: nat)
    ensures First(s, r + 1) == First(s, r) + |OfRead(s, r)|
  {
  }

  /** The group after read q - 1 starts where read q would. */
  lemma NextStart(s: seq<ChunkPlan>, n: nat, groups: seq<Group>, k: nat, q: nat)
    requires GroupsFor(s, n, groups) && k <= |groups| && q <= n
    requires if k == 0 then q == 0 else q == groups[k - 1].read + 1
    ensures First(s, q) == ChunkStart(groups, k, First(s, n))
  {
    hide OfRead, HasGroup;
    var r := if k < |groups| then groups[k].read else n;
    if k < |groups| { assert GroupOk(s, n, groups[k]); }
    if 0 < k < |groups| { assert groups[k - 1].read < groups[k].read; }
    forall p: nat | q <= p < r ensures OfRead(s, p) == [] { SkippedReads(s, n, groups, k, p); }
    NoChunksBetween(s, q, r);
  }

  // --- What a wave uses -----------------------------------------------------------------------------

  lemma {:induction false} SumAppend(a: seq<ChunkPlan>, b: seq<ChunkPlan>)
    ensures Sum(a + b) == Sum(a) + Sum(b)
    decreases |b|
  {
    if b == [] {
      assert a + b == a;
    } else {
      var m := |b| - 1;
      SumAppend(a, b[..m]);
      assert (a + b)[..|a + b| - 1] == a + b[..m];
    }
  }

  function HostAdd(list: seq<ReadOp>, plans: seq<ChunkPlan>, g: Group): nat {
    if g.first < |plans| && g.read < |list| && !plans[g.first].fill then list[g.read].nbytes else 0
  }

  /** Input bytes of groups [from, upto). */
  ghost function HostUse(list: seq<ReadOp>, plans: seq<ChunkPlan>, groups: seq<Group>, from: nat, upto: nat): nat
    requires from <= upto <= |groups|
    decreases upto
  {
    if from == upto then 0 else HostUse(list, plans, groups, from, upto - 1) + HostAdd(list, plans, groups[upto - 1])
  }

  /** Decoded bytes of chunks [from, upto). */
  ghost function DevUse(plans: seq<ChunkPlan>, from: nat, upto: nat): nat {
    if from <= upto <= |plans| then Sum(plans[from..upto]) else 0
  }

  lemma DevUseAppend(plans: seq<ChunkPlan>, a: nat, b: nat, c: nat)
    requires a <= b <= c <= |plans|
    ensures DevUse(plans, a, c) == DevUse(plans, a, b) + DevUse(plans, b, c)
  {
    assert plans[a..c] == plans[a..b] + plans[b..c];
    SumAppend(plans[a..b], plans[b..c]);
  }

  lemma DevUseOne(plans: seq<ChunkPlan>, a: nat)
    requires a < |plans|
    ensures DevUse(plans, a, a + 1) == plans[a].decoded
  {
    var one := plans[a..a + 1];
    assert one[..0] == [];
    assert Sum(one) == Sum([]) + plans[a].decoded;
  }

  /** Groups [from, upto) fit one wave. */
  ghost predicate Fits(list: seq<ReadOp>, plans: seq<ChunkPlan>, groups: seq<Group>, from: nat, upto: nat,
                       limits: WaveLimits)
    requires from <= upto <= |groups|
  {
    var a, b := ChunkStart(groups, from, |plans|), ChunkStart(groups, upto, |plans|);
    && HostUse(list, plans, groups, from, upto) <= limits.inputCap
    && b - a <= limits.maxChunks
    && DevUse(plans, a, b) <= limits.devCap
  }

  /** Which cap the next group breaks: the first of input bytes, chunks and decoded bytes. */
  ghost predicate StopsAt(list: seq<ReadOp>, plans: seq<ChunkPlan>, groups: seq<Group>, from: nat, upto: nat,
                          limits: WaveLimits, stop: StopReason)
    requires from <= upto <= |groups|
  {
    if upto == |groups| then stop == Drained
    else
      var a, b := ChunkStart(groups, from, |plans|), ChunkStart(groups, upto + 1, |plans|);
      if HostUse(list, plans, groups, from, upto + 1) > limits.inputCap then stop == Host
      else if b - a > limits.maxChunks then stop == Chunks
      else DevUse(plans, a, b) > limits.devCap && stop == Dev
  }

  // --- Buffer offsets ----------------------------------------------------------------------------------

  ghost predicate InGroup(groups: seq<Group>, n: nat, k: nat, i: nat) {
    k < |groups| && groups[k].first <= i < ChunkStart(groups, k + 1, n)
  }

  /** Chunk i of group k, in a wave that starts with group `from`, has its buffers. */
  ghost predicate Assigned(list: seq<ReadOp>, plans: seq<ChunkPlan>, groups: seq<Group>, from: nat, k: nat, i: nat,
                           hostOffset: seq<nat>, devOffset: seq<nat>)
    requires from <= k <= |groups| && i < |hostOffset| && i < |devOffset| && i < |plans|
  {
    && hostOffset[i] == (if plans[i].fill then 0 else HostUse(list, plans, groups, from, k))
    && devOffset[i] == DevUse(plans, ChunkStart(groups, from, |plans|), i)
  }

  ghost predicate AllAssigned(list: seq<ReadOp>, plans: seq<ChunkPlan>, groups: seq<Group>, from: nat, upto: nat,
                              hostOffset: seq<nat>, devOffset: seq<nat>)
    requires from <= upto <= |groups|
  {
    && |hostOffset| == |devOffset| == |plans|
    && forall k: nat, i: nat | from <= k < upto && i < |plans| && InGroup(groups, |plans|, k, i) ::
         Assigned(list, plans, groups, from, k, i, hostOffset, devOffset)
  }

  /** The reads issued for groups [from, upto): one per stored group, packed back to back. */
  ghost function ReadsFor(list: seq<ReadOp>, plans: seq<ChunkPlan>, groups: seq<Group>, from: nat,
                          upto: nat): seq<StoreRead>
    requires from <= upto <= |groups|
    decreases upto
  {
    if from == upto then []
    else
      var g := groups[upto - 1];
      ReadsFor(list, plans, groups, from, upto - 1)
      + (if g.first < |plans| && g.read < |list| && !plans[g.first].fill
         then [StoreRead(list[g.read].path, HostUse(list, plans, groups, from, upto - 1), list[g.read].offset,
                         list[g.read].nbytes)]
         else [])
  }

  /** What a job's tables satisfy once a batch is committed. */
  ghost predicate TablesOk(list: seq<ReadOp>, plans: seq<ChunkPlan>, groups: seq<Group>) {
    && GroupsTile(groups, |plans|)
    && forall k | 0 <= k < |groups| ::
         && groups[k].read < |list| && UniformGroup(plans, groups[k])
         && groups[k].decoded == Sum(plans[groups[k].first..groups[k].first + groups[k].count])
  }

  ghost predicate Follows(waves: seq<Wave>, w: nat)
    requires 0 < w < |waves|
  {
    waves[w].chunkOffset == waves[w - 1].chunkOffset + waves[w - 1].nChunks
  }

  /** The waves reserved so far, in order, cover the dispatched chunks. */
  ghost predicate WavesTile(waves: seq<Wave>, groups: seq<Group>, n: nat, chunks: nat, groupCount: nat) {
    && (waves == [] ==> chunks == 0 && groupCount == 0)
    && (forall w | 0 <= w < |waves| ::
          && waves[w].nChunks > 0 && waves[w].prevGroups <= |groups|
          && waves[w].chunkOffset == ChunkStart(groups, waves[w].prevGroups, n))
    && (forall w | 0 < w < |waves| :: Follows(waves, w))
    && (waves != [] ==>
          && waves[0].chunkOffset == 0 && waves[0].prevGroups == 0
          && chunks == waves[|waves| - 1].chunkOffset + waves[|waves| - 1].nChunks)
  }

  // --- The packing loop ----------------------------------------------------------------------------------

  lemma {:induction false} StartsRise(groups: seq<Group>, n: nat, from: nat, upto: nat)
    requires GroupsTile(groups, n) && from <= upto <= |groups|
    ensures ChunkStart(groups, from, n) <= ChunkStart(groups, upto, n) <= n
    ensures from < upto ==> ChunkStart(groups, from, n) < ChunkStart(groups, upto, n)
    decreases upto - from
  {
    if from < |groups| { assert TileAt(groups, from, n); }
    if from < upto {
      assert TileAt(groups, upto - 1, n);
      StartsRise(groups, n, from, upto - 1);
    }
  }

  lemma {:induction false} HostUseRises(list: seq<ReadOp>, plans: seq<ChunkPlan>, groups: seq<Group>, from: nat,
                                        mid: nat, upto: nat)
    requires from <= mid <= upto <= |groups|
    ensures HostUse(list, plans, groups, from, mid) <= HostUse(list, plans, groups, from, upto)
    decreases upto - mid
  {
    if mid < upto { HostUseRises(list, plans, groups, from, mid, upto - 1); }
  }

  /** A wave that fits still fits when it ends earlier. */
  lemma FewerFit(list: seq<ReadOp>, plans: seq<ChunkPlan>, groups: seq<Group>, from: nat, mid: nat, upto: nat,
                 limits: WaveLimits)
    requires GroupsTile(groups, |plans|) && from <= mid <= upto <= |groups|
               && Fits(list, plans, groups, from, upto, limits)
    ensures Fits(list, plans, groups, from, mid, limits)
  {
    var n := |plans|;
    StartsRise(groups, n, from, mid);
    StartsRise(groups, n, mid, upto);
    HostUseRises(list, plans, groups, from, mid, upto);
    DevUseAppend(plans, ChunkStart(groups, from, n), ChunkStart(groups, mid, n), ChunkStart(groups, upto, n));
  }

  ghost predicate PackInv(list: seq<ReadOp>, plans: seq<ChunkPlan>, groups: seq<Group>, from: nat, upto: nat,
                          limits: WaveLimits,
                          host: nat, dev: nat, take: nat, out: seq<StoreRead>, hostOffset: seq<nat>,
                            devOffset: seq<nat>)
  {
    && from <= upto <= |groups| && TablesOk(list, plans, groups)
    && host == HostUse(list, plans, groups, from, upto) && out == ReadsFor(list, plans, groups, from, upto)
    && take == ChunkStart(groups, upto, |plans|) - ChunkStart(groups, from, |plans|)
    && dev == DevUse(plans, ChunkStart(groups, from, |plans|), ChunkStart(groups, upto, |plans|))
    && Fits(list, plans, groups, from, upto, limits)
    && AllAssigned(list, plans, groups, from, upto, hostOffset, devOffset)
  }

  /** The next group, in the terms of the packing loop. */
  lemma GroupFacts(list: seq<ReadOp>, plans: seq<ChunkPlan>, groups: seq<Group>, from: nat, upto: nat)
    requires TablesOk(list, plans, groups) && from <= upto < |groups|
    ensures var g, n := groups[upto], |plans|;
            && g.read < |list| && g.count > 0 && g.first + g.count <= n && g.first == ChunkStart(groups, upto, n)
            && ChunkStart(groups, from, n) <= ChunkStart(groups, upto, n)
            && ChunkStart(groups, upto + 1, n) == g.first + g.count
            && HostUse(list, plans, groups, from, upto + 1)
                 == HostUse(list, plans, groups, from, upto) + HostAdd(list, plans, g)
            && DevUse(plans, ChunkStart(groups, from, n), ChunkStart(groups, upto + 1, n)) ==
               DevUse(plans, ChunkStart(groups, from, n), ChunkStart(groups, upto, n)) + g.decoded
            && (forall i | g.first <= i < g.first + g.count :: plans[i].fill == plans[g.first].fill)
  {
    hide Sum;
    var g, n := groups[upto], |plans|;
    assert UniformGroup(plans, g) && TileAt(groups, upto, n);
    StartsRise(groups, n, from, upto);
    DevUseAppend(plans, ChunkStart(groups, from, n), g.first, g.first + g.count);
  }

  /** Only positions in [a, b) may differ. */
  ghost predicate KeptOutside(s: seq<nat>, t: seq<nat>, a: nat, b: nat) {
    |t| == |s| && forall i | 0 <= i < |s| && !(a <= i < b) :: t[i] == s[i]
  }

  method AssignGroup(list: seq<ReadOp>, plans: seq<ChunkPlan>, groups: seq<Group>, ghost from: nat, upto: nat,
                     host: nat, dev: nat,
                     take: nat, hostOffset: seq<nat>, devOffset: seq<nat>)
    returns (dev': nat, take': nat, hostOffset': seq<nat>, devOffset': seq<nat>)
    requires TablesOk(list, plans, groups) && from <= upto < |groups|
    requires host == HostUse(list, plans, groups, from, upto)
    requires dev == DevUse(plans, ChunkStart(groups, from, |plans|), ChunkStart(groups, upto, |plans|))
    requires AllAssigned(list, plans, groups, from, upto, hostOffset, devOffset)
    ensures dev' == dev + groups[upto].decoded && take' == take + groups[upto].count
    ensures AllAssigned(list, plans, groups, from, upto + 1, hostOffset', devOffset')
    ensures ChunkStart(groups, upto, |plans|) <= ChunkStart(groups, upto + 1, |plans|) <= |plans|
    ensures KeptOutside(hostOffset, hostOffset', ChunkStart(groups, upto, |plans|),
                        ChunkStart(groups, upto + 1, |plans|))
    ensures KeptOutside(devOffset, devOffset', ChunkStart(groups, upto, |plans|), ChunkStart(groups, upto + 1, |plans|))
  {
    hide Sum, HostUse, DevUse;
    GroupFacts(list, plans, groups, from, upto);
    ghost var a := ChunkStart(groups, from, |plans|);
    var g := groups[upto];
    var fill := plans[g.first].fill;
    dev', take', hostOffset', devOffset' := dev, take, hostOffset, devOffset;
    for i := 0 to g.count
      invariant |hostOffset'| == |devOffset'| == |plans| && take' == take + i
      invariant dev' == DevUse(plans, a, g.first + i)
      invariant forall j | 0 <= j < |plans| && !(g.first <= j < g.first + i) ::
                  hostOffset'[j] == hostOffset[j] && devOffset'[j] == devOffset[j]
      invariant forall j | g.first <= j < g.first + i ::
                  hostOffset'[j] == (if plans[j].fill then 0 else host) && devOffset'[j] == DevUse(plans, a, j)
    {
      var c := g.first + i;
      DevUseAppend(plans, a, c, c + 1);
      DevUseOne(plans, c);
      hostOffset' := hostOffset'[c := if fill then 0 else host];
      devOffset' := devOffset'[c := dev'];
      dev' := dev' + plans[c].decoded;
      take' := take' + 1;
    }
    DevUseAppend(plans, a, g.first, g.first + g.count);
    MoreAssigned(list, plans, groups, from, upto, hostOffset, devOffset, hostOffset', devOffset');
  }

  lemma MoreAssigned(list: seq<ReadOp>, plans: seq<ChunkPlan>, groups: seq<Group>, from: nat, upto: nat,
                     hostOffset: seq<nat>, devOffset: seq<nat>, hostOffset': seq<nat>, devOffset': seq<nat>)
    requires TablesOk(list, plans, groups) && from <= upto < |groups|
    requires AllAssigned(list, plans, groups, from, upto, hostOffset, devOffset)
    requires |hostOffset'| == |devOffset'| == |plans|
    requires forall j | 0 <= j < |plans| && !InGroup(groups, |plans|, upto, j) ::
               hostOffset'[j] == hostOffset[j] && devOffset'[j] == devOffset[j]
    requires forall j: nat | j < |plans| && InGroup(groups, |plans|, upto, j) ::
               Assigned(list, plans, groups, from, upto, j, hostOffset', devOffset')
    ensures AllAssigned(list, plans, groups, from, upto + 1, hostOffset', devOffset')
  {
    hide Sum, HostUse, DevUse;
    var end := upto + 1;
    forall k: nat, i: nat | from <= k < end && i < |plans| && InGroup(groups, |plans|, k, i)
      ensures Assigned(list, plans, groups, from, k, i, hostOffset', devOffset')
    {
      if k < upto {
        StartsRise(groups, |plans|, k + 1, upto);
        assert Assigned(list, plans, groups, from, k, i, hostOffset, devOffset);
      }
    }
  }

  method PackGroups(list: seq<ReadOp>, plans: seq<ChunkPlan>, groups: seq<Group>, from: nat, limits: WaveLimits,
                    hostOffset: seq<nat>, devOffset: seq<nat>)
    returns (upto: nat, out: seq<StoreRead>, host: nat, take: nat, stop: StopReason, hostOffset': seq<nat>,
             devOffset': seq<nat>)
    requires TablesOk(list, plans, groups) && from <= |groups| && |hostOffset| == |devOffset| == |plans|
    ensures from <= upto <= |groups| && take == ChunkStart(groups, upto, |plans|) - ChunkStart(groups, from, |plans|)
    ensures host == HostUse(list, plans, groups, from, upto) && out == ReadsFor(list, plans, groups, from, upto)
    ensures Fits(list, plans, groups, from, upto, limits) && StopsAt(list, plans, groups, from, upto, limits, stop)
    ensures AllAssigned(list, plans, groups, from, upto, hostOffset', devOffset')
    ensures KeptOutside(hostOffset, hostOffset', ChunkStart(groups, from, |plans|), ChunkStart(groups, upto, |plans|))
    ensures KeptOutside(devOffset, devOffset', ChunkStart(groups, from, |plans|), ChunkStart(groups, upto, |plans|))
  {
    hide Sum, AllAssigned, TablesOk;
    upto, out, host, take, hostOffset', devOffset' := from, [], 0, 0, hostOffset, devOffset;
    var dev: nat := 0;
    NothingPacked(list, plans, groups, from, limits, hostOffset, devOffset);
    while upto < |groups|
      invariant PackInv(list, plans, groups, from, upto, limits, host, dev, take, out, hostOffset', devOffset')
      invariant KeptOutside(hostOffset, hostOffset', ChunkStart(groups, from, |plans|),
                            ChunkStart(groups, upto, |plans|))
      invariant KeptOutside(devOffset, devOffset', ChunkStart(groups, from, |plans|), ChunkStart(groups, upto, |plans|))
    {
      GroupFacts(list, plans, groups, from, upto);
      var g := groups[upto];
      var fill := plans[g.first].fill;
      var add := if fill then 0 else list[g.read].nbytes;
      if host + add > limits.inputCap { return upto, out, host, take, Host, hostOffset', devOffset'; }
      if take + g.count > limits.maxChunks { return upto, out, host, take, Chunks, hostOffset', devOffset'; }
      if dev + g.decoded > limits.devCap { return upto, out, host, take, Dev, hostOffset', devOffset'; }
      ghost var host0 := host;
      if !fill {
        out := out + [StoreRead(list[g.read].path, host, list[g.read].offset, list[g.read].nbytes)];
      }
      dev, take, hostOffset', devOffset' :=
        AssignGroup(list, plans, groups, from, upto, host, dev, take, hostOffset', devOffset');
      host := host + add;
      upto := upto + 1;
    }
    stop := Drained;
  }

  lemma NothingPacked(list: seq<ReadOp>, plans: seq<ChunkPlan>, groups: seq<Group>, from: nat, limits: WaveLimits,
                      hostOffset: seq<nat>, devOffset: seq<nat>)
    requires TablesOk(list, plans, groups) && from <= |groups| && |hostOffset| == |devOffset| == |plans|
    ensures PackInv(list, plans, groups, from, from, limits, 0, 0, 0, [], hostOffset, devOffset)
  {
    var a := ChunkStart(groups, from, |plans|);
    StartsRise(groups, |plans|, from, from);
    assert plans[a..a] == [];
  }

  class RenderJob {
    var ready: bool
    var batchId: nat
    var list: seq<ReadOp>
    var plans: seq<ChunkPlan>
    var groups: seq<Group>
    var hostOffset: seq<nat>
    var devOffset: seq<nat>
    var chunksDispatched: nat
    var groupsDispatched: nat
    /** The waves reserved and not rolled back. */
    ghost var waves: seq<Wave>

    ghost predicate Valid()
      reads this
    {
      && TablesOk(list, plans, groups) && |hostOffset| == |devOffset| == |plans|
      && groupsDispatched <= |groups| && chunksDispatched == ChunkStart(groups, groupsDispatched, |plans|)
      && WavesTile(waves, groups, |plans|, chunksDispatched, groupsDispatched)
    }

    constructor ()
      ensures Valid() && !ready && waves == []
    {
      ready, batchId := false, 0;
      list, plans, groups, hostOffset, devOffset := [], [], [], [], [];
      chunksDispatched, groupsDispatched := 0, 0;
      waves := [];
    }

    method CommitPlan(batch: nat, list': seq<ReadOp>, plans': seq<ChunkPlan>, groups': seq<Group>)
      requires TablesOk(list', plans', groups')
      modifies this
      ensures Valid() && ready && batchId == batch && waves == []
      ensures list == list' && plans == plans' && groups == groups' && chunksDispatched == 0
    {
      hide TablesOk;
      Tiled(list', plans', groups');
      batchId, list, plans, groups := batch, list', plans', groups';
      hostOffset, devOffset := seq(|plans'|, _ => 0), seq(|plans'|, _ => 0);
      chunksDispatched, groupsDispatched := 0, 0;
      ready := true;
      waves := [];
    }

    /** Reserves the next wave: as many further groups as the three caps allow. A wave without chunks means that
        the job is not ready or that all its chunks are out. */
    method Reserve(limits: WaveLimits) returns (status: Status, wave: Wave)
      requires Valid()
      modifies this
      ensures Valid() && ready == old(ready) && batchId == old(batchId)
      ensures list == old(list) && plans == old(plans) && groups == old(groups)
      ensures status == OK && wave.nChunks == 0 <==> !ready || old(chunksDispatched) == |plans|
      ensures status != OK || wave.nChunks == 0 ==>
                unchanged(this) && wave == Wave(chunksDispatched, groupsDispatched, 0, [], 0, false, Drained)
      ensures ready && old(chunksDispatched) < |plans| ==>
                && old(groupsDispatched) < |groups|
                && (status == OK <==>
                    Fits(list, plans, groups, old(groupsDispatched), old(groupsDispatched) + 1, limits))
                && (status != OK ==> status == BUDGET)
      ensures ready && old(chunksDispatched) < |plans| && status == OK ==>
                && old(groupsDispatched) < groupsDispatched
                && wave.chunkOffset == old(chunksDispatched) && wave.prevGroups == old(groupsDispatched)
                && wave.nChunks == chunksDispatched - old(chunksDispatched) > 0
                && Fits(list, plans, groups, wave.prevGroups, groupsDispatched, limits)
                && StopsAt(list, plans, groups, wave.prevGroups, groupsDispatched, limits, wave.stop)
                && AllAssigned(list, plans, groups, wave.prevGroups, groupsDispatched, hostOffset, devOffset)
                && wave.list == ReadsFor(list, plans, groups, wave.prevGroups, groupsDispatched)
                && wave.inputUsed == HostUse(list, plans, groups, wave.prevGroups, groupsDispatched)
                && (wave.fillWave <==> wave.list == [])
                && waves == old(waves) + [wave]
                && KeptOutside(old(hostOffset), hostOffset, old(chunksDispatched), chunksDispatched)
                && KeptOutside(old(devOffset), devOffset, old(chunksDispatched), chunksDispatched)
    {
      hide Sum, TablesOk, HostUse, DevUse, ReadsFor, AllAssigned, WavesTile;
      wave := Wave(chunksDispatched, groupsDispatched, 0, [], 0, false, Drained);
      if !ready || chunksDispatched >= |plans| {
        Tiled(list, plans, groups);
        NoneBeyond(groups, |plans|, groupsDispatched);
        return OK, wave;
      }
      ghost var from := groupsDispatched;
      var upto, out, host, take, stop;
      upto, out, host, take, stop, hostOffset, devOffset :=
        PackGroups(list, plans, groups, groupsDispatched, limits, hostOffset, devOffset);
      Tiled(list, plans, groups);
      StartsRise(groups, |plans|, from, upto);
      assert |hostOffset| == |devOffset| == |plans| by {
        Lengths(list, plans, groups, from, upto, hostOffset, devOffset);
      }
      if take == 0 {
        assert hostOffset == old(hostOffset) && devOffset == old(devOffset);
        return BUDGET, wave;
      }
      FewerFit(list, plans, groups, from, from + 1, upto, limits);
      wave := Wave(chunksDispatched, groupsDispatched, take, out, host, |out| == 0, stop);
      WaveAdded(waves, groups, |plans|, chunksDispatched, groupsDispatched, wave, upto);
      chunksDispatched := chunksDispatched + take;
      groupsDispatched := upto;
      waves := waves + [wave];
      return OK, wave;
    }

    /** Undoes the most recent reservation. */
    method Rollback(wave: Wave)
      requires Valid() && waves != [] && wave == waves[|waves| - 1]
      modifies this`chunksDispatched, this`groupsDispatched, this`waves
      ensures Valid() && waves == old(waves[..|waves| - 1])
      ensures chunksDispatched == wave.chunkOffset && groupsDispatched == wave.prevGroups
    {
      hide TablesOk, WavesTile;
      WaveRemoved(waves, groups, |plans|, chunksDispatched, groupsDispatched);
      chunksDispatched := chunksDispatched - wave.nChunks;
      groupsDispatched := wave.prevGroups;
      waves := waves[..|waves| - 1];
    }
  }

  lemma NoneBeyond(groups: seq<Group>, n: nat, k: nat)
    requires GroupsTile(groups, n) && k <= |groups|
    ensures ChunkStart(groups, k, n) <= n
  {
    StartsRise(groups, n, k, |groups|);
  }

  lemma WaveAdded(waves: seq<Wave>, groups: seq<Group>, n: nat, chunks: nat, groupCount: nat, wave: Wave, upto: nat)
    requires WavesTile(waves, groups, n, chunks, groupCount) && groupCount <= |groups|
    requires wave.chunkOffset == chunks == ChunkStart(groups, groupCount, n) && wave.prevGroups == groupCount
               && wave.nChunks > 0
    ensures WavesTile(waves + [wave], groups, n, chunks + wave.nChunks, upto)
  {
    var after := waves + [wave];
    forall w | 0 < w < |after| ensures Follows(after, w) {
      if w < |waves| { assert Follows(waves, w); }
    }
  }

  lemma WaveRemoved(waves: seq<Wave>, groups: seq<Group>, n: nat, chunks: nat, groupCount: nat)
    requires WavesTile(waves, groups, n, chunks, groupCount) && waves != []
    ensures var wave := waves[|waves| - 1];
            && chunks == wave.chunkOffset + wave.nChunks && wave.prevGroups <= |groups|
            && wave.chunkOffset == ChunkStart(groups, wave.prevGroups, n)
            && WavesTile(waves[..|waves| - 1], groups, n, wave.chunkOffset, wave.prevGroups)
  {
    var last := |waves| - 1;
    var before := waves[..last];
    forall w | 0 < w < last ensures Follows(before, w) { assert Follows(waves, w); }
    if last > 0 { assert Follows(waves, last); }
  }

  lemma Tiled(list: seq<ReadOp>, plans: seq<ChunkPlan>, groups: seq<Group>)
    requires TablesOk(list, plans, groups)
    ensures GroupsTile(groups, |plans|)
  {
  }

  lemma Lengths(list: seq<ReadOp>, plans: seq<ChunkPlan>, groups: seq<Group>, from: nat, upto: nat,
                hostOffset: seq<nat>, devOffset: seq<nat>)
    requires from <= upto <= |groups| && AllAssigned(list, plans, groups, from, upto, hostOffset, devOffset)
    ensures |hostOffset| == |devOffset| == |plans|
  {
  }

  // --- What holds in every run -----------------------------------------------------------------------------

  ghost predicate InWave(w: Wave, i: nat) {
    w.chunkOffset <= i < w.chunkOffset + w.nChunks
  }

  lemma {:induction false} WavesRise(waves: seq<Wave>, a: nat, b: nat)
    requires a < b < |waves|
    requires forall w | 0 < w < |waves| :: Follows(waves, w)
    ensures waves[a].chunkOffset + waves[a].nChunks <= waves[b].chunkOffset
    decreases b
  {
    assert Follows(waves, b);
    if a < b - 1 { WavesRise(waves, a, b - 1); }
  }

  lemma {:induction false} FindWave(waves: seq<Wave>, i: nat, k: nat) returns (w: nat)
    requires k < |waves| && waves[0].chunkOffset == 0 && i < waves[k].chunkOffset + waves[k].nChunks
    requires forall w | 0 < w < |waves| :: Follows(waves, w)
    ensures w <= k && InWave(waves[w], i)
    decreases k
  {
    if waves[k].chunkOffset <= i {
      w := k;
    } else {
      assert Follows(waves, k);
      w := FindWave(waves, i, k - 1);
    }
  }

  /** After any reservations and rollbacks, every dispatched chunk is in exactly one wave. */
  lemma ChunkInOneWave(waves: seq<Wave>, groups: seq<Group>, n: nat, chunks: nat, groupCount: nat, i: nat)
    returns (w: nat)
    requires WavesTile(waves, groups, n, chunks, groupCount) && i < chunks
    ensures w < |waves| && forall v | 0 <= v < |waves| :: InWave(waves[v], i) <==> v == w
  {
    w := FindWave(waves, i, |waves| - 1);
    forall v | 0 <= v < |waves| ensures InWave(waves[v], i) <==> v == w {
      if v < w { WavesRise(waves, v, w); }
      if w < v { WavesRise(waves, w, v); }
    }
  }

  lemma {:induction false} DevUseBelow(plans: seq<ChunkPlan>, a: nat, i: nat, j: nat)
    requires a <= i < j <= |plans|
    ensures DevUse(plans, a, i) + plans[i].decoded <= DevUse(plans, a, j)
  {
    DevUseAppend(plans, a, i, i + 1);
    DevUseOne(plans, i);
    DevUseAppend(plans, a, i + 1, j);
  }

  lemma ReadBelow(list: seq<ReadOp>, plans: seq<ChunkPlan>, groups: seq<Group>, from: nat, k: nat, upto: nat)
    requires from <= k < upto <= |groups|
    ensures HostUse(list, plans, groups, from, k) + HostAdd(list, plans, groups[k])
              <= HostUse(list, plans, groups, from, upto)
  {
    HostUseRises(list, plans, groups, from, k + 1, upto);
  }

  /** Two chunks i < j, of groups k <= l, in a wave of groups [from, upto). */
  ghost predicate InSameWave(plans: seq<ChunkPlan>, groups: seq<Group>, from: nat, upto: nat, k: nat, i: nat, l: nat,
                             j: nat)
  {
    && from <= k <= l < upto <= |groups| && i < j < |plans|
    && InGroup(groups, |plans|, k, i) && InGroup(groups, |plans|, l, j)
  }

  /** Decoded regions of different chunks of a wave do not overlap and stay inside the cap. */
  lemma DecodedDisjoint(list: seq<ReadOp>, plans: seq<ChunkPlan>, groups: seq<Group>, from: nat, upto: nat,
                        limits: WaveLimits, hostOffset: seq<nat>, devOffset: seq<nat>, k: nat, i: nat, l: nat, j: nat)
    requires TablesOk(list, plans, groups) && InSameWave(plans, groups, from, upto, k, i, l, j)
    requires AllAssigned(list, plans, groups, from, upto, hostOffset, devOffset)
               && Fits(list, plans, groups, from, upto, limits)
    ensures devOffset[i] + plans[i].decoded <= devOffset[j] && devOffset[j] + plans[j].decoded <= limits.devCap
  {
    hide Sum, HostUse, DevUse;
    var n := |plans|;
    assert Assigned(list, plans, groups, from, k, i, hostOffset, devOffset);
    assert Assigned(list, plans, groups, from, l, j, hostOffset, devOffset);
    var a, b := ChunkStart(groups, from, n), ChunkStart(groups, upto, n);
    StartsRise(groups, n, from, k);
    StartsRise(groups, n, l + 1, upto);
    DevUseBelow(plans, a, i, j);
    DevUseBelow(plans, a, j, b);
  }

  /** Input regions of different reads of a wave do not overlap, stay inside the cap, and
      hold their chunks' bytes. */
  lemma InputsDisjoint(items: seq<Item>, list: seq<ReadOp>, plans: seq<ChunkPlan>, groups: seq<Group>, from: nat,
                       upto: nat,
                       limits: WaveLimits, hostOffset: seq<nat>, devOffset: seq<nat>, k: nat, i: nat, l: nat, j: nat)
    requires TablesOk(list, plans, groups) && Dispatched(items, list, plans)
    requires InSameWave(plans, groups, from, upto, k, i, l, j) && !plans[i].fill && !plans[j].fill
    requires AllAssigned(list, plans, groups, from, upto, hostOffset, devOffset)
               && Fits(list, plans, groups, from, upto, limits)
    ensures plans[i].read < |list|
    ensures hostOffset[i] + plans[i].offset + plans[i].nbytes <= hostOffset[i] + list[plans[i].read].nbytes
              <= limits.inputCap
    ensures k < l ==> hostOffset[i] + list[plans[i].read].nbytes <= hostOffset[j]
    ensures k == l ==> hostOffset[i] == hostOffset[j] && plans[i].read == plans[j].read
  {
    hide Sum, HostUse, DevUse;
    assert Assigned(list, plans, groups, from, k, i, hostOffset, devOffset);
    assert Assigned(list, plans, groups, from, l, j, hostOffset, devOffset);
    GroupReads(list, plans, groups, k, i);
    GroupReads(list, plans, groups, l, j);
    assert Denotes(items[plans[i].use], list, plans[i]);
    ReadBelow(list, plans, groups, from, k, upto);
    if k < l { ReadBelow(list, plans, groups, from, k, l); }
  }

  // --- What the reads of a wave bring -----------------------------------------------------------------------

  /** The read brings the item's bytes to where its chunk expects them. */
  ghost predicate ReadServes(item: Item, c: ChunkPlan, hostOffset: nat, r: StoreRead) {
    && r.path == item.path && r.dst == hostOffset
    && r.offset + c.offset == item.offset && c.offset + item.nbytes <= r.len
  }

  ghost predicate StoredGroup(list: seq<ReadOp>, plans: seq<ChunkPlan>, g: Group) {
    g.first < |plans| && g.read < |list| && !plans[g.first].fill
  }

  /** Group k's read is in the wave's list. */
  lemma {:induction false} ReadOfGroup(list: seq<ReadOp>, plans: seq<ChunkPlan>, groups: seq<Group>, from: nat,
                                       upto: nat, k: nat)
    returns (r: nat)
    requires from <= k < upto <= |groups| && StoredGroup(list, plans, groups[k])
    ensures r < |ReadsFor(list, plans, groups, from, upto)|
    ensures var op := list[groups[k].read];
            ReadsFor(list, plans, groups, from, upto)[r] ==
            StoreRead(op.path, HostUse(list, plans, groups, from, k), op.offset, op.nbytes)
    decreases upto
  {
    hide HostUse;
    if k == upto - 1 {
      r := |ReadsFor(list, plans, groups, from, k)|;
    } else {
      r := ReadOfGroup(list, plans, groups, from, upto - 1, k);
    }
  }

  /** Every read of the wave is some stored group's. */
  lemma {:induction false} GroupOfRead(list: seq<ReadOp>, plans: seq<ChunkPlan>, groups: seq<Group>, from: nat,
                                       upto: nat, r: nat)
    returns (k: nat)
    requires from <= upto <= |groups| && r < |ReadsFor(list, plans, groups, from, upto)|
    ensures from <= k < upto && StoredGroup(list, plans, groups[k])
    ensures var op := list[groups[k].read];
            ReadsFor(list, plans, groups, from, upto)[r] ==
            StoreRead(op.path, HostUse(list, plans, groups, from, k), op.offset, op.nbytes)
    decreases upto
  {
    hide HostUse;
    if r < |ReadsFor(list, plans, groups, from, upto - 1)| {
      k := GroupOfRead(list, plans, groups, from, upto - 1, r);
    } else {
      k := upto - 1;
    }
  }

  /** The group of a chunk of the wave. */
  lemma {:induction false} GroupOfChunk(groups: seq<Group>, n: nat, from: nat, upto: nat, i: nat) returns (k: nat)
    requires GroupsTile(groups, n) && from <= upto <= |groups|
    requires ChunkStart(groups, from, n) <= i < ChunkStart(groups, upto, n)
    ensures from <= k < upto && InGroup(groups, n, k, i)
    decreases upto
  {
    assert from < upto;
    if groups[upto - 1].first <= i {
      k := upto - 1;
    } else {
      k := GroupOfChunk(groups, n, from, upto - 1, i);
    }
  }

  /** Every stored chunk of a reserved wave has a read that brings its file bytes to its place. */
  lemma WaveReadsServe(items: seq<Item>, list: seq<ReadOp>, plans: seq<ChunkPlan>, groups: seq<Group>, from: nat,
                       upto: nat,
                       hostOffset: seq<nat>, devOffset: seq<nat>, i: nat)
    returns (r: nat)
    requires TablesOk(list, plans, groups) && Dispatched(items, list, plans) && from <= upto <= |groups|
    requires AllAssigned(list, plans, groups, from, upto, hostOffset, devOffset)
    requires ChunkStart(groups, from, |plans|) <= i < ChunkStart(groups, upto, |plans|) && i < |plans| && !plans[i].fill
    ensures plans[i].use < |items| && r < |ReadsFor(list, plans, groups, from, upto)|
    ensures ReadServes(items[plans[i].use], plans[i], hostOffset[i], ReadsFor(list, plans, groups, from, upto)[r])
  {
    hide Sum, HostUse, DevUse, ReadsFor;
    var k := GroupOfChunk(groups, |plans|, from, upto, i);
    GroupReads(list, plans, groups, k, i);
    r := ReadOfGroup(list, plans, groups, from, upto, k);
    assert Assigned(list, plans, groups, from, k, i, hostOffset, devOffset);
    assert Denotes(items[plans[i].use], list, plans[i]);
  }

  /** Every read of a reserved wave brings the bytes of some chunk of it. */
  lemma WaveReadsNeeded(items: seq<Item>, list: seq<ReadOp>, plans: seq<ChunkPlan>, groups: seq<Group>, from: nat,
                        upto: nat,
                        hostOffset: seq<nat>, devOffset: seq<nat>, r: nat)
    returns (i: nat)
    requires TablesOk(list, plans, groups) && Dispatched(items, list, plans) && from <= upto <= |groups|
    requires AllAssigned(list, plans, groups, from, upto, hostOffset, devOffset)
    requires r < |ReadsFor(list, plans, groups, from, upto)|
    ensures ChunkStart(groups, from, |plans|) <= i < ChunkStart(groups, upto, |plans|) && i < |plans|
    ensures !plans[i].fill && plans[i].use < |items|
    ensures ReadServes(items[plans[i].use], plans[i], hostOffset[i], ReadsFor(list, plans, groups, from, upto)[r])
  {
    hide Sum, HostUse, DevUse, ReadsFor;
    var k := GroupOfRead(list, plans, groups, from, upto, r);
    i := groups[k].first;
    assert TileAt(groups, k, |plans|);
    StartsRise(groups, |plans|, from, k);
    StartsRise(groups, |plans|, k + 1, upto);
    GroupReads(list, plans, groups, k, i);
    assert Assigned(list, plans, groups, from, k, i, hostOffset, devOffset);
    assert Denotes(items[plans[i].use], list, plans[i]);
  }

  /** The reads of a wave fill its input buffer back to back. */
  lemma {:induction false} WaveReadsApart(list: seq<ReadOp>, plans: seq<ChunkPlan>, groups: seq<Group>, from: nat,
                                          upto: nat, a: nat, b: nat)
    requires from <= upto <= |groups| && a < |ReadsFor(list, plans, groups, from, upto)|
    ensures var reads' := ReadsFor(list, plans, groups, from, upto);
            && reads'[a].dst + reads'[a].len <= HostUse(list, plans, groups, from, upto)
            && (a < b < |reads'| ==> reads'[a].dst + reads'[a].len <= reads'[b].dst)
    decreases upto
  {
    var before := ReadsFor(list, plans, groups, from, upto - 1);
    if a < |before| { WaveReadsApart(list, plans, groups, from, upto - 1, a, b); }
  }

  lemma GroupReads(list: seq<ReadOp>, plans: seq<ChunkPlan>, groups: seq<Group>, k: nat, i: nat)
    requires TablesOk(list, plans, groups) && i < |plans| && InGroup(groups, |plans|, k, i)
    ensures plans[i].read == groups[k].read < |list|
    ensures !plans[i].fill ==> HostAdd(list, plans, groups[k]) == list[plans[i].read].nbytes
  {
    hide Sum;
    assert UniformGroup(plans, groups[k]) && TileAt(groups, k, |plans|);
  }

  /** The tables that dispatch builds are ones a job accepts. */
  lemma DispatchedTables(items: seq<Item>, list: seq<ReadOp>, s: seq<ChunkPlan>, groups: seq<Group>,
                         plans: seq<ChunkPlan>)
    requires GroupTable(s, |list|, groups, plans) && Dispatched(items, list, plans)
    requires forall k | 0 <= k < |groups| :: UniformGroup(plans, groups[k])
    ensures TablesOk(list, plans, groups)
  {
    hide First, OfRead, Grouped, Sum;
    GroupTableTiles(s, |list|, groups, plans);
    forall k | 0 <= k < |groups|
      ensures groups[k].read < |list|
      ensures groups[k].first + groups[k].count <= |plans|
              && groups[k].decoded == Sum(plans[groups[k].first..groups[k].first + groups[k].count])
    {
      assert GroupSpan(s, groups[k], plans) && GroupOk(s, |list|, groups[k]);
    }
  }

  /** Builds the dispatch plan of a batch and commits it to a job, whose waves then bring exactly its bytes. */
  method PlanJob(job: RenderJob, batch: nat, items: seq<Item>, alignment: nat, maxBytes: nat, maxChunks: nat,
                 capacity: nat)
    returns (status: Status)
    requires job.Valid() && (forall i | 0 <= i < |items| :: ItemOk(items[i])) && |items| <= U32_MAX
    modifies job
    ensures job.Valid()
    ensures status == OK <==>
              && alignment > 0 && maxChunks > 0 && |items| <= capacity
              && forall i | 0 <= i < |items| :: items[i].missing || WindowFits(items[i], alignment)
    ensures status != OK ==> unchanged(job)
    ensures status == OK ==>
              && job.ready && job.batchId == batch && job.waves == [] && job.chunksDispatched == 0
              && Dispatched(items, job.list, job.plans)
              && (items != [] ==> exists m :: MergedFrom(items, alignment, maxBytes, maxChunks, job.list, m))
              && forall k | 0 <= k < |job.groups| :: job.groups[k].count <= maxChunks
  {
    hide TablesOk, GroupTable, UniformGroup, Dispatched, WindowFits, ItemOk, MergedFrom;
    var list, plans, groups;
    ghost var before, merge;
    status, list, plans, groups, before, merge := DispatchPlanBuild(items, alignment, maxBytes, maxChunks, capacity);
    if status != OK { return; }
    if items == [] {
      EmptyTables(items, list, plans, groups);
    } else {
      DispatchedTables(items, list, before, groups, plans);
    }
    job.CommitPlan(batch, list, plans, groups);
  }

  lemma EmptyTables(items: seq<Item>, list: seq<ReadOp>, plans: seq<ChunkPlan>, groups: seq<Group>)
    requires items == [] && Dispatched(items, list, plans) && groups == []
    ensures TablesOk(list, plans, groups)
  {
  }

  /** A group from dispatch is never too many chunks for an empty wave, so a wave fails to
      start only for lack of bytes. */
  lemma NeverTooManyChunks(list: seq<ReadOp>, plans: seq<ChunkPlan>, groups: seq<Group>, from: nat, limits: WaveLimits)
    requires TablesOk(list, plans, groups) && from < |groups| && groups[from].count <= limits.maxChunks
    ensures Fits(list, plans, groups, from, from + 1, limits) <==>
            HostAdd(list, plans, groups[from]) <= limits.inputCap && groups[from].decoded <= limits.devCap
  {
    hide Sum;
    GroupFacts(list, plans, groups, from, from);
    var a := ChunkStart(groups, from, |plans|);
    DevUseAppend(plans, a, a, a);
  }

  // --- find_render_job_with_work ------------------------------------------------------------------------------

  /** The job with work and the lowest batch id, if any. */
  method FindJobWithWork(jobs: seq<RenderJob>) returns (best: int)
    requires forall i | 0 <= i < |jobs| :: jobs[i].batchId < U64_MAX
    ensures -1 <= best < |jobs|
    ensures best == -1 <==> forall i | 0 <= i < |jobs| :: !(jobs[i].ready && jobs[i].chunksDispatched < |jobs[i].plans|)
    ensures best >= 0 ==>
              && jobs[best].ready && jobs[best].chunksDispatched < |jobs[best].plans|
              && forall i | 0 <= i < |jobs| && jobs[i].ready && jobs[i].chunksDispatched < |jobs[i].plans| ::
                   jobs[best].batchId < jobs[i].batchId || (jobs[best].batchId == jobs[i].batchId && best <= i)
  {
    best := -1;
    var bestId := U64_MAX;
    for i := 0 to |jobs|
      invariant -1 <= best < i
      invariant best == -1 ==>
                  && bestId == U64_MAX
                  && forall k | 0 <= k < i :: !(jobs[k].ready && jobs[k].chunksDispatched < |jobs[k].plans|)
      invariant best >= 0 ==>
                  && jobs[best].ready && jobs[best].chunksDispatched < |jobs[best].plans|
                  && bestId == jobs[best].batchId
                  && forall k | 0 <= k < i && jobs[k].ready && jobs[k].chunksDispatched < |jobs[k].plans| ::
                       bestId < jobs[k].batchId || (bestId == jobs[k].batchId && best <= k)
    {
      if jobs[i].ready && jobs[i].chunksDispatched < |jobs[i].plans| && jobs[i].batchId < bestId {
        best, bestId := i, jobs[i].batchId;
      }
    }
  }

  // --- All waves of a job ---------------------------------------------------------------------------------------

  ghost predicate FitsAlone(list: seq<ReadOp>, plans: seq<ChunkPlan>, groups: seq<Group>, k: nat, limits: WaveLimits)
    requires k < |groups|
  {
    Fits(list, plans, groups, k, k + 1, limits)
  }

  /** Reserving until nothing is left: the waves then hold every chunk of the job once, and this works out exactly
      if each of the remaining groups fits a wave of its own. */
  method ReserveAll(job: RenderJob, limits: WaveLimits) returns (status: Status)
    requires job.Valid() && job.ready
    modifies job
    ensures job.Valid() && job.list == old(job.list) && job.plans == old(job.plans) && job.groups == old(job.groups)
    ensures status == OK <==>
              forall k: nat | old(job.groupsDispatched) <= k < |job.groups| ::
                FitsAlone(job.list, job.plans, job.groups, k, limits)
    ensures status == OK ==> job.chunksDispatched == |job.plans|
    ensures status != OK ==> status == BUDGET && job.chunksDispatched < |job.plans|
    ensures old(job.waves) <= job.waves
  {
    hide TablesOk, Fits, WavesTile, AllAssigned, StopsAt;
    ghost var first := job.groupsDispatched;
    while job.chunksDispatched < |job.plans|
      invariant job.Valid() && job.ready && first <= job.groupsDispatched <= |job.groups|
      invariant job.list == old(job.list) && job.plans == old(job.plans) && job.groups == old(job.groups)
      invariant old(job.waves) <= job.waves
      invariant forall k: nat | first <= k < job.groupsDispatched ::
                  FitsAlone(job.list, job.plans, job.groups, k, limits)
      decreases |job.plans| - job.chunksDispatched
    {
      ghost var from := job.groupsDispatched;
      var wave;
      status, wave := job.Reserve(limits);
      if status != OK {
        assert !FitsAlone(job.list, job.plans, job.groups, from, limits);
        return;
      }
      EachFits(job.list, job.plans, job.groups, from, job.groupsDispatched, limits);
    }
    LastGroup(job.list, job.plans, job.groups, job.groupsDispatched);
    return OK;
  }

  /** Groups that fit a wave together fit one each. */
  lemma EachFits(list: seq<ReadOp>, plans: seq<ChunkPlan>, groups: seq<Group>, from: nat, upto: nat, limits: WaveLimits)
    requires TablesOk(list, plans, groups) && from <= upto <= |groups| && Fits(list, plans, groups, from, upto, limits)
    ensures forall k: nat | from <= k < upto :: FitsAlone(list, plans, groups, k, limits)
  {
    hide Sum;
    forall k: nat | from <= k < upto ensures FitsAlone(list, plans, groups, k, limits) {
      LaterFit(list, plans, groups, from, k, upto, limits);
      FewerFit(list, plans, groups, k, k + 1, upto, limits);
    }
  }

  /** A wave that fits still fits when it starts later. */
  lemma LaterFit(list: seq<ReadOp>, plans: seq<ChunkPlan>, groups: seq<Group>, from: nat, mid: nat, upto: nat,
                 limits: WaveLimits)
    requires GroupsTile(groups, |plans|) && from <= mid <= upto <= |groups|
               && Fits(list, plans, groups, from, upto, limits)
    ensures Fits(list, plans, groups, mid, upto, limits)
  {
    var n := |plans|;
    StartsRise(groups, n, from, mid);
    StartsRise(groups, n, mid, upto);
    HostUseLater(list, plans, groups, from, mid, upto);
    DevUseAppend(plans, ChunkStart(groups, from, n), ChunkStart(groups, mid, n), ChunkStart(groups, upto, n));
  }

  lemma {:induction false} HostUseLater(list: seq<ReadOp>, plans: seq<ChunkPlan>, groups: seq<Group>, from: nat,
                                        mid: nat, upto: nat)
    requires from <= mid <= upto <= |groups|
    ensures HostUse(list, plans, groups, mid, upto) <= HostUse(list, plans, groups, from, upto)
    decreases upto - mid
  {
    if mid < upto { HostUseLater(list, plans, groups, from, mid, upto - 1); }
  }

  lemma LastGroup(list: seq<ReadOp>, plans: seq<ChunkPlan>, groups: seq<Group>, k: nat)
    requires TablesOk(list, plans, groups) && k <= |groups| && ChunkStart(groups, k, |plans|) >= |plans|
    ensures k == |groups| && ChunkStart(groups, k, |plans|) == |plans|
  {
    StartsRise(groups, |plans|, k, |groups|);
  }
}
