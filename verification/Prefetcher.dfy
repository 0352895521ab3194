/** The metadata prefetcher and the batch planner on top of it, as one state machine: samples
    move from the lookahead queue through prefetch slots to the staging area of a batch.
    A step is one critical section of the pushing thread, the prefetch worker, a fetch
    completion or the planning thread. */
module Prefetchers {
  import opened Statuses
  import opened Seqs
  import opened PrefetchCaches

  /** `metaKey` and `shardKeys` stand for the queries: the array of a sample, and the shards its
      selection touches given the array's metadata (none if the query is invalid). */
  datatype Config = Config(lookahead: nat, batch: nat, maxShards: nat,
                           metaKey: nat -> Key, shardKeys: (nat, nat) -> Option<seq<Key>>)

  datatype Phase = Free | PendingMeta | PendingShards | Done | Errored(code: Status)

  /** A prefetch slot. `keys` are the shards of the sample once they are known, `shards` the
      handles obtained so far. */
  datatype Work = Work(phase: Phase, sample: nat, owner: Option<nat>, meta: Handle, keys: Option<seq<Key>>,
                       shards: seq<Handle>)

  datatype Owner = Owner(inUse: bool, id: nat, refs: nat)

  /** `batches` are the plans built so far, each named by its samples. `dropped` are the samples that
      were consumed and are in no plan: those that came with an error, among them the `swallowed` ones
      whose error is AGAIN, and the `wasted` many whose plan could not be built. `failure` is the first
      error that was returned as such. */
  datatype Planner = Planner(
    queue: seq<nat>, hand: Option<nat>, slots: seq<Work>,
    owners: seq<Owner>, gates: seq<Gate>, arrays: Cache, shards: Cache,
    nextConsume: nat, pushed: nat,
    staged: seq<Work>, planned: nat, watermark: nat, batches: seq<seq<nat>>,
    errored: nat, dropped: set<nat>, swallowed: set<nat>, wasted: nat, failure: Status)

  const FREE := Work(Free, 0, None, NO_HANDLE, None, [])

  predicate Occupied(w: Work) { !w.phase.Free? }

  predicate Terminal(w: Work) { w.phase.Done? || w.phase.Errored? }

  /** A missing error code means that something was invalid. */
  ghost function Coded(code: Status): Status { if code == OK then INVAL else code }

  // --- Conservation ------------------------------------------------------------------------------------

  function InHand(s: Planner): nat { if s.hand.Some? then 1 else 0 }

  /** Samples below this number have left the queue and the worker's hand. */
  function Admitted(s: Planner): int { s.pushed - |s.queue| - InHand(s) }

  ghost predicate InSlot(slots: seq<Work>, n: nat, i: nat) {
    i < |slots| && Occupied(slots[i]) && slots[i].sample == n
  }

  ghost predicate HasSample(slots: seq<Work>, n: nat) {
    exists i: nat :: InSlot(slots, n, i)
  }

  /** Queue, hand and slots partition the samples that were pushed and not yet consumed,
      each part in order, and there are never more of them than the lookahead allows. */
  ghost predicate Conserved(cfg: Config, s: Planner) {
    && s.nextConsume <= Admitted(s) && s.pushed - s.nextConsume <= cfg.lookahead == |s.slots|
    && (forall k | 0 <= k < |s.queue| :: s.queue[k] == s.pushed - |s.queue| + k)
    && (s.hand.Some? ==> s.hand.value == Admitted(s))
    && SlotsOk(s.slots, s.nextConsume, Admitted(s))
  }

  ghost predicate SlotsOk(slots: seq<Work>, from: nat, upto: int) {
    && (forall i | 0 <= i < |slots| && Occupied(slots[i]) :: from <= slots[i].sample < upto)
    && (forall i, j | 0 <= i < j < |slots| && Occupied(slots[i]) && Occupied(slots[j]) ::
        slots[i].sample != slots[j].sample)
    && (forall n: nat | from <= n < upto :: HasSample(slots, n))
  }

  /** An accepted push never meets a full lookahead. */
  lemma LookaheadHasRoom(cfg: Config, s: Planner)
    requires Conserved(cfg, s) && s.pushed - s.nextConsume < cfg.lookahead
    ensures |s.queue| < cfg.lookahead
  {
  }

  /** A waiting sample always finds a free slot. */
  lemma FreeSlotExists(cfg: Config, s: Planner) returns (i: nat)
    requires Conserved(cfg, s) && (s.hand.Some? || s.queue != [])
    ensures i < |s.slots| && !Occupied(s.slots[i])
  {
    if forall k | 0 <= k < |s.slots| :: Occupied(s.slots[k]) {
      var taken := seq(|s.slots|, k requires 0 <= k < |s.slots| =>
        assert Occupied(s.slots[k]); (s.slots[k].sample - s.nextConsume) as nat);
      Pigeonhole(taken, Admitted(s) - s.nextConsume);
      assert false;
    }
    i :| 0 <= i < |s.slots| && !Occupied(s.slots[i]);
  }

  lemma SlotTaken(slots: seq<Work>, from: nat, upto: nat, i: nat, w: Work)
    requires SlotsOk(slots, from, upto) && from <= upto && i < |slots| && !Occupied(slots[i]) && Occupied(w)
               && w.sample == upto
    ensures SlotsOk(slots[i := w], from, upto + 1)
  {
    var after := slots[i := w];
    forall n: nat | from <= n < upto + 1 ensures HasSample(after, n) {
      if n == upto {
        assert InSlot(after, n, i);
      } else {
        assert HasSample(slots, n);
        var k: nat :| InSlot(slots, n, k);
        assert InSlot(after, n, k);
      }
    }
  }

  lemma SlotChanged(slots: seq<Work>, from: nat, upto: int, i: nat, w: Work)
    requires SlotsOk(slots, from, upto) && i < |slots| && Occupied(slots[i]) && Occupied(w)
               && w.sample == slots[i].sample
    ensures SlotsOk(slots[i := w], from, upto)
  {
    var after := slots[i := w];
    forall n: nat | from <= n < upto ensures HasSample(after, n) {
      assert HasSample(slots, n);
      var k: nat :| InSlot(slots, n, k);
      assert InSlot(after, n, k);
    }
  }

  lemma SlotFreed(slots: seq<Work>, from: nat, upto: int, i: nat)
    requires SlotsOk(slots, from, upto) && i < |slots| && Occupied(slots[i]) && slots[i].sample == from
    ensures SlotsOk(slots[i := FREE], from + 1, upto)
  {
    var after := slots[i := FREE];
    forall k | 0 <= k < |after| && Occupied(after[k]) ensures from + 1 <= after[k].sample < upto {
      if k < i { assert slots[k].sample != slots[i].sample; }
      if i < k { assert slots[k].sample != slots[i].sample; }
    }
    forall n: nat | from + 1 <= n < upto ensures HasSample(after, n) {
      assert HasSample(slots, n);
      var k: nat :| InSlot(slots, n, k);
      assert InSlot(after, n, k);
    }
  }

  // --- Order ---------------------------------------------------------------------------------------------

  ghost function Samples(works: seq<Work>): (r: seq<nat>)
    ensures |r| == |works|
  {
    seq(|works|, k requires 0 <= k < |works| => works[k].sample)
  }

  /** The samples of all plans and of the staging area, row by row. */
  ghost function Delivered(s: Planner): seq<nat> {
    Concat(s.batches) + Samples(s.staged)
  }

  /** The rows are the consumed samples in order, all but the dropped ones. */
  ghost predicate Ordered(cfg: Config, s: Planner) {
    && cfg.batch > 0 && |s.staged| <= cfg.batch
    && (forall k | 0 <= k < |s.batches| :: |s.batches[k]| == cfg.batch)
    && Splits(Delivered(s), s.dropped, s.nextConsume)
    && s.planned == |s.batches| * cfg.batch + s.wasted
    && s.swallowed <= s.dropped && |s.swallowed| + s.wasted <= |s.dropped|
    && (s.failure == OK ==> s.swallowed == s.dropped && s.wasted == 0)
  }

  /** Row j is sample j. */
  ghost predicate InRows(s: Planner) {
    forall j | 0 <= j < |Delivered(s)| :: Delivered(s)[j] == j
  }

  // --- Handles ----------------------------------------------------------------------------------------------

  ghost predicate ShardDone(st: FetchState) {
    st.Ready? || st == Failed(NOTFOUND)
  }

  ghost predicate KeysKnown(cfg: Config, arrays: Cache, w: Work) {
    w.keys.Some? && Query(arrays, w.meta).Ready? && cfg.shardKeys(w.sample, Query(arrays, w.meta).value) == w.keys
  }

  ghost predicate ShardsSecured(shards: Cache, w: Work) {
    && w.keys.Some? && |w.shards| <= |w.keys.value|
    && forall k | 0 <= k < |w.shards| :: Secured(shards, w.shards[k], w.keys.value[k], w.sample)
  }

  ghost predicate AllShardsDone(shards: Cache, w: Work) {
    && w.keys.Some? && |w.shards| == |w.keys.value|
    && forall k | 0 <= k < |w.shards| :: ShardDone(Query(shards, w.shards[k]))
  }

  /** The handles of a sample are as far along as its phase says. */
  ghost predicate WorkOk(cfg: Config, arrays: Cache, shards: Cache, w: Work) {
    w.phase.Free? || w.phase.Errored? ||
    (&& Secured(arrays, w.meta, cfg.metaKey(w.sample), w.sample)
     && (w.keys.None? ==> w.phase.PendingMeta? && w.shards == [])
     && (w.keys.Some? ==> KeysKnown(cfg, arrays, w) && ShardsSecured(shards, w))
     && (w.phase.PendingShards? ==> |w.shards| == |w.keys.value|)
     && (w.phase.Done? ==> AllShardsDone(shards, w)))
  }

  ghost predicate HandlesOk(cfg: Config, s: Planner) {
    && CacheOk(s.arrays) && CacheOk(s.shards)
    && s.arrays.watermark <= s.watermark <= s.nextConsume && s.shards.watermark <= s.watermark
    && (forall i | 0 <= i < |s.slots| :: WorkOk(cfg, s.arrays, s.shards, s.slots[i]))
    && (forall k | 0 <= k < |s.staged| :: StagedOk(cfg, s.arrays, s.shards, s.staged[k]))
    && (s.staged != [] ==> s.watermark == s.staged[|s.staged| - 1].sample + 1)
  }

  ghost predicate StagedOk(cfg: Config, arrays: Cache, shards: Cache, w: Work) {
    w.phase.Done? && WorkOk(cfg, arrays, shards, w) && arrays.watermark <= w.sample && shards.watermark <= w.sample
  }

  /** What the plan build asks of the caches: it must wait if any handle is not settled. */
  ghost predicate BuildWaits(s: Planner) {
    exists k :: 0 <= k < |s.staged| && WorkWaits(s, s.staged[k])
  }

  ghost predicate WorkWaits(s: Planner, w: Work) {
    Query(s.arrays, w.meta).Pending? || exists j :: 0 <= j < |w.shards| && Query(s.shards, w.shards[j]).Pending?
  }

  /** Building a staged batch never has to wait. */
  lemma StagedNeverWaits(cfg: Config, s: Planner)
    requires HandlesOk(cfg, s)
    ensures !BuildWaits(s)
  {
    forall k | 0 <= k < |s.staged| ensures !WorkWaits(s, s.staged[k]) {
      assert StagedOk(cfg, s.arrays, s.shards, s.staged[k]);
    }
  }

  lemma ArrayStepKeepsWork(cfg: Config, arrays: Cache, step: CacheStep, shards: Cache, w: Work)
    requires CacheOk(arrays) && StepOk(arrays, step) && WorkOk(cfg, arrays, shards, w)
    requires Occupied(w) ==> arrays.watermark <= w.sample
    ensures WorkOk(cfg, Apply(arrays, step), shards, w)
  {
    if Occupied(w) && !w.phase.Errored? {
      StepKeepsSecured(arrays, step, w.meta, cfg.metaKey(w.sample), w.sample);
    }
  }

  lemma ShardStepKeepsWork(cfg: Config, arrays: Cache, shards: Cache, step: CacheStep, w: Work)
    requires CacheOk(shards) && StepOk(shards, step) && WorkOk(cfg, arrays, shards, w)
    requires Occupied(w) ==> shards.watermark <= w.sample
    ensures WorkOk(cfg, arrays, Apply(shards, step), w)
  {
    if Occupied(w) && !w.phase.Errored? && w.keys.Some? {
      forall k | 0 <= k < |w.shards|
        ensures Secured(Apply(shards, step), w.shards[k], w.keys.value[k], w.sample)
        ensures Settled(Query(shards, w.shards[k]), Query(Apply(shards, step), w.shards[k]))
      {
        StepKeepsSecured(shards, step, w.shards[k], w.keys.value[k], w.sample);
      }
    }
  }

  // --- Gates and owners ----------------------------------------------------------------------------------------

  /** A gate's count is the number of unfinished fetches registered with it in both caches. */
  ghost predicate GatesExact(s: Planner) {
    && |s.gates| == |s.owners|
    && forall g: nat | g < |s.gates| :: GateExact(s, g)
  }

  ghost predicate GateExact(s: Planner, g: nat)
    requires g < |s.gates|
  {
    s.gates[g].pending == Registered(s.arrays.active, g) + Registered(s.shards.active, g)
  }

  /** An owner entry's references are the slots that use it. */
  ghost predicate OwnersOk(s: Planner) {
    && (forall i | 0 <= i < |s.slots| && s.slots[i].owner.Some? ::
          && Occupied(s.slots[i]) && s.slots[i].owner.value < |s.owners|
          && s.owners[s.slots[i].owner.value] == Owner(true, s.slots[i].sample, 1))
    && (forall i, j | 0 <= i < j < |s.slots| && s.slots[i].owner.Some? :: s.slots[i].owner != s.slots[j].owner)
    && (forall g: nat | g < |s.owners| && s.owners[g].refs > 0 :: UsedBySlot(s.slots, g))
    && (forall g: nat | g < |s.owners| && !s.owners[g].inUse ::
        s.owners[g].refs == 0 && g < |s.gates| && s.gates[g].pending == 0)
    && (forall i | 0 <= i < |s.slots| && Occupied(s.slots[i]) && !s.slots[i].phase.Errored? :: s.slots[i].owner.Some?)
    && (forall g: nat | g < |s.owners| && s.owners[g].inUse && s.owners[g].refs == 0 :: s.owners[g].id < s.nextConsume)
  }

  ghost predicate UsedBySlot(slots: seq<Work>, g: nat) {
    exists i: nat :: SlotOwns(slots, g, i)
  }

  ghost predicate SlotOwns(slots: seq<Work>, g: nat, i: nat) {
    i < |slots| && slots[i].owner == Some(g)
  }

  /** An entry that is not in use is registered nowhere and no slot refers to it. */
  lemma UnusedOwnerIsFree(s: Planner, g: nat)
    requires GatesExact(s) && OwnersOk(s) && g < |s.owners| && !s.owners[g].inUse
    ensures Registered(s.arrays.active, g) == 0 && Registered(s.shards.active, g) == 0
    ensures !UsedBySlot(s.slots, g)
  {
    assert GateExact(s, g);
  }

  /** The fetches a healthy slot's gate is registered with are the slot's own. */
  ghost predicate RegistrationsOwned(s: Planner) {
    forall i | 0 <= i < |s.slots| && s.slots[i].owner.Some? && !s.slots[i].phase.Errored? ::
        SlotRegistrations(s, s.slots[i])
  }

  ghost predicate SlotRegistrations(s: Planner, w: Work)
    requires w.owner.Some?
  {
    && (forall k: nat | Waits(s.arrays, k, w.owner.value) :: w.meta.index == k)
    && (forall k: nat | Waits(s.shards, k, w.owner.value) :: HasIndex(w.shards, k))
  }

  ghost predicate HasIndex(handles: seq<Handle>, k: nat) {
    exists j :: 0 <= j < |handles| && handles[j].index == k
  }

  lemma SettledNoWaits(c: Cache, h: Handle, g: nat)
    requires CacheOk(c) && Lookup(c, h).Some? && !Query(c, h).Pending?
    ensures !Waits(c, h.index, g)
  {
    assert Holds(c, h.index);
  }

  /** A sample whose metadata is all there has nothing left to wait for. */
  lemma DoneGateIsZero(cfg: Config, s: Planner, i: nat)
    requires HandlesOk(cfg, s) && GatesExact(s) && OwnersOk(s) && RegistrationsOwned(s)
    requires i < |s.slots| && s.slots[i].phase.Done?
    ensures s.slots[i].owner.Some? && s.slots[i].owner.value < |s.gates| && s.gates[s.slots[i].owner.value].pending == 0
  {
    var w := s.slots[i];
    var g := w.owner.value;
    assert WorkOk(cfg, s.arrays, s.shards, w) && SlotRegistrations(s, w);
    SettledNoWaits(s.arrays, w.meta, g);
    forall k: nat ensures !Waits(s.shards, k, g) {
      if HasIndex(w.shards, k) {
        var j :| 0 <= j < |w.shards| && w.shards[j].index == k;
        SettledNoWaits(s.shards, w.shards[j], g);
      }
    }
    NoneRegistered(s.arrays, g);
    NoneRegistered(s.shards, g);
    assert GateExact(s, g);
  }

  /** Without errors every entry in use belongs to a slot. */
  ghost predicate NoOrphans(s: Planner) {
    s.errored == 0 ==>
      && (forall g: nat | g < |s.owners| && s.owners[g].inUse :: s.owners[g].refs > 0)
      && (forall i | 0 <= i < |s.slots| :: !s.slots[i].phase.Errored?)
  }

  /** In a run without sample errors an owner entry is always free for the next sample. */
  lemma OwnerAvailable(cfg: Config, s: Planner) returns (g: nat)
    requires Conserved(cfg, s) && OwnersOk(s) && NoOrphans(s) && s.errored == 0 && |s.owners| > cfg.lookahead
    ensures g < |s.owners| && !s.owners[g].inUse
  {
    if forall k | 0 <= k < |s.owners| :: s.owners[k].inUse {
      forall k: nat | k < |s.owners| ensures UsedBySlot(s.slots, k) { assert s.owners[k].refs > 0; }
      var at := seq(|s.owners|, k requires 0 <= k < |s.owners| => UserOf(s.slots, k));
      Pigeonhole(at, |s.slots|);
      assert false;
    }
    g :| 0 <= g < |s.owners| && !s.owners[g].inUse;
  }

  ghost function UserOf(slots: seq<Work>, g: nat): (i: nat)
    requires UsedBySlot(slots, g)
    ensures SlotOwns(slots, g, i)
  {
    var i: nat :| SlotOwns(slots, g, i);
    i
  }

  ghost predicate Inv(cfg: Config, s: Planner) {
    && Conserved(cfg, s) && Ordered(cfg, s) && HandlesOk(cfg, s)
    && |s.owners| == cfg.lookahead + 4 && GatesExact(s) && OwnersOk(s) && RegistrationsOwned(s) && NoOrphans(s)
  }

  // --- Changing one slot -----------------------------------------------------------------------------------------

  /** The slot's sample moves on: same sample and owner, and handles only added. */
  ghost predicate MovesOn(w: Work, w': Work) {
    && Occupied(w) && Occupied(w') && w'.sample == w.sample && w'.owner == w.owner
    && (w'.phase.Errored? || (!w.phase.Errored? && w'.meta == w.meta && w.shards <= w'.shards))
  }

  ghost function SetSlot(s: Planner, i: nat, w: Work, errored: nat): Planner
    requires i < |s.slots|
  {
    s.(slots := s.slots[i := w], errored := errored)
  }

  lemma OwnersMoveOn(s: Planner, i: nat, w: Work, errored: nat)
    requires OwnersOk(s) && i < |s.slots| && MovesOn(s.slots[i], w)
    ensures OwnersOk(SetSlot(s, i, w, errored))
  {
    var s' := SetSlot(s, i, w, errored);
    forall g: nat | g < |s.owners| && s.owners[g].refs > 0 ensures UsedBySlot(s'.slots, g) {
      assert UsedBySlot(s.slots, g);
      var k: nat :| SlotOwns(s.slots, g, k);
      assert SlotOwns(s'.slots, g, k);
    }
  }

  lemma RegistrationsMoveOn(s: Planner, i: nat, w: Work, errored: nat)
    requires RegistrationsOwned(s) && i < |s.slots| && MovesOn(s.slots[i], w)
    ensures RegistrationsOwned(SetSlot(s, i, w, errored))
  {
    var s' := SetSlot(s, i, w, errored);
    forall k | 0 <= k < |s'.slots| && s'.slots[k].owner.Some? && !s'.slots[k].phase.Errored?
      ensures SlotRegistrations(s', s'.slots[k])
    {
      assert SlotRegistrations(s, s.slots[k]);
      if k == i {
        forall n: nat | Waits(s.shards, n, w.owner.value) ensures HasIndex(w.shards, n) {
          assert HasIndex(s.slots[i].shards, n);
          var j :| 0 <= j < |s.slots[i].shards| && s.slots[i].shards[j].index == n;
          assert w.shards[j].index == n;
        }
      }
    }
  }

  /** Everything but the registrations, which the slot still has to take over. */
  ghost predicate InvExceptRegistrations(cfg: Config, s: Planner) {
    && Conserved(cfg, s) && Ordered(cfg, s) && HandlesOk(cfg, s)
    && |s.owners| == cfg.lookahead + 4 && GatesExact(s) && OwnersOk(s) && NoOrphans(s)
  }

  /** A slot that moves on keeps everything but possibly the registrations. */
  lemma MovedExceptRegistrations(cfg: Config, s: Planner, i: nat, w: Work, errored: nat)
    requires InvExceptRegistrations(cfg, s) && i < |s.slots| && MovesOn(s.slots[i], w)
               && WorkOk(cfg, s.arrays, s.shards, w)
    requires errored >= s.errored && (w.phase.Errored? ==> errored > 0)
    ensures InvExceptRegistrations(cfg, SetSlot(s, i, w, errored))
  {
    hide CacheOk, WorkOk, Registered, OwnersOk, SlotsOk, Splits, Concat;
    SlotChanged(s.slots, s.nextConsume, Admitted(s), i, w);
    OwnersMoveOn(s, i, w, errored);
    var s' := SetSlot(s, i, w, errored);
    forall g: nat | g < |s.gates| ensures GateExact(s', g) { assert GateExact(s, g); }
  }

  /** Any lawful move of one slot keeps everything. */
  lemma SlotMovesOn(cfg: Config, s: Planner, i: nat, w: Work, errored: nat)
    requires Inv(cfg, s) && i < |s.slots| && MovesOn(s.slots[i], w) && WorkOk(cfg, s.arrays, s.shards, w)
    requires errored >= s.errored && (w.phase.Errored? ==> errored > 0)
    ensures Inv(cfg, SetSlot(s, i, w, errored))
  {
    hide WorkOk, RegistrationsOwned, Conserved, Ordered, HandlesOk, OwnersOk, GatesExact, NoOrphans, Splits, Concat;
    MovedExceptRegistrations(cfg, s, i, w, errored);
    RegistrationsMoveOn(s, i, w, errored);
  }

  /** Marking gates with errors changes no counts. */
  ghost predicate SamePending(gates: seq<Gate>, gates': seq<Gate>) {
    |gates| == |gates'| && forall g | 0 <= g < |gates| :: gates'[g].pending == gates[g].pending
  }

  lemma GatesTold(cfg: Config, s: Planner, gates: seq<Gate>)
    requires Inv(cfg, s) && SamePending(s.gates, gates)
    ensures Inv(cfg, s.(gates := gates))
  {
    hide CacheOk, WorkOk, Registered, SlotsOk;
    var s' := s.(gates := gates);
    forall g: nat | g < |gates| ensures GateExact(s', g) { assert GateExact(s, g); }
    forall i | 0 <= i < |s.slots| && s.slots[i].owner.Some? && !s.slots[i].phase.Errored?
      ensures SlotRegistrations(s', s.slots[i])
    {
      assert SlotRegistrations(s, s.slots[i]);
    }
  }

  /** slot_fail: the sample is done for, and its gate says so. */
  ghost function FailSlot(s: Planner, i: nat, code: Status): Planner
    requires i < |s.slots|
  {
    var w := s.slots[i];
    SetSlot(s, i, w.(phase := Errored(Coded(code))), s.errored + 1)
      .(gates := if w.owner.Some? then Fail(s.gates, w.owner.value) else s.gates)
  }

  lemma FailKeeps(cfg: Config, s: Planner, i: nat, code: Status)
    requires Inv(cfg, s) && i < |s.slots| && Occupied(s.slots[i])
    ensures Inv(cfg, FailSlot(s, i, code))
  {
    hide Inv, Splits, Concat;
    var w := s.slots[i];
    SlotMovesOn(cfg, s, i, w.(phase := Errored(Coded(code))), s.errored + 1);
    var s1 := SetSlot(s, i, w.(phase := Errored(Coded(code))), s.errored + 1);
    GatesTold(cfg, s1, if w.owner.Some? then Fail(s.gates, w.owner.value) else s.gates);
  }

  // --- The worker's steps on one slot --------------------------------------------------------------------------------

  /** advance_from_meta before the shards are known. `oom` tells that the lists could not be allocated. */
  ghost function Enumerate(cfg: Config, s: Planner, i: nat, oom: bool): Planner
    requires i < |s.slots|
  {
    var w := s.slots[i];
    match Query(s.arrays, w.meta)
    case Pending => s
    case Failed(code) => FailSlot(s, i, code)
    case Ready(v) =>
      var keys := cfg.shardKeys(w.sample, v);
      if keys.None? || |keys.value| > cfg.maxShards then FailSlot(s, i, INVAL)
      else if keys.value == [] then SetSlot(s, i, w.(keys := keys, phase := Done), s.errored)
      else if oom then FailSlot(s, i, OOM)
      else SetSlot(s, i, w.(keys := keys), s.errored)
  }

  lemma EnumerateKeeps(cfg: Config, s: Planner, i: nat, oom: bool)
    requires Inv(cfg, s) && i < |s.slots| && s.slots[i].phase.PendingMeta? && s.slots[i].keys.None?
    ensures Inv(cfg, Enumerate(cfg, s, i, oom))
  {
    hide Splits, Concat;
    var w := s.slots[i];
    assert WorkOk(cfg, s.arrays, s.shards, w);
    match Query(s.arrays, w.meta)
    case Pending =>
    case Failed(code) => FailKeeps(cfg, s, i, code);
    case Ready(v) =>
      var keys := cfg.shardKeys(w.sample, v);
      if keys.None? || |keys.value| > cfg.maxShards { FailKeeps(cfg, s, i, INVAL); }
      else if keys.value == [] { SlotMovesOn(cfg, s, i, w.(keys := keys, phase := Done), s.errored); }
      else if oom { FailKeeps(cfg, s, i, OOM); }
      else { SlotMovesOn(cfg, s, i, w.(keys := keys), s.errored); }
  }

  /** All shards have been asked for. */
  ghost function ShardsAsked(s: Planner, i: nat): Planner
    requires i < |s.slots|
  {
    SetSlot(s, i, s.slots[i].(phase := PendingShards), s.errored)
  }

  lemma ShardsAskedKeeps(cfg: Config, s: Planner, i: nat)
    requires Inv(cfg, s) && i < |s.slots| && s.slots[i].phase.PendingMeta?
    requires s.slots[i].keys.Some? && |s.slots[i].shards| == |s.slots[i].keys.value|
    ensures Inv(cfg, ShardsAsked(s, i))
  {
    assert WorkOk(cfg, s.arrays, s.shards, s.slots[i]);
    SlotMovesOn(cfg, s, i, s.slots[i].(phase := PendingShards), s.errored);
  }

  /** The first shard, in order, that is not there yet. */
  ghost function FirstUndone(shards: Cache, handles: seq<Handle>, k: nat): (r: nat)
    requires k <= |handles|
    ensures k <= r <= |handles|
    ensures forall j | k <= j < r :: ShardDone(Query(shards, handles[j]))
    ensures r < |handles| ==> !ShardDone(Query(shards, handles[r]))
    decreases |handles| - k
  {
    if k < |handles| && ShardDone(Query(shards, handles[k])) then FirstUndone(shards, handles, k + 1) else k
  }

  /** advance_from_shard: missing shards are fine, other errors fail the sample. */
  ghost function CheckShards(s: Planner, i: nat): Planner
    requires i < |s.slots|
  {
    var w := s.slots[i];
    var k := FirstUndone(s.shards, w.shards, 0);
    if k == |w.shards| then SetSlot(s, i, w.(phase := Done), s.errored)
    else match Query(s.shards, w.shards[k])
      case Failed(code) => FailSlot(s, i, code)
      case _ => s
  }

  lemma CheckShardsKeeps(cfg: Config, s: Planner, i: nat)
    requires Inv(cfg, s) && i < |s.slots| && s.slots[i].phase.PendingShards?
    ensures Inv(cfg, CheckShards(s, i))
  {
    var w := s.slots[i];
    assert WorkOk(cfg, s.arrays, s.shards, w);
    var k := FirstUndone(s.shards, w.shards, 0);
    if k == |w.shards| {
      SlotMovesOn(cfg, s, i, w.(phase := Done), s.errored);
    } else if Query(s.shards, w.shards[k]).Failed? {
      FailKeeps(cfg, s, i, Query(s.shards, w.shards[k]).code);
    }
  }

  // --- Changes in the caches -----------------------------------------------------------------------------------------

  lemma ArraysKeepHandles(cfg: Config, s: Planner, step: CacheStep)
    requires Conserved(cfg, s) && HandlesOk(cfg, s) && StepOk(s.arrays, step)
               && Apply(s.arrays, step).watermark == s.arrays.watermark
    ensures HandlesOk(cfg, s.(arrays := Apply(s.arrays, step)))
  {
    hide CacheOk, WorkOk, Apply, StepOk;
    StepKeeps(s.arrays, step);
    var arrays := Apply(s.arrays, step);
    forall i | 0 <= i < |s.slots| ensures WorkOk(cfg, arrays, s.shards, s.slots[i]) {
      ArrayStepKeepsWork(cfg, s.arrays, step, s.shards, s.slots[i]);
    }
    forall k | 0 <= k < |s.staged| ensures StagedOk(cfg, arrays, s.shards, s.staged[k]) {
      assert StagedOk(cfg, s.arrays, s.shards, s.staged[k]);
      ArrayStepKeepsWork(cfg, s.arrays, step, s.shards, s.staged[k]);
    }
  }

  lemma ShardsKeepHandles(cfg: Config, s: Planner, step: CacheStep)
    requires Conserved(cfg, s) && HandlesOk(cfg, s) && StepOk(s.shards, step)
               && Apply(s.shards, step).watermark == s.shards.watermark
    ensures HandlesOk(cfg, s.(shards := Apply(s.shards, step)))
  {
    hide CacheOk, WorkOk, Apply, StepOk;
    StepKeeps(s.shards, step);
    var shards := Apply(s.shards, step);
    forall i | 0 <= i < |s.slots| ensures WorkOk(cfg, s.arrays, shards, s.slots[i]) {
      ShardStepKeepsWork(cfg, s.arrays, s.shards, step, s.slots[i]);
    }
    forall k | 0 <= k < |s.staged| ensures StagedOk(cfg, s.arrays, shards, s.staged[k]) {
      assert StagedOk(cfg, s.arrays, s.shards, s.staged[k]);
      ShardStepKeepsWork(cfg, s.arrays, s.shards, step, s.staged[k]);
    }
  }

  lemma ArrayCounts(s: Planner, arrays: Cache, gates: seq<Gate>)
    requires GatesExact(s) && CountsMove(s.arrays, s.gates, arrays, gates)
    ensures GatesExact(s.(arrays := arrays, gates := gates))
  {
    hide Registered;
    var s' := s.(arrays := arrays, gates := gates);
    forall g: nat | g < |gates| ensures GateExact(s', g) { assert GateExact(s, g); }
  }

  lemma ShardCounts(s: Planner, shards: Cache, gates: seq<Gate>)
    requires GatesExact(s) && CountsMove(s.shards, s.gates, shards, gates)
    ensures GatesExact(s.(shards := shards, gates := gates))
  {
    hide Registered;
    var s' := s.(shards := shards, gates := gates);
    forall g: nat | g < |gates| ensures GateExact(s', g) { assert GateExact(s, g); }
  }

  /** Owners are untouched by cache changes that leave unused gates at zero. */
  lemma OwnersKept(s: Planner, s': Planner)
    requires OwnersOk(s) && s'.slots == s.slots && s'.owners == s.owners && s'.nextConsume >= s.nextConsume
    requires |s'.gates| == |s.gates| && forall g | 0 <= g < |s.gates| && s.gates[g].pending == 0 && g < |s.owners|
               && !s.owners[g].inUse :: s'.gates[g].pending == 0
    ensures OwnersOk(s')
  {
  }

  /** A fetch of array metadata finishes. */
  ghost function ArrayDone(s: Planner, h: Handle, outcome: FetchState): Planner {
    s.(arrays := Complete(s.arrays, h, outcome), gates := CompleteGates(s.arrays, s.gates, h, outcome))
  }

  ghost function ShardFetched(s: Planner, h: Handle, outcome: FetchState): Planner {
    s.(shards := Complete(s.shards, h, outcome), gates := CompleteGates(s.shards, s.gates, h, outcome))
  }

  /** Completions only lower counts. */
  lemma CompleteLowers(c: Cache, gates: seq<Gate>, h: Handle, outcome: FetchState, g: nat)
    requires g < |gates|
    ensures CompleteGates(c, gates, h, outcome)[g].pending <= gates[g].pending
  {
    var found := Lookup(c, h);
    if found.Some? && found.value.state.Pending? { ReleaseCounts(gates, found.value.waiters, outcome.Failed?, g); }
  }

  lemma ExactNonNegative(s: Planner, g: nat)
    requires GatesExact(s) && g < |s.gates|
    ensures s.gates[g].pending >= 0
  {
    assert GateExact(s, g);
  }

  lemma ArrayDoneKeeps(cfg: Config, s: Planner, h: Handle, outcome: FetchState)
    requires Inv(cfg, s) && !outcome.Pending?
    ensures Inv(cfg, ArrayDone(s, h, outcome))
  {
    hide WorkOk, Registered, Complete, CompleteGates, CacheOk, Splits, Concat;
    var s' := ArrayDone(s, h, outcome);
    ArraysKeepHandles(cfg, s, CompleteStep(h, outcome));
    CompleteCounts(s.arrays, s.gates, h, outcome);
    ArrayCounts(s, s'.arrays, s'.gates);
    forall g: nat | g < |s.gates| && s.gates[g].pending == 0 ensures s'.gates[g].pending == 0 {
      CompleteLowers(s.arrays, s.gates, h, outcome, g);
      ExactNonNegative(s', g);
    }
    OwnersKept(s, s');
    forall i | 0 <= i < |s.slots| && s.slots[i].owner.Some? && !s.slots[i].phase.Errored?
      ensures SlotRegistrations(s', s.slots[i])
    {
      assert SlotRegistrations(s, s.slots[i]);
      forall k: nat | Waits(s'.arrays, k, s.slots[i].owner.value) ensures s.slots[i].meta.index == k {
        CompleteWaits(s.arrays, h, outcome, k, s.slots[i].owner.value);
      }
    }
  }

  lemma ShardFetchedKeeps(cfg: Config, s: Planner, h: Handle, outcome: FetchState)
    requires Inv(cfg, s) && !outcome.Pending?
    ensures Inv(cfg, ShardFetched(s, h, outcome))
  {
    hide WorkOk, Registered, Complete, CompleteGates, CacheOk, Splits, Concat;
    var s' := ShardFetched(s, h, outcome);
    ShardsKeepHandles(cfg, s, CompleteStep(h, outcome));
    CompleteCounts(s.shards, s.gates, h, outcome);
    ShardCounts(s, s'.shards, s'.gates);
    forall g: nat | g < |s.gates| && s.gates[g].pending == 0 ensures s'.gates[g].pending == 0 {
      CompleteLowers(s.shards, s.gates, h, outcome, g);
      ExactNonNegative(s', g);
    }
    OwnersKept(s, s');
    forall i | 0 <= i < |s.slots| && s.slots[i].owner.Some? && !s.slots[i].phase.Errored?
      ensures SlotRegistrations(s', s.slots[i])
    {
      assert SlotRegistrations(s, s.slots[i]);
      forall k: nat | Waits(s'.shards, k, s.slots[i].owner.value) ensures HasIndex(s.slots[i].shards, k) {
        CompleteWaits(s.shards, h, outcome, k, s.slots[i].owner.value);
      }
    }
  }

  // --- Asking for a shard --------------------------------------------------------------------------------------------

  lemma AskTouchesOneGate(c: Cache, gates: seq<Gate>, ask: Option<CacheStep>, key: Key, owner: nat, gate: nat, g: nat)
    requires AskOk(c, ask, key, owner, gate) && g < |gates| && g != gate
    ensures AskGates(c, gates, ask)[g] == gates[g]
  {
  }

  /** One request of request_remaining_shards: the cursor moves only on success, so every shard
      is registered once however often the request has to be repeated. */
  ghost function AskShard(s: Planner, i: nat, ask: Option<CacheStep>): Planner
    requires i < |s.slots| && (ask.Some? ==> StepOk(s.shards, ask.value))
  {
    var w, r := s.slots[i], AskResult(s.shards, ask);
    var asked := s.(shards := AskCache(s.shards, ask), gates := AskGates(s.shards, s.gates, ask));
    match r.status
    case OK => SetSlot(asked, i, w.(shards := w.shards + [r.handle]), s.errored)
    case AGAIN => asked
    case _ => FailSlot(asked, i, r.status)
  }

  ghost predicate CanAskShard(s: Planner, i: nat, ask: Option<CacheStep>) {
    && i < |s.slots| && s.slots[i].phase.PendingMeta? && s.slots[i].owner.Some? && s.slots[i].owner.value < |s.gates|
    && s.slots[i].keys.Some? && |s.slots[i].shards| < |s.slots[i].keys.value|
    && AskOk(s.shards, ask, s.slots[i].keys.value[|s.slots[i].shards|], s.slots[i].sample, s.slots[i].owner.value)
  }

  lemma OwnersApart(s: Planner, i: nat, j: nat)
    requires OwnersOk(s) && i < |s.slots| && j < |s.slots| && i != j && s.slots[i].owner.Some?
    ensures s.slots[i].owner != s.slots[j].owner
  {
    var a, b := if i < j then i else j, if i < j then j else i;
    assert s.slots[a].owner.Some? ==> s.slots[a].owner != s.slots[b].owner;
  }

  /** After the request, before the slot moves: registrations hold except for the new one. */
  lemma AskShardRegistrations(s: Planner, i: nat, ask: Option<CacheStep>, k: nat)
    requires CanAskShard(s, i, ask) && CacheOk(s.shards) && OwnersOk(s) && RegistrationsOwned(s)
    requires k < |s.slots| && s.slots[k].owner.Some? && !s.slots[k].phase.Errored?
    ensures var w, r := s.slots[k], AskResult(s.shards, ask);
            var asked := s.(shards := AskCache(s.shards, ask), gates := AskGates(s.shards, s.gates, ask));
            SlotRegistrations(asked, if k == i && r.status == OK then w.(shards := w.shards + [r.handle]) else w)
  {
    hide CacheOk, StepOk, Apply;
    var w, r := s.slots[k], AskResult(s.shards, ask);
    var w' := if k == i && r.status == OK then w.(shards := w.shards + [r.handle]) else w;
    var c' := AskCache(s.shards, ask);
    var key, sample, gate := s.slots[i].keys.value[|s.slots[i].shards|], s.slots[i].sample, s.slots[i].owner.value;
    assert SlotRegistrations(s, w);
    if k != i { OwnersApart(s, k, i); }
    forall n: nat | Waits(c', n, w.owner.value) ensures HasIndex(w'.shards, n) {
      AskWaits(s.shards, ask, key, sample, gate, n, w.owner.value);
      if Waits(s.shards, n, w.owner.value) {
        assert HasIndex(w.shards, n);
        var j :| 0 <= j < |w.shards| && w.shards[j].index == n;
        assert w'.shards[j].index == n;
      } else {
        assert w'.shards[|w.shards|].index == n;
      }
    }
  }

  lemma ShardAsked(cfg: Config, s: Planner, i: nat, ask: Option<CacheStep>)
    requires Inv(cfg, s) && CanAskShard(s, i, ask)
    ensures InvExceptRegistrations(cfg, s.(shards := AskCache(s.shards, ask),
                                           gates := AskGates(s.shards, s.gates, ask)))
  {
    hide WorkOk, Registered, CacheOk, AskCache, AskGates, AskResult, SlotRegistrations, SlotsOk, Splits, Concat;
    var w := s.slots[i];
    var key, gate := w.keys.value[|w.shards|], w.owner.value;
    var asked := s.(shards := AskCache(s.shards, ask), gates := AskGates(s.shards, s.gates, ask));
    AskKeeps(s.shards, s.gates, ask, key, w.sample, gate);
    ShardsAskHandles(cfg, s, ask, key, w.sample, gate);
    ShardCounts(s, asked.shards, asked.gates);
    forall g | 0 <= g < |s.gates| && g < |s.owners| && !s.owners[g].inUse ensures asked.gates[g] == s.gates[g] {
      AskTouchesOneGate(s.shards, s.gates, ask, key, w.sample, gate, g);
    }
    OwnersKept(s, asked);
  }

  lemma AskShardKeeps(cfg: Config, s: Planner, i: nat, ask: Option<CacheStep>)
    requires Inv(cfg, s) && CanAskShard(s, i, ask)
    ensures Inv(cfg, AskShard(s, i, ask))
  {
    hide WorkOk, Registered, CacheOk, AskCache, AskGates, AskResult, RegistrationsOwned, Conserved, Ordered, OwnersOk,
         GatesExact, NoOrphans, Splits, Concat;
    var w, r := s.slots[i], AskResult(s.shards, ask);
    var asked := s.(shards := AskCache(s.shards, ask), gates := AskGates(s.shards, s.gates, ask));
    ShardAsked(cfg, s, i, ask);
    AskedRegistrations(s, i, ask);
    AskKeeps(s.shards, s.gates, ask, w.keys.value[|w.shards|], w.sample, w.owner.value);
    if r.status == OK {
      ShardAdded(cfg, s, asked, i, r.handle);
      MovedExceptRegistrations(cfg, asked, i, w.(shards := w.shards + [r.handle]), s.errored);
    } else if r.status != AGAIN {
      FailKeeps(cfg, asked, i, r.status);
    }
  }

  lemma ShardsAskHandles(cfg: Config, s: Planner, ask: Option<CacheStep>, key: Key, owner: nat, gate: nat)
    requires Conserved(cfg, s) && HandlesOk(cfg, s) && AskOk(s.shards, ask, key, owner, gate)
    requires AskCache(s.shards, ask).watermark == s.shards.watermark
    ensures HandlesOk(cfg, s.(shards := AskCache(s.shards, ask)))
  {
    hide CacheOk, WorkOk;
    if ask.Some? { ShardsKeepHandles(cfg, s, ask.value); }
  }

  lemma ShardAdded(cfg: Config, s: Planner, asked: Planner, i: nat, h: Handle)
    requires i < |s.slots| && s.slots[i].phase.PendingMeta? && s.slots[i].keys.Some?
    requires |s.slots[i].shards| < |s.slots[i].keys.value|
    requires WorkOk(cfg, asked.arrays, asked.shards, s.slots[i])
    requires Secured(asked.shards, h, s.slots[i].keys.value[|s.slots[i].shards|], s.slots[i].sample)
    ensures WorkOk(cfg, asked.arrays, asked.shards, s.slots[i].(shards := s.slots[i].shards + [h]))
  {
  }

  lemma AskedRegistrations(s: Planner, i: nat, ask: Option<CacheStep>)
    requires CanAskShard(s, i, ask) && CacheOk(s.shards) && OwnersOk(s) && RegistrationsOwned(s)
    ensures var r, w := AskResult(s.shards, ask), s.slots[i];
            var asked := s.(shards := AskCache(s.shards, ask), gates := AskGates(s.shards, s.gates, ask));
            RegistrationsOwned(if r.status == OK then SetSlot(asked, i, w.(shards := w.shards + [r.handle]), s.errored)
                               else asked)
  {
    hide CacheOk, StepOk, Apply;
    var r, w := AskResult(s.shards, ask), s.slots[i];
    var asked := s.(shards := AskCache(s.shards, ask), gates := AskGates(s.shards, s.gates, ask));
    var s' := if r.status == OK then SetSlot(asked, i, w.(shards := w.shards + [r.handle]), s.errored) else asked;
    forall k | 0 <= k < |s'.slots| && s'.slots[k].owner.Some? && !s'.slots[k].phase.Errored?
      ensures SlotRegistrations(s', s'.slots[k])
    {
      AskShardRegistrations(s, i, ask, k);
    }
  }

  // --- Taking a sample in --------------------------------------------------------------------------------------------

  ghost function Push(s: Planner): Planner {
    s.(queue := s.queue + [s.pushed], pushed := s.pushed + 1)
  }

  lemma PushKeeps(cfg: Config, s: Planner)
    requires Inv(cfg, s) && s.pushed - s.nextConsume < cfg.lookahead
    ensures Inv(cfg, Push(s))
  {
    hide WorkOk, Registered, CacheOk, SlotRegistrations, SlotsOk, Splits, Concat;
    var s' := Push(s);
    forall g: nat | g < |s.gates| ensures GateExact(s', g) { assert GateExact(s, g); }
    SameRegistrations(s, s');
  }

  lemma SameRegistrations(s: Planner, s': Planner)
    requires RegistrationsOwned(s) && s'.slots == s.slots && s'.arrays == s.arrays && s'.shards == s.shards
    ensures RegistrationsOwned(s')
  {
    forall i | 0 <= i < |s.slots| && s.slots[i].owner.Some? && !s.slots[i].phase.Errored?
      ensures SlotRegistrations(s', s.slots[i])
    {
      assert SlotRegistrations(s, s.slots[i]);
    }
  }

  ghost function Take(s: Planner): Planner
    requires s.queue != []
  {
    s.(hand := Some(s.queue[0]), queue := s.queue[1..])
  }

  lemma TakeKeeps(cfg: Config, s: Planner)
    requires Inv(cfg, s) && s.hand.None? && s.queue != []
    ensures Inv(cfg, Take(s))
  {
    hide WorkOk, Registered, CacheOk, SlotRegistrations, SlotsOk, Splits, Concat;
    var s' := Take(s);
    forall g: nat | g < |s.gates| ensures GateExact(s', g) { assert GateExact(s, g); }
    SameRegistrations(s, s');
  }

  /** The owner entry a sample gets: its own if there is one, else a free one, else none. */
  ghost predicate OwnerFor(s: Planner, sample: nat, o: Option<nat>) {
    match o
    case Some(g) =>
      && g < |s.owners|
      && (s.owners[g].inUse ==> s.owners[g].id == sample)
      && (!s.owners[g].inUse ==> forall k | 0 <= k < |s.owners| :: !(s.owners[k].inUse && s.owners[k].id == sample))
    case None => forall k | 0 <= k < |s.owners| :: s.owners[k].inUse && s.owners[k].id != sample
  }

  /** No entry in use already carries the number of a sample that is not in a slot. */
  lemma OwnerIsNew(cfg: Config, s: Planner, g: nat)
    requires Conserved(cfg, s) && OwnersOk(s) && s.hand.Some? && OwnerFor(s, s.hand.value, Some(g))
    ensures !s.owners[g].inUse
  {
    OwnerBelow(cfg, s, g);
  }

  lemma OwnerBelow(cfg: Config, s: Planner, g: nat)
    requires Conserved(cfg, s) && OwnersOk(s) && g < |s.owners|
    ensures s.owners[g].inUse ==> s.owners[g].id < Admitted(s)
  {
    if s.owners[g].refs > 0 {
      assert UsedBySlot(s.slots, g);
      var i: nat :| SlotOwns(s.slots, g, i);
      assert s.slots[i].sample < Admitted(s);
    }
  }

  /** owner_get_or_create: a new entry starts with a fresh gate. */
  ghost function WithOwner(s: Planner, sample: nat, g: nat): Planner
    requires g < |s.owners| && g < |s.gates|
  {
    if s.owners[g].inUse then s.(owners := s.owners[g := s.owners[g].(refs := s.owners[g].refs + 1)])
    else s.(owners := s.owners[g := Owner(true, sample, 1)], gates := s.gates[g := Gate(0, false)])
  }

  /** owner_unref and try_free. */
  ghost function Unref(s: Planner, g: nat): Planner
    requires g < |s.owners| && g < |s.gates|
  {
    var o := s.owners[g];
    var refs := if o.refs > 0 then o.refs - 1 else 0;
    s.(owners := s.owners[g := o.(refs := refs, inUse := o.inUse && !(refs == 0 && s.gates[g].pending == 0))])
  }

  ghost function AdmitWithout(s: Planner, i: nat): Planner
    requires i < |s.slots| && s.hand.Some?
  {
    SetSlot(s, i, Work(Errored(BUDGET), s.hand.value, None, NO_HANDLE, None, []), s.errored + 1).(hand := None)
  }

  /** admit_locked with owner entry g: on AGAIN the sample stays in the worker's hand. */
  ghost function Admit(s: Planner, i: nat, g: nat, ask: Option<CacheStep>): Planner
    requires i < |s.slots| && s.hand.Some? && g < |s.owners| && g < |s.gates|
               && (ask.Some? ==> StepOk(s.arrays, ask.value))
  {
    var sample, r := s.hand.value, AskResult(s.arrays, ask);
    var owned := WithOwner(s, sample, g);
    var asked := owned.(arrays := AskCache(s.arrays, ask), gates := AskGates(s.arrays, owned.gates, ask));
    match r.status
    case AGAIN => Unref(asked, g)
    case OK => SetSlot(asked, i, Work(PendingMeta, sample, Some(g), r.handle, None, []), s.errored).(hand := None)
    case _ =>
      SetSlot(asked, i, Work(Errored(r.status), sample, Some(g), NO_HANDLE, None, []), s.errored + 1)
        .(hand := None, gates := Fail(asked.gates, g))
  }

  ghost predicate CanAdmit(cfg: Config, s: Planner, i: nat, g: nat, ask: Option<CacheStep>) {
    && s.hand.Some? && i < |s.slots| && !Occupied(s.slots[i]) && OwnerFor(s, s.hand.value, Some(g))
    && AskOk(s.arrays, ask, cfg.metaKey(s.hand.value), s.hand.value, g)
  }

  lemma AdmitWithoutKeeps(cfg: Config, s: Planner, i: nat)
    requires Inv(cfg, s) && s.hand.Some? && i < |s.slots| && !Occupied(s.slots[i])
    ensures Inv(cfg, AdmitWithout(s, i))
  {
    hide Registered, CacheOk, SlotRegistrations, SlotsOk, Splits, Concat;
    var s' := AdmitWithout(s, i);
    SlotTaken(s.slots, s.nextConsume, Admitted(s), i, s'.slots[i]);
    forall g: nat | g < |s.gates| ensures GateExact(s', g) { assert GateExact(s, g); }
    forall g: nat | g < |s.owners| && s.owners[g].refs > 0 ensures UsedBySlot(s'.slots, g) {
      assert UsedBySlot(s.slots, g);
      var k: nat :| SlotOwns(s.slots, g, k);
      assert SlotOwns(s'.slots, g, k);
    }
    forall k | 0 <= k < |s'.slots| && s'.slots[k].owner.Some? && !s'.slots[k].phase.Errored?
      ensures SlotRegistrations(s', s'.slots[k])
    {
      assert SlotRegistrations(s, s.slots[k]);
      SameWaits(s, s', s.slots[k]);
    }
  }

  lemma SameWaits(s: Planner, s': Planner, w: Work)
    requires w.owner.Some? && SlotRegistrations(s, w) && s'.arrays == s.arrays && s'.shards == s.shards
    ensures SlotRegistrations(s', w)
  {
  }

  // Admission with an owner entry.

  lemma ArraysAskHandles(cfg: Config, s: Planner, ask: Option<CacheStep>, key: Key, owner: nat, gate: nat)
    requires Conserved(cfg, s) && HandlesOk(cfg, s) && AskOk(s.arrays, ask, key, owner, gate)
    requires AskCache(s.arrays, ask).watermark == s.arrays.watermark
    ensures HandlesOk(cfg, s.(arrays := AskCache(s.arrays, ask)))
  {
    hide CacheOk, WorkOk;
    if ask.Some? { ArraysKeepHandles(cfg, s, ask.value); }
  }

  /** The state after asking for the array, with entry g's gate fresh. */
  ghost function MetaAsked(s: Planner, g: nat, ask: Option<CacheStep>): Planner
    requires g < |s.gates| && (ask.Some? ==> StepOk(s.arrays, ask.value))
  {
    s.(arrays := AskCache(s.arrays, ask), gates := AskGates(s.arrays, s.gates[g := Gate(0, false)], ask))
  }

  lemma MetaAskedFacts(cfg: Config, s: Planner, i: nat, g: nat, ask: Option<CacheStep>)
    requires Inv(cfg, s) && CanAdmit(cfg, s, i, g, ask)
    ensures !s.owners[g].inUse && g < |s.gates|
    ensures var a := MetaAsked(s, g, ask);
            && HandlesOk(cfg, a) && GatesExact(a) && |a.gates| == |s.gates|
            && (forall k | 0 <= k < |s.gates| && k != g :: a.gates[k] == s.gates[k])
            && (AskResult(s.arrays, ask).status == AGAIN ==> a.gates[g].pending == 0)
            && (AskResult(s.arrays, ask).status == OK ==>
                  Secured(a.arrays, AskResult(s.arrays, ask).handle, cfg.metaKey(s.hand.value), s.hand.value))
  {
    hide WorkOk, Registered, CacheOk, Apply, StepOk, Splits, Concat;
    OwnerIsNew(cfg, s, g);
    var sample, key := s.hand.value, cfg.metaKey(s.hand.value);
    var clean := s.(gates := s.gates[g := Gate(0, false)]);
    forall k: nat | k < |clean.gates| ensures GateExact(clean, k) { assert GateExact(s, k); }
    AskKeeps(s.arrays, clean.gates, ask, key, sample, g);
    ArraysAskHandles(cfg, s, ask, key, sample, g);
    ArrayCounts(clean, AskCache(s.arrays, ask), AskGates(s.arrays, clean.gates, ask));
    forall k | 0 <= k < |s.gates| && k != g ensures MetaAsked(s, g, ask).gates[k] == s.gates[k] {
      AskTouchesOneGate(s.arrays, clean.gates, ask, key, sample, g, k);
    }
  }

  /** Slots other than the new one keep their registrations. */
  lemma MetaAskedRegistrations(cfg: Config, s: Planner, i: nat, g: nat, ask: Option<CacheStep>, k: nat)
    requires Inv(cfg, s) && CanAdmit(cfg, s, i, g, ask) && g < |s.gates| && !s.owners[g].inUse
    requires k < |s.slots| && s.slots[k].owner.Some? && !s.slots[k].phase.Errored?
    ensures s.slots[k].owner != Some(g) && SlotRegistrations(MetaAsked(s, g, ask), s.slots[k])
  {
    hide CacheOk, WorkOk, Registered, StepOk, Apply;
    var w := s.slots[k];
    assert SlotRegistrations(s, w) && s.owners[w.owner.value].inUse;
    forall n: nat | Waits(AskCache(s.arrays, ask), n, w.owner.value) ensures w.meta.index == n {
      AskWaits(s.arrays, ask, cfg.metaKey(s.hand.value), s.hand.value, g, n, w.owner.value);
    }
  }

  lemma NewRegistrations(cfg: Config, s: Planner, i: nat, g: nat, ask: Option<CacheStep>)
    requires Inv(cfg, s) && CanAdmit(cfg, s, i, g, ask) && g < |s.gates| && !s.owners[g].inUse
    requires AskResult(s.arrays, ask).status == OK
    ensures SlotRegistrations(MetaAsked(s, g, ask),
                              Work(PendingMeta, s.hand.value, Some(g), AskResult(s.arrays, ask).handle, None, []))
  {
    hide CacheOk, WorkOk, StepOk, Apply;
    UnusedOwnerIsFree(s, g);
    forall n: nat | Waits(AskCache(s.arrays, ask), n, g) ensures AskResult(s.arrays, ask).handle.index == n {
      AskWaits(s.arrays, ask, cfg.metaKey(s.hand.value), s.hand.value, g, n, g);
      NoneWaits(s.arrays, g, n);
    }
    forall n: nat ensures !Waits(s.shards, n, g) { NoneWaits(s.shards, g, n); }
  }

  /** Giving entry g to the sample that slot i takes on. */
  lemma OwnersTaken(s: Planner, i: nat, g: nat, w: Work, gates: seq<Gate>)
    requires OwnersOk(s) && i < |s.slots| && !Occupied(s.slots[i]) && g < |s.owners| && !s.owners[g].inUse
               && !UsedBySlot(s.slots, g)
    requires Occupied(w) && w.owner == Some(g) && |gates| == |s.gates|
    requires forall k | 0 <= k < |s.gates| && k != g :: gates[k].pending == s.gates[k].pending
    ensures OwnersOk(s.(slots := s.slots[i := w], owners := s.owners[g := Owner(true, w.sample, 1)], gates := gates))
  {
    var s' := s.(slots := s.slots[i := w], owners := s.owners[g := Owner(true, w.sample, 1)], gates := gates);
    forall k: nat | k < |s.slots| ensures s.slots[k].owner != Some(g) {
      assert s.slots[k].owner == Some(g) ==> SlotOwns(s.slots, g, k);
    }
    forall k: nat | k < |s'.owners| && s'.owners[k].refs > 0 ensures UsedBySlot(s'.slots, k) {
      if k == g {
        assert SlotOwns(s'.slots, g, i);
      } else {
        assert UsedBySlot(s.slots, k);
        var j: nat :| SlotOwns(s.slots, k, j);
        assert SlotOwns(s'.slots, k, j);
      }
    }
  }

  lemma AdmitOkKeeps(cfg: Config, s: Planner, i: nat, g: nat, ask: Option<CacheStep>)
    requires Inv(cfg, s) && CanAdmit(cfg, s, i, g, ask) && g < |s.gates| && AskResult(s.arrays, ask).status == OK
    ensures Inv(cfg, Admit(s, i, g, ask))
  {
    hide CacheOk, WorkOk, Registered, StepOk, Apply, SlotRegistrations, SlotsOk, OwnersOk, AskCache, AskGates,
         AskResult, Splits, Concat;
    MetaAskedFacts(cfg, s, i, g, ask);
    var a, s' := MetaAsked(s, g, ask), Admit(s, i, g, ask);
    var w := Work(PendingMeta, s.hand.value, Some(g), AskResult(s.arrays, ask).handle, None, []);
    assert s' == a.(slots := s.slots[i := w], owners := s.owners[g := Owner(true, w.sample, 1)], hand := None);
    UnusedOwnerIsFree(s, g);
    OwnersTaken(s, i, g, w, a.gates);
    assert OwnersOk(s') by { SameOwners(s.(slots := s'.slots, owners := s'.owners, gates := s'.gates), s'); }
    SlotTaken(s.slots, s.nextConsume, Admitted(s), i, w);
    NewWorkOk(cfg, a.arrays, a.shards, w);
    forall k: nat | k < |s'.gates| ensures GateExact(s', k) { assert GateExact(a, k); }
    AdmittedRegistrations(cfg, s, i, g, ask, s');
  }

  lemma SameOwners(s: Planner, s': Planner)
    requires OwnersOk(s) && s'.slots == s.slots && s'.owners == s.owners && s'.gates == s.gates
               && s'.nextConsume == s.nextConsume
    ensures OwnersOk(s')
  {
  }

  lemma NewWorkOk(cfg: Config, arrays: Cache, shards: Cache, w: Work)
    requires w.phase.PendingMeta? && w.keys.None? && w.shards == []
               && Secured(arrays, w.meta, cfg.metaKey(w.sample), w.sample)
    ensures WorkOk(cfg, arrays, shards, w)
  {
  }

  lemma AdmittedRegistrations(cfg: Config, s: Planner, i: nat, g: nat, ask: Option<CacheStep>, s': Planner)
    requires Inv(cfg, s) && CanAdmit(cfg, s, i, g, ask) && g < |s.gates| && !s.owners[g].inUse
    requires s'.arrays == MetaAsked(s, g, ask).arrays && s'.shards == s.shards
    requires |s'.slots| == |s.slots| && (forall k | 0 <= k < |s.slots| && k != i :: s'.slots[k] == s.slots[k])
    requires s'.slots[i].phase.Errored? || s'.slots[i] == s.slots[i]
             || (AskResult(s.arrays, ask).status == OK
                 && s'.slots[i] == Work(PendingMeta, s.hand.value, Some(g), AskResult(s.arrays, ask).handle, None, []))
    ensures RegistrationsOwned(s')
  {
    hide CacheOk, WorkOk, Registered, StepOk, Apply, AskCache, AskResult, AskGates, OwnersOk;
    var a := MetaAsked(s, g, ask);
    forall k | 0 <= k < |s'.slots| && s'.slots[k].owner.Some? && !s'.slots[k].phase.Errored?
      ensures SlotRegistrations(s', s'.slots[k])
    {
      if k != i || s'.slots[i] == s.slots[i] {
        MetaAskedRegistrations(cfg, s, i, g, ask, k);
      } else {
        NewRegistrations(cfg, s, i, g, ask);
      }
      SameWaits(a, s', s'.slots[k]);
    }
  }

  lemma AdmitErrorKeeps(cfg: Config, s: Planner, i: nat, g: nat, ask: Option<CacheStep>)
    requires Inv(cfg, s) && CanAdmit(cfg, s, i, g, ask) && g < |s.gates|
    requires AskResult(s.arrays, ask).status != OK && AskResult(s.arrays, ask).status != AGAIN
    ensures Inv(cfg, Admit(s, i, g, ask))
  {
    hide CacheOk, Registered, StepOk, Apply, SlotRegistrations, SlotsOk, OwnersOk, AskCache, AskGates, AskResult,
         Splits, Concat;
    MetaAskedFacts(cfg, s, i, g, ask);
    var a, s' := MetaAsked(s, g, ask), Admit(s, i, g, ask);
    var w := Work(Errored(AskResult(s.arrays, ask).status), s.hand.value, Some(g), NO_HANDLE, None, []);
    var gates := Fail(a.gates, g);
    assert s' == a.(slots := s.slots[i := w], owners := s.owners[g := Owner(true, w.sample, 1)], hand := None,
                    gates := gates, errored := s.errored + 1);
    UnusedOwnerIsFree(s, g);
    OwnersTaken(s, i, g, w, gates);
    assert OwnersOk(s') by { SameOwners(s.(slots := s'.slots, owners := s'.owners, gates := s'.gates), s'); }
    SlotTaken(s.slots, s.nextConsume, Admitted(s), i, w);
    forall k: nat | k < |s'.gates| ensures GateExact(s', k) { assert GateExact(a, k); }
    AdmittedRegistrations(cfg, s, i, g, ask, s');
  }

  lemma AdmitAgainKeeps(cfg: Config, s: Planner, i: nat, g: nat, ask: Option<CacheStep>)
    requires Inv(cfg, s) && CanAdmit(cfg, s, i, g, ask) && g < |s.gates| && AskResult(s.arrays, ask).status == AGAIN
    ensures Inv(cfg, Admit(s, i, g, ask))
  {
    hide CacheOk, WorkOk, Registered, StepOk, Apply, SlotRegistrations, SlotsOk, AskCache, AskGates, AskResult, Splits,
         Concat;
    MetaAskedFacts(cfg, s, i, g, ask);
    var a, s' := MetaAsked(s, g, ask), Admit(s, i, g, ask);
    assert s' == a.(owners := s.owners[g := Owner(false, s.hand.value, 0)]);
    UnusedOwnerIsFree(s, g);
    forall k: nat | k < |s'.gates| ensures GateExact(s', k) { assert GateExact(a, k); }
    AdmittedRegistrations(cfg, s, i, g, ask, s');
    forall k | 0 <= k < |s.slots| && s.slots[k].owner.Some? ensures s.slots[k].owner.value != g {
      assert SlotOwns(s.slots, s.slots[k].owner.value, k);
    }
  }

  /** Whatever the cache answers, admission keeps everything. */
  lemma AdmitKeeps(cfg: Config, s: Planner, i: nat, g: nat, ask: Option<CacheStep>)
    requires Inv(cfg, s) && CanAdmit(cfg, s, i, g, ask) && g < |s.gates|
    ensures Inv(cfg, Admit(s, i, g, ask))
  {
    hide Inv;
    match AskResult(s.arrays, ask).status
    case OK => AdmitOkKeeps(cfg, s, i, g, ask);
    case AGAIN => AdmitAgainKeeps(cfg, s, i, g, ask);
    case _ => AdmitErrorKeeps(cfg, s, i, g, ask);
  }

  // --- Owner sweep, consumption and planning -------------------------------------------------------------------------

  ghost function Sweep(s: Planner, g: nat): Planner
    requires g < |s.owners|
  {
    s.(owners := s.owners[g := s.owners[g].(inUse := false)])
  }

  /** A swept entry goes to the sample that waits for one. */
  lemma SweptIsFree(cfg: Config, s: Planner, g: nat)
    requires Inv(cfg, s) && s.hand.Some? && g < |s.owners| && s.owners[g].refs == 0 && s.gates[g].pending == 0
    ensures OwnerFor(Sweep(s, g), s.hand.value, Some(g)) && !OwnerFor(Sweep(s, g), s.hand.value, None)
  {
    hide HandlesOk, GatesExact, RegistrationsOwned, Ordered, NoOrphans;
    var s' := Sweep(s, g);
    forall k | 0 <= k < |s'.owners| ensures !(s'.owners[k].inUse && s'.owners[k].id == s.hand.value) {
      OwnerBelow(cfg, s, k);
    }
  }

  lemma SweepKeeps(cfg: Config, s: Planner, g: nat)
    requires Inv(cfg, s) && g < |s.owners| && s.owners[g].refs == 0 && s.gates[g].pending == 0
    ensures Inv(cfg, Sweep(s, g))
  {
    hide CacheOk, WorkOk, Registered, SlotRegistrations, SlotsOk, Splits, Concat;
    var s' := Sweep(s, g);
    forall k: nat | k < |s'.gates| ensures GateExact(s', k) { assert GateExact(s, k); }
    SameRegistrations(s, s');
  }

  lemma SampleUnique(slots: seq<Work>, from: nat, upto: int, i: nat, k: nat)
    requires SlotsOk(slots, from, upto) && i < |slots| && k < |slots| && Occupied(slots[i]) && Occupied(slots[k])
    requires slots[i].sample == slots[k].sample
    ensures i == k
  {
  }

  /** Looking the owner up by sample number finds exactly the slot's entry. */
  lemma OwnerLookup(cfg: Config, s: Planner, i: nat, g: nat)
    requires Conserved(cfg, s) && OwnersOk(s) && i < |s.slots| && Occupied(s.slots[i]) && g < |s.owners|
    ensures s.owners[g].inUse && s.owners[g].id == s.slots[i].sample <==> s.slots[i].owner == Some(g)
  {
    if s.owners[g].inUse && s.owners[g].id == s.slots[i].sample && s.owners[g].refs > 0 {
      assert UsedBySlot(s.slots, g);
      var k: nat :| SlotOwns(s.slots, g, k);
      SampleUnique(s.slots, s.nextConsume, Admitted(s), i, k);
    }
  }

  /** prefetcher_pop_ready and what zarr_next does with the result. An error is returned as the
      status of the call; a caller that reads AGAIN as "not yet" never learns of it. */
  ghost function Consume(s: Planner, i: nat): Planner
    requires i < |s.slots| && Terminal(s.slots[i])
  {
    var w := s.slots[i];
    var freed := s.(slots := s.slots[i := FREE], nextConsume := s.nextConsume + 1);
    var popped :=
        if w.owner.Some? && w.owner.value < |s.owners| && w.owner.value < |s.gates| then Unref(freed, w.owner.value)
            else freed;
    if w.phase.Done? then popped.(staged := s.staged + [w], watermark := w.sample + 1)
    else
      var code := Coded(w.phase.code);
      popped.(dropped := s.dropped + {w.sample},
              swallowed := if code == AGAIN then s.swallowed + {w.sample} else s.swallowed,
              failure := if s.failure == OK && code != AGAIN then code else s.failure)
  }

  ghost predicate CanConsume(cfg: Config, s: Planner, i: nat) {
    i < |s.slots| && Terminal(s.slots[i]) && s.slots[i].sample == s.nextConsume && |s.staged| < cfg.batch
  }

  /** Freeing slot i and dropping its reference, whatever else changes. */
  lemma StillUsed(slots: seq<Work>, i: nat, g: nat)
    requires UsedBySlot(slots, g) && i < |slots| && slots[i].owner != Some(g)
    ensures UsedBySlot(slots[i := FREE], g)
  {
    var j: nat :| SlotOwns(slots, g, j);
    assert SlotOwns(slots[i := FREE], g, j);
  }

  lemma OwnersFreed(s: Planner, i: nat, s': Planner)
    requires OwnersOk(s) && i < |s.slots| && |s.gates| == |s.owners| && s'.gates == s.gates
    requires s'.slots == s.slots[i := FREE] && s'.nextConsume == s.nextConsume + 1
    requires s.slots[i].owner.Some? ==> s.slots[i].sample < s'.nextConsume
    requires s'.owners == if s.slots[i].owner.Some? then Unref(s, s.slots[i].owner.value).owners else s.owners
    ensures OwnersOk(s')
  {
    hide UsedBySlot;
    var w := s.slots[i];
    forall k: nat | k < |s'.owners| && s'.owners[k].refs > 0 ensures UsedBySlot(s'.slots, k) {
      assert UsedBySlot(s.slots, k);
      StillUsed(s.slots, i, k);
    }
    forall k | 0 <= k < |s'.slots| && s'.slots[k].owner.Some? ensures k != i && s'.slots[k].owner != w.owner {
      OwnersApart(s, k, i);
    }
  }

  lemma ConsumeOwners(cfg: Config, s: Planner, i: nat)
    requires Inv(cfg, s) && CanConsume(cfg, s, i)
    ensures OwnersOk(Consume(s, i)) && NoOrphans(Consume(s, i))
  {
    hide CacheOk, WorkOk, Registered, RegistrationsOwned, SlotsOk, OwnersOk, HandlesOk, Conserved, Ordered;
    var w, s' := s.slots[i], Consume(s, i);
    if w.phase.Done? { DoneGateIsZero(cfg, s, i); }
    if w.owner.Some? { OwnerInRange(s, i); }
    OwnersFreed(s, i, s');
  }

  lemma OwnerInRange(s: Planner, i: nat)
    requires OwnersOk(s) && i < |s.slots| && s.slots[i].owner.Some?
    ensures s.slots[i].owner.value < |s.owners|
    ensures s.owners[s.slots[i].owner.value] == Owner(true, s.slots[i].sample, 1)
  {
  }

  lemma ConsumeConserved(cfg: Config, s: Planner, i: nat)
    requires Conserved(cfg, s) && CanConsume(cfg, s, i)
    ensures Conserved(cfg, Consume(s, i))
  {
    hide SlotsOk;
    SampleBounds(s.slots, s.nextConsume, Admitted(s), i);
    SlotFreed(s.slots, s.nextConsume, Admitted(s), i);
  }

  lemma SampleBounds(slots: seq<Work>, from: nat, upto: int, i: nat)
    requires SlotsOk(slots, from, upto) && i < |slots| && Occupied(slots[i])
    ensures from <= slots[i].sample < upto
  {
  }

  lemma ConsumeOrdered(cfg: Config, s: Planner, i: nat)
    requires Ordered(cfg, s) && CanConsume(cfg, s, i)
    ensures Ordered(cfg, Consume(s, i))
  {
    hide Splits, Concat;
    var w, s' := s.slots[i], Consume(s, i);
    if w.phase.Done? {
      SplitsTake(Delivered(s), s.dropped, s.nextConsume);
      assert Samples(s'.staged) == Samples(s.staged) + [w.sample];
      assert Delivered(s') == Delivered(s) + [s.nextConsume];
    } else {
      NextIsNew(s);
      SplitsSkip(Delivered(s), s.dropped, s.nextConsume);
    }
  }

  lemma NextIsNew(s: Planner)
    requires Splits(Delivered(s), s.dropped, s.nextConsume)
    ensures s.nextConsume !in s.dropped
  {
  }

  lemma ConsumeKeeps(cfg: Config, s: Planner, i: nat)
    requires Inv(cfg, s) && CanConsume(cfg, s, i)
    ensures Inv(cfg, Consume(s, i))
  {
    hide CacheOk, WorkOk, Registered, SlotRegistrations, SlotsOk, OwnersOk, NoOrphans, Conserved, Ordered, HandlesOk,
         RegistrationsOwned;
    var s' := Consume(s, i);
    ConsumeConserved(cfg, s, i);
    ConsumeOrdered(cfg, s, i);
    ConsumeOwners(cfg, s, i);
    forall k: nat | k < |s'.gates| ensures GateExact(s', k) { assert GateExact(s, k); }
    ConsumeRegistrations(s, s', i);
    ConsumeHandles(cfg, s, i);
  }

  lemma ConsumeRegistrations(s: Planner, s': Planner, i: nat)
    requires RegistrationsOwned(s) && i < |s.slots| && s'.slots == s.slots[i := FREE] && s'.arrays == s.arrays
               && s'.shards == s.shards
    ensures RegistrationsOwned(s')
  {
    forall k | 0 <= k < |s'.slots| && s'.slots[k].owner.Some? && !s'.slots[k].phase.Errored?
      ensures SlotRegistrations(s', s'.slots[k])
    {
      assert SlotRegistrations(s, s.slots[k]);
      SameWaits(s, s', s.slots[k]);
    }
  }

  lemma ConsumeHandles(cfg: Config, s: Planner, i: nat)
    requires HandlesOk(cfg, s) && CanConsume(cfg, s, i)
    ensures HandlesOk(cfg, Consume(s, i))
  {
    hide CacheOk, WorkOk;
    var s' := Consume(s, i);
    assert s'.arrays == s.arrays && s'.shards == s.shards;
    forall k | 0 <= k < |s'.slots| ensures WorkOk(cfg, s'.arrays, s'.shards, s'.slots[k]) {
      if k == i { FreeWorkOk(cfg, s.arrays, s.shards); } else { assert s'.slots[k] == s.slots[k]; }
    }
    forall k | 0 <= k < |s'.staged| ensures StagedOk(cfg, s'.arrays, s'.shards, s'.staged[k]) {
      if k < |s.staged| { assert s'.staged[k] == s.staged[k]; } else { assert s'.staged[k] == s.slots[i]; }
    }
  }

  lemma FreeWorkOk(cfg: Config, arrays: Cache, shards: Cache)
    ensures WorkOk(cfg, arrays, shards, FREE)
  {
  }

  /** The plan of a full batch is built, or fails to be, and its samples are let go. */
  ghost function Build(cfg: Config, s: Planner, status: Status): Planner {
    var rows := Samples(s.staged);
    var built := s.(planned := s.planned + |s.staged|, staged := [],
                    arrays := Raised(s.arrays, s.watermark), shards := Raised(s.shards, s.watermark));
    if status == OK then built.(batches := s.batches + [rows])
    else built.(dropped := s.dropped + (set k | k in rows), wasted := s.wasted + |rows|,
                failure := if s.failure == OK then status else s.failure)
  }

  lemma BuildHandles(cfg: Config, s: Planner, status: Status)
    requires Conserved(cfg, s) && HandlesOk(cfg, s)
    ensures HandlesOk(cfg, Build(cfg, s, status))
  {
    hide CacheOk, WorkOk;
    var s' := Build(cfg, s, status);
    RaisedKeeps(s.arrays, s.watermark);
    RaisedKeeps(s.shards, s.watermark);
    forall i | 0 <= i < |s.slots| ensures WorkOk(cfg, s'.arrays, s'.shards, s.slots[i]) {
      ArrayStepKeepsWork(cfg, s.arrays, AdvanceStep(s.watermark), s.shards, s.slots[i]);
      ShardStepKeepsWork(cfg, s'.arrays, s.shards, AdvanceStep(s.watermark), s.slots[i]);
    }
  }

  lemma BuildOrder(cfg: Config, s: Planner, status: Status)
    requires Ordered(cfg, s) && |s.staged| == cfg.batch
    ensures Ordered(cfg, Build(cfg, s, status))
  {
    if status == OK { BuiltOrder(cfg, s); } else { LostOrder(cfg, s, status); }
  }

  lemma BuiltOrder(cfg: Config, s: Planner)
    requires Ordered(cfg, s) && |s.staged| == cfg.batch
    ensures Ordered(cfg, Build(cfg, s, OK))
  {
    hide Splits, Concat, Raised;
    var rows, s' := Samples(s.staged), Build(cfg, s, OK);
    ConcatSnoc(s.batches, rows);
    assert Delivered(s') == Delivered(s);
    assert (|s.batches| + 1) * cfg.batch == |s.batches| * cfg.batch + cfg.batch;
  }

  lemma LostOrder(cfg: Config, s: Planner, status: Status)
    requires Ordered(cfg, s) && |s.staged| == cfg.batch && status != OK
    ensures Ordered(cfg, Build(cfg, s, status))
  {
    hide Splits, Concat, Raised;
    var rows, s' := Samples(s.staged), Build(cfg, s, status);
    SplitsLose(Concat(s.batches), rows, s.dropped, s.nextConsume);
    assert Delivered(s') == Concat(s.batches);
  }

  lemma BuildKeeps(cfg: Config, s: Planner, status: Status)
    requires Inv(cfg, s) && |s.staged| == cfg.batch
    ensures Inv(cfg, Build(cfg, s, status))
  {
    hide CacheOk, WorkOk, Registered, SlotsOk, Raised, Ordered, SlotRegistrations;
    var s' := Build(cfg, s, status);
    BuildHandles(cfg, s, status);
    BuildOrder(cfg, s, status);
    RaisedKeeps(s.arrays, s.watermark);
    RaisedKeeps(s.shards, s.watermark);
    forall k: nat | k < |s'.gates| ensures GateExact(s', k) { assert GateExact(s, k); }
    forall i | 0 <= i < |s.slots| && s.slots[i].owner.Some? && !s.slots[i].phase.Errored?
      ensures SlotRegistrations(s', s.slots[i])
    {
      RaisedRegistrations(s, s', s.slots[i]);
    }
  }

  /** A pinned entry is unfinished or belongs to a sample at or above the watermark. */
  ghost predicate PinsNeeded(c: Cache) {
    forall i: nat | Holds(c, i) && c.active[i].value.pinned ::
        c.active[i].value.state.Pending? || c.active[i].value.maxOwner >= c.watermark
  }

  /** Every built batch moves the watermarks past its samples, so both caches let go of all
      entries that only planned samples wanted. */
  lemma BuildReleasesPins(cfg: Config, s: Planner, status: Status)
    requires Inv(cfg, s) && |s.staged| == cfg.batch
    ensures var s' := Build(cfg, s, status);
            && s'.arrays.watermark == s'.shards.watermark == s.watermark
            && (forall k | 0 <= k < |s.staged| ::
                s.arrays.watermark <= s.staged[k].sample && s.shards.watermark <= s.staged[k].sample)
            && s.staged[|s.staged| - 1].sample < s.watermark
            && PinsNeeded(s'.arrays) && PinsNeeded(s'.shards)
  {
    hide CacheOk, WorkOk, Registered, SlotsOk, InRows, SlotRegistrations, GatesExact, OwnersOk, Splits, Concat;
    forall k | 0 <= k < |s.staged|
      ensures s.arrays.watermark <= s.staged[k].sample && s.shards.watermark <= s.staged[k].sample
    {
      assert StagedOk(cfg, s.arrays, s.shards, s.staged[k]);
    }
  }

  lemma RaisedRegistrations(s: Planner, s': Planner, w: Work)
    requires w.owner.Some? && SlotRegistrations(s, w)
    requires s'.arrays == Raised(s.arrays, s.watermark) && s'.shards == Raised(s.shards, s.watermark)
    ensures SlotRegistrations(s', w)
  {
    var g := w.owner.value;
    forall k: nat | Waits(s'.arrays, k, g) ensures w.meta.index == k { RaisedWaits(s.arrays, s.watermark, k, g); }
    forall k: nat | Waits(s'.shards, k, g) ensures HasIndex(w.shards, k) { RaisedWaits(s.shards, s.watermark, k, g); }
  }

  // --- Runs ----------------------------------------------------------------------------------------------------------

  datatype Step =
    | PushStep
    | TakeStep
    | AdmitWithoutStep(slot: nat)
    | AdmitStep(slot: nat, owner: nat, ask: Option<CacheStep>)
    | EnumerateStep(slot: nat, oom: bool)
    | AskShardStep(slot: nat, ask: Option<CacheStep>)
    | ShardsAskedStep(slot: nat)
    | CheckShardsStep(slot: nat)
    | SweepStep(owner: nat)
    | ArrayDoneStep(handle: Handle, outcome: FetchState)
    | ShardFetchedStep(handle: Handle, outcome: FetchState)
    | ConsumeStep(slot: nat)
    | BuildStep(status: Status)

  ghost predicate Enabled(cfg: Config, s: Planner, step: Step) {
    match step
    case PushStep => s.pushed - s.nextConsume < cfg.lookahead
    case TakeStep => s.hand.None? && s.queue != []
    case AdmitWithoutStep(i) => s.hand.Some? && i < |s.slots| && !Occupied(s.slots[i])
        && OwnerFor(s, s.hand.value, None)
    case AdmitStep(i, g, ask) => CanAdmit(cfg, s, i, g, ask) && g < |s.gates|
    case EnumerateStep(i, _) => i < |s.slots| && s.slots[i].phase.PendingMeta? && s.slots[i].keys.None?
    case AskShardStep(i, ask) => CanAskShard(s, i, ask)
    case ShardsAskedStep(i) =>
      i < |s.slots| && s.slots[i].phase.PendingMeta? && s.slots[i].keys.Some?
        && |s.slots[i].shards| == |s.slots[i].keys.value|
    case CheckShardsStep(i) => i < |s.slots| && s.slots[i].phase.PendingShards?
    case SweepStep(g) => g < |s.owners| && g < |s.gates| && s.owners[g].refs == 0 && s.gates[g].pending == 0
    case ArrayDoneStep(_, outcome) => !outcome.Pending?
    case ShardFetchedStep(_, outcome) => !outcome.Pending?
    case ConsumeStep(i) => CanConsume(cfg, s, i)
    case BuildStep(status) => |s.staged| == cfg.batch && !BuildWaits(s) && status != AGAIN
  }

  ghost function Do(cfg: Config, s: Planner, step: Step): Planner
    requires Enabled(cfg, s, step)
  {
    match step
    case PushStep => Push(s)
    case TakeStep => Take(s)
    case AdmitWithoutStep(i) => AdmitWithout(s, i)
    case AdmitStep(i, g, ask) => Admit(s, i, g, ask)
    case EnumerateStep(i, oom) => Enumerate(cfg, s, i, oom)
    case AskShardStep(i, ask) => AskShard(s, i, ask)
    case ShardsAskedStep(i) => ShardsAsked(s, i)
    case CheckShardsStep(i) => CheckShards(s, i)
    case SweepStep(g) => Sweep(s, g)
    case ArrayDoneStep(h, outcome) => ArrayDone(s, h, outcome)
    case ShardFetchedStep(h, outcome) => ShardFetched(s, h, outcome)
    case ConsumeStep(i) => Consume(s, i)
    case BuildStep(status) => Build(cfg, s, status)
  }

  lemma StepKeepsInv(cfg: Config, s: Planner, step: Step)
    requires Inv(cfg, s) && Enabled(cfg, s, step)
    ensures Inv(cfg, Do(cfg, s, step))
  {
    hide Conserved, Ordered, HandlesOk, GatesExact, OwnersOk, RegistrationsOwned, NoOrphans;
    match step
    case PushStep => PushKeeps(cfg, s);
    case TakeStep => TakeKeeps(cfg, s);
    case AdmitWithoutStep(i) => AdmitWithoutKeeps(cfg, s, i);
    case AdmitStep(i, g, ask) => AdmitKeeps(cfg, s, i, g, ask);
    case EnumerateStep(i, oom) => EnumerateKeeps(cfg, s, i, oom);
    case AskShardStep(i, ask) => AskShardKeeps(cfg, s, i, ask);
    case ShardsAskedStep(i) => ShardsAskedKeeps(cfg, s, i);
    case CheckShardsStep(i) => CheckShardsKeeps(cfg, s, i);
    case SweepStep(g) => SweepKeeps(cfg, s, g);
    case ArrayDoneStep(h, outcome) => ArrayDoneKeeps(cfg, s, h, outcome);
    case ShardFetchedStep(h, outcome) => ShardFetchedKeeps(cfg, s, h, outcome);
    case ConsumeStep(i) => ConsumeKeeps(cfg, s, i);
    case BuildStep(status) => BuildKeeps(cfg, s, status);
  }

  ghost function Empty(capacity: nat): Cache { Cache(seq(capacity, _ => None), 0, 0) }

  ghost function Initial(cfg: Config, arrays: nat, shards: nat): Planner {
    Planner([], None, seq(cfg.lookahead, _ => FREE), seq(cfg.lookahead + 4, _ => Owner(false, 0, 0)),
            seq(cfg.lookahead + 4, _ => Gate(0, false)), Empty(arrays), Empty(shards),
            0, 0, [], 0, 0, [], 0, {}, {}, 0, OK)
  }

  lemma {:induction false} EmptyRegistered(capacity: nat, g: nat)
    ensures Registered(Empty(capacity).active, g) == 0
  {
    RegisteredNone(Empty(capacity).active, g);
  }

  lemma InitialInv(cfg: Config, arrays: nat, shards: nat)
    requires cfg.batch > 0
    ensures Inv(cfg, Initial(cfg, arrays, shards))
    ensures var s := Initial(cfg, arrays, shards);
            s.pushed == 0 && s.failure == OK && forall g | 0 <= g < |s.gates| :: !s.gates[g].error
  {
    var s := Initial(cfg, arrays, shards);
    forall g: nat | g < |s.gates| ensures GateExact(s, g) {
      EmptyRegistered(arrays, g);
      EmptyRegistered(shards, g);
    }
  }

  ghost predicate RunFrom(cfg: Config, s: Planner, run: seq<Step>)
    decreases |run|
  {
    run == [] || (Enabled(cfg, s, run[0]) && RunFrom(cfg, Do(cfg, s, run[0]), run[1..]))
  }

  ghost function EndOf(cfg: Config, s: Planner, run: seq<Step>): Planner
    requires RunFrom(cfg, s, run)
    decreases |run|
  {
    if run == [] then s else EndOf(cfg, Do(cfg, s, run[0]), run[1..])
  }

  lemma {:induction false} RunKeepsInv(cfg: Config, s: Planner, run: seq<Step>)
    requires Inv(cfg, s) && RunFrom(cfg, s, run)
    ensures Inv(cfg, EndOf(cfg, s, run))
    decreases |run|
  {
    hide Inv, Enabled, Do;
    if run != [] {
      StepKeepsInv(cfg, s, run[0]);
      RunKeepsInv(cfg, Do(cfg, s, run[0]), run[1..]);
    }
  }
}
