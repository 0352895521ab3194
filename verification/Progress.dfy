/** Progress of the prefetcher and the planner: with caches as large as start-up demands no request
    is ever refused for good, and every pushed sample can be planned. */
module Progress {
  import opened Statuses
  import opened Seqs
  import opened Arith
  import opened PrefetchCaches
  import opened Prefetchers
  import opened Delivery

  // --- Who holds the pins ---------------------------------------------------------------------------

  /** The samples that may hold pins: those in slots and those staged. */
  ghost function Live(s: Planner): (live: seq<Work>)
    ensures |live| == |s.slots| + |s.staged|
  {
    s.slots + s.staged
  }

  /** Entry i is pinned for the p-th live sample, whose array it is. */
  ghost predicate ArrayPin(live: seq<Work>, e: Entry, i: nat, p: nat) {
    && p < |live| && Occupied(live[p])
    && live[p].sample == e.maxOwner && live[p].meta == Handle(i, e.generation)
  }

  /** Entry i is pinned for the p-th live sample, as its k-th shard. */
  ghost predicate ShardPin(live: seq<Work>, e: Entry, i: nat, p: nat, k: nat) {
    && p < |live| && Occupied(live[p]) && k < |live[p].shards|
    && live[p].sample == e.maxOwner && live[p].shards[k] == Handle(i, e.generation)
  }

  ghost predicate ArrayPinned(live: seq<Work>, e: Entry, i: nat) {
    exists p: nat :: ArrayPin(live, e, i, p)
  }

  ghost predicate ShardPinned(live: seq<Work>, e: Entry, i: nat) {
    exists p: nat, k: nat :: ShardPin(live, e, i, p, k)
  }

  ghost predicate Pins(c: Cache, i: nat) {
    Holds(c, i) && c.active[i].value.pinned
  }

  /** Every pinned entry is pinned for its highest owner, which is live and has its handle. */
  ghost predicate PinsOwned(s: Planner) {
    && (forall i: nat | Pins(s.arrays, i) :: ArrayPinned(Live(s), s.arrays.active[i].value, i))
    && (forall i: nat | Pins(s.shards, i) :: ShardPinned(Live(s), s.shards.active[i].value, i))
  }

  /** The sample keeps its handles. */
  ghost predicate Carries(w: Work, w': Work) {
    Occupied(w') && w'.sample == w.sample && w'.meta == w.meta && w.shards <= w'.shards
  }

  ghost predicate CarriedTo(live': seq<Work>, w: Work) {
    exists q: nat :: q < |live'| && Carries(w, live'[q])
  }

  ghost predicate Carried(live: seq<Work>, live': seq<Work>) {
    forall p | 0 <= p < |live| && Occupied(live[p]) :: CarriedTo(live', live[p])
  }

  lemma ArrayPinCarried(live: seq<Work>, live': seq<Work>, e: Entry, i: nat)
    requires ArrayPinned(live, e, i) && Carried(live, live')
    ensures ArrayPinned(live', e, i)
  {
    var p: nat :| ArrayPin(live, e, i, p);
    assert CarriedTo(live', live[p]);
    var q: nat :| q < |live'| && Carries(live[p], live'[q]);
    assert ArrayPin(live', e, i, q);
  }

  lemma ShardPinCarried(live: seq<Work>, live': seq<Work>, e: Entry, i: nat)
    requires ShardPinned(live, e, i) && Carried(live, live')
    ensures ShardPinned(live', e, i)
  {
    var p: nat, k: nat :| ShardPin(live, e, i, p, k);
    assert CarriedTo(live', live[p]);
    var q: nat :| q < |live'| && Carries(live[p], live'[q]);
    assert ShardPin(live', e, i, q, k);
  }

  /** Pinned entries of c' were pinned before, for the same owner. */
  ghost predicate PinsKept(c: Cache, c': Cache) {
    forall i: nat | Pins(c', i) :: PinKept(c, c', i)
  }

  ghost predicate PinKept(c: Cache, c': Cache, i: nat)
    requires Pins(c', i)
  {
    && Pins(c, i) && c'.active[i].value.maxOwner == c.active[i].value.maxOwner
    && c'.active[i].value.generation == c.active[i].value.generation
  }

  lemma SamePin(live: seq<Work>, e: Entry, e': Entry, i: nat)
    requires e'.maxOwner == e.maxOwner && e'.generation == e.generation
    ensures ArrayPinned(live, e, i) ==> ArrayPinned(live, e', i)
    ensures ShardPinned(live, e, i) ==> ShardPinned(live, e', i)
  {
    if ArrayPinned(live, e, i) {
      var p: nat :| ArrayPin(live, e, i, p);
      assert ArrayPin(live, e', i, p);
    }
    if ShardPinned(live, e, i) {
      var p: nat, k: nat :| ShardPin(live, e, i, p, k);
      assert ShardPin(live, e', i, p, k);
    }
  }

  /** Steps that pin nothing and let no live sample go. */
  lemma PinsCarried(s: Planner, s': Planner)
    requires PinsOwned(s) && Carried(Live(s), Live(s')) && PinsKept(s.arrays, s'.arrays)
               && PinsKept(s.shards, s'.shards)
    ensures PinsOwned(s')
  {
    hide Carried, ArrayPinned, ShardPinned, Live;
    forall i: nat | Pins(s'.arrays, i) ensures ArrayPinned(Live(s'), s'.arrays.active[i].value, i) {
      assert PinKept(s.arrays, s'.arrays, i);
      ArrayPinCarried(Live(s), Live(s'), s.arrays.active[i].value, i);
      SamePin(Live(s'), s.arrays.active[i].value, s'.arrays.active[i].value, i);
    }
    forall i: nat | Pins(s'.shards, i) ensures ShardPinned(Live(s'), s'.shards.active[i].value, i) {
      assert PinKept(s.shards, s'.shards, i);
      ShardPinCarried(Live(s), Live(s'), s.shards.active[i].value, i);
      SamePin(Live(s'), s.shards.active[i].value, s'.shards.active[i].value, i);
    }
  }

  lemma SamePins(c: Cache)
    ensures PinsKept(c, c)
  {
  }

  /** One slot changes and its sample keeps its handles. */
  lemma SlotCarried(s: Planner, i: nat, w: Work, s': Planner)
    requires i < |s.slots| && s'.slots == s.slots[i := w] && s'.staged == s.staged
    requires Occupied(s.slots[i]) ==> Carries(s.slots[i], w)
    ensures Carried(Live(s), Live(s'))
  {
    var live, live' := Live(s), Live(s');
    forall p | 0 <= p < |live| && Occupied(live[p]) ensures CarriedTo(live', live[p]) {
      assert live'[p] == if p == i then w else live[p];
      assert Carries(live[p], live'[p]);
    }
  }

  lemma SameCarried(s: Planner, s': Planner)
    requires s'.slots == s.slots && s'.staged == s.staged
    ensures Carried(Live(s), Live(s'))
  {
    forall p | 0 <= p < |Live(s)| && Occupied(Live(s)[p]) ensures CarriedTo(Live(s'), Live(s)[p]) {
      assert Carries(Live(s)[p], Live(s')[p]);
    }
  }

  lemma CompletePins(c: Cache, h: Handle, outcome: FetchState)
    ensures PinsKept(c, Complete(c, h, outcome))
  {
  }

  lemma EvictPins(c: Cache, victims: set<nat>, generation: nat)
    ensures PinsKept(c, Evict(c, victims).(generation := generation))
  {
    var c' := Evict(c, victims).(generation := generation);
    forall i: nat | Pins(c', i) ensures PinKept(c, c', i) { }
  }

  /** A request that works pins its entry for the owner, or leaves it to a higher one. */
  lemma AskPins(c: Cache, ask: Option<CacheStep>, key: Key, owner: nat, gate: nat, i: nat)
    requires CacheOk(c) && AskOk(c, ask, key, owner, gate) && AskWorks(ask) && AskResult(c, ask).status == OK
    requires c.watermark <= owner && Pins(AskCache(c, ask), i)
    ensures var c', h := AskCache(c, ask), AskResult(c, ask).handle;
            || (h == Handle(i, c'.active[i].value.generation) && c'.active[i].value.maxOwner == owner)
            || PinKept(c, c', i)
  {
    if ask.value.HitStep? {
      assert Holds(c, ask.value.index);
    }
  }

  lemma AdmitPins(cfg: Config, s: Planner, i: nat, g: nat, ask: Option<CacheStep>)
    requires Inv(cfg, s) && PinsOwned(s) && CanAdmit(cfg, s, i, g, ask) && g < |s.gates| && AskWorks(ask)
    ensures PinsOwned(Admit(s, i, g, ask))
  {
    hide CacheOk, WorkOk, Ordered, GatesExact, OwnersOk, RegistrationsOwned, SlotsOk, StepOk, Apply, PinsOwned,
         PinsKept;
    var s' := Admit(s, i, g, ask);
    AskSucceeds(s.arrays, ask, cfg.metaKey(s.hand.value), s.hand.value, g);
    if AskResult(s.arrays, ask).status == AGAIN {
      SamePins(s.shards);
      SameCarried(s, s');
      AgainPins(s.arrays, ask);
      PinsCarried(s, s');
    } else {
      AdmitOkPins(cfg, s, i, g, ask);
    }
  }

  lemma AdmitOkPins(cfg: Config, s: Planner, i: nat, g: nat, ask: Option<CacheStep>)
    requires Inv(cfg, s) && PinsOwned(s) && CanAdmit(cfg, s, i, g, ask) && g < |s.gates| && AskWorks(ask)
    requires AskResult(s.arrays, ask).status == OK
    ensures PinsOwned(Admit(s, i, g, ask))
  {
    hide CacheOk, WorkOk, Ordered, GatesExact, OwnersOk, RegistrationsOwned, SlotsOk, StepOk, Apply, AskCache,
         AskResult;
    hide ArrayPinned, ShardPinned, Carried;
    var s', h := Admit(s, i, g, ask), AskResult(s.arrays, ask).handle;
    var w := s'.slots[i];
    SlotCarried(s, i, w, s');
    forall k: nat | Pins(s'.shards, k) ensures ShardPinned(Live(s'), s'.shards.active[k].value, k) {
      ShardPinCarried(Live(s), Live(s'), s.shards.active[k].value, k);
    }
    forall k: nat | Pins(s'.arrays, k) ensures ArrayPinned(Live(s'), s'.arrays.active[k].value, k) {
      AskPins(s.arrays, ask, cfg.metaKey(s.hand.value), s.hand.value, g, k);
      if h == Handle(k, s'.arrays.active[k].value.generation) && s'.arrays.active[k].value.maxOwner == w.sample {
        NewArrayPin(Live(s'), s'.arrays.active[k].value, k, i);
      } else {
        assert PinKept(s.arrays, s'.arrays, k);
        ArrayPinCarried(Live(s), Live(s'), s.arrays.active[k].value, k);
        SamePin(Live(s'), s.arrays.active[k].value, s'.arrays.active[k].value, k);
      }
    }
  }

  lemma NewArrayPin(live: seq<Work>, e: Entry, i: nat, p: nat)
    requires ArrayPin(live, e, i, p)
    ensures ArrayPinned(live, e, i)
  {
  }

  lemma NewShardPin(live: seq<Work>, e: Entry, i: nat, p: nat, k: nat)
    requires ShardPin(live, e, i, p, k)
    ensures ShardPinned(live, e, i)
  {
  }

  lemma AskShardPins(cfg: Config, s: Planner, i: nat, ask: Option<CacheStep>)
    requires Inv(cfg, s) && PinsOwned(s) && CanAskShard(s, i, ask) && AskWorks(ask)
    ensures PinsOwned(AskShard(s, i, ask))
  {
    hide CacheOk, WorkOk, Ordered, GatesExact, OwnersOk, RegistrationsOwned, SlotsOk, StepOk, Apply, PinsOwned,
         PinsKept;
    var w, s' := s.slots[i], AskShard(s, i, ask);
    AskSucceeds(s.shards, ask, w.keys.value[|w.shards|], w.sample, w.owner.value);
    if AskResult(s.shards, ask).status == AGAIN {
      SamePins(s.arrays);
      SameCarried(s, s');
      AgainPins(s.shards, ask);
      PinsCarried(s, s');
    } else {
      AskShardOkPins(cfg, s, i, ask);
    }
  }

  lemma AskShardOkPins(cfg: Config, s: Planner, i: nat, ask: Option<CacheStep>)
    requires Inv(cfg, s) && PinsOwned(s) && CanAskShard(s, i, ask) && AskWorks(ask)
               && AskResult(s.shards, ask).status == OK
    ensures PinsOwned(AskShard(s, i, ask))
  {
    hide CacheOk, WorkOk, Ordered, GatesExact, OwnersOk, RegistrationsOwned, SlotsOk, StepOk, Apply, AskCache,
         AskResult;
    hide ArrayPinned, ShardPinned, Carried;
    var w, s', h := s.slots[i], AskShard(s, i, ask), AskResult(s.shards, ask).handle;
    SampleBounds(s.slots, s.nextConsume, Admitted(s), i);
    SlotCarried(s, i, s'.slots[i], s');
    forall k: nat | Pins(s'.arrays, k) ensures ArrayPinned(Live(s'), s'.arrays.active[k].value, k) {
      ArrayPinCarried(Live(s), Live(s'), s.arrays.active[k].value, k);
    }
    forall k: nat | Pins(s'.shards, k) ensures ShardPinned(Live(s'), s'.shards.active[k].value, k) {
      AskPins(s.shards, ask, w.keys.value[|w.shards|], w.sample, w.owner.value, k);
      if h == Handle(k, s'.shards.active[k].value.generation) && s'.shards.active[k].value.maxOwner == w.sample {
        NewShardPin(Live(s'), s'.shards.active[k].value, k, i, |w.shards|);
      } else {
        assert PinKept(s.shards, s'.shards, k);
        ShardPinCarried(Live(s), Live(s'), s.shards.active[k].value, k);
        SamePin(Live(s'), s.shards.active[k].value, s'.shards.active[k].value, k);
      }
    }
  }

  lemma SlotPins(s: Planner, i: nat, s': Planner)
    requires PinsOwned(s) && i < |s.slots| && Occupied(s.slots[i]) && |s'.slots| == |s.slots|
    requires s'.slots == s.slots[i := s'.slots[i]] && Carries(s.slots[i], s'.slots[i])
    requires s'.staged == s.staged && s'.arrays == s.arrays && s'.shards == s.shards
    ensures PinsOwned(s')
  {
    hide PinsOwned, PinsKept, Carried;
    SamePins(s.arrays);
    SamePins(s.shards);
    SlotCarried(s, i, s'.slots[i], s');
    PinsCarried(s, s');
  }

  lemma EnumeratePins(cfg: Config, s: Planner, i: nat, oom: bool)
    requires PinsOwned(s) && i < |s.slots| && Occupied(s.slots[i])
    ensures PinsOwned(Enumerate(cfg, s, i, oom))
  {
    hide PinsOwned, Query, Fail;
    var s' := Enumerate(cfg, s, i, oom);
    assert s'.slots == s.slots[i := s'.slots[i]];
    SlotPins(s, i, s');
  }

  lemma SlotStepPins(s: Planner, i: nat)
    requires PinsOwned(s) && i < |s.slots| && Occupied(s.slots[i])
    ensures PinsOwned(CheckShards(s, i)) && PinsOwned(ShardsAsked(s, i))
  {
    hide PinsOwned, Query, Fail;
    var s' := CheckShards(s, i);
    assert s'.slots == s.slots[i := s'.slots[i]];
    SlotPins(s, i, s');
    SlotPins(s, i, ShardsAsked(s, i));
  }

  lemma DonePins(s: Planner, h: Handle, outcome: FetchState)
    requires PinsOwned(s)
    ensures PinsOwned(ArrayDone(s, h, outcome)) && PinsOwned(ShardFetched(s, h, outcome))
  {
    hide PinsOwned, PinsKept, Carried, Complete, CompleteGates;
    SamePins(s.arrays);
    SamePins(s.shards);
    CompletePins(s.arrays, h, outcome);
    CompletePins(s.shards, h, outcome);
    SameCarried(s, ArrayDone(s, h, outcome));
    SameCarried(s, ShardFetched(s, h, outcome));
    PinsCarried(s, ArrayDone(s, h, outcome));
    PinsCarried(s, ShardFetched(s, h, outcome));
  }

  /** The consumed sample goes from its slot to the end of the staging area. */
  lemma ConsumePins(s: Planner, i: nat)
    requires PinsOwned(s) && i < |s.slots| && s.slots[i].phase.Done?
    ensures PinsOwned(Consume(s, i))
  {
    hide PinsOwned, PinsKept;
    var s' := Consume(s, i);
    var live, live' := Live(s), Live(s');
    forall p | 0 <= p < |live| && Occupied(live[p]) ensures CarriedTo(live', live[p]) {
      var q := if p == i then |live| else p;
      assert live'[q] == live[p];
      assert Carries(live[p], live'[q]);
    }
    SamePins(s.arrays);
    SamePins(s.shards);
    PinsCarried(s, s');
  }

  // --- Building a batch lets its pins go ------------------------------------------------------------------

  lemma StagedBelow(cfg: Config, s: Planner, k: nat)
    requires Ordered(cfg, s) && HandlesOk(cfg, s) && k < |s.staged|
    ensures s.staged[k].sample < s.watermark
    ensures Query(s.arrays, s.staged[k].meta).Ready? && AllShardsDone(s.shards, s.staged[k])
  {
    hide CacheOk;
    assert StagedOk(cfg, s.arrays, s.shards, s.staged[k]);
    var n := |Concat(s.batches)|;
    assert Delivered(s)[n + k] == s.staged[k].sample;
    assert Delivered(s)[n + |s.staged| - 1] == s.staged[|s.staged| - 1].sample;
  }

  lemma RaisedPins(c: Cache, watermark: nat, i: nat)
    requires c.watermark < watermark && Pins(Raised(c, watermark), i)
    ensures PinKept(c, Raised(c, watermark), i)
    ensures c.active[i].value.state.Pending? || c.active[i].value.maxOwner >= watermark
  {
  }

  lemma BuildPins(cfg: Config, s: Planner)
    requires Inv(cfg, s) && PinsOwned(s) && |s.staged| == cfg.batch
    ensures PinsOwned(Build(cfg, s, OK))
  {
    hide CacheOk, WorkOk, GatesExact, OwnersOk, RegistrationsOwned, SlotsOk, Raised, ArrayPinned, ShardPinned;
    var s' := Build(cfg, s, OK);
    BuildReleasesPins(cfg, s, OK);
    assert Live(s') == s.slots;
    forall i: nat | Pins(s'.arrays, i) ensures ArrayPinned(Live(s'), s'.arrays.active[i].value, i) {
      RaisedPins(s.arrays, s.watermark, i);
      ArrayPinInSlot(cfg, s, i);
      SamePin(s.slots, s.arrays.active[i].value, s'.arrays.active[i].value, i);
    }
    forall i: nat | Pins(s'.shards, i) ensures ShardPinned(Live(s'), s'.shards.active[i].value, i) {
      RaisedPins(s.shards, s.watermark, i);
      ShardPinInSlot(cfg, s, i);
      SamePin(s.slots, s.shards.active[i].value, s'.shards.active[i].value, i);
    }
  }

  /** A staged sample's array is fetched and its number is below the watermark. */
  lemma ArrayPinInSlot(cfg: Config, s: Planner, i: nat)
    requires Ordered(cfg, s) && HandlesOk(cfg, s) && Pins(s.arrays, i)
    requires ArrayPinned(Live(s), s.arrays.active[i].value, i)
    requires s.arrays.active[i].value.state.Pending? || s.arrays.active[i].value.maxOwner >= s.watermark
    ensures ArrayPinned(s.slots, s.arrays.active[i].value, i)
  {
    var e := s.arrays.active[i].value;
    var p: nat :| ArrayPin(Live(s), e, i, p);
    if p >= |s.slots| {
      var k := p - |s.slots|;
      StagedBelow(cfg, s, k);
      assert false;
    }
    assert ArrayPin(s.slots, e, i, p);
  }

  lemma ShardPinInSlot(cfg: Config, s: Planner, i: nat)
    requires Ordered(cfg, s) && HandlesOk(cfg, s) && Pins(s.shards, i)
    requires ShardPinned(Live(s), s.shards.active[i].value, i)
    requires s.shards.active[i].value.state.Pending? || s.shards.active[i].value.maxOwner >= s.watermark
    ensures ShardPinned(s.slots, s.shards.active[i].value, i)
  {
    var e := s.shards.active[i].value;
    var p: nat, k: nat :| ShardPin(Live(s), e, i, p, k);
    if p >= |s.slots| {
      var q := p - |s.slots|;
      StagedBelow(cfg, s, q);
      assert false;
    }
    assert ShardPin(s.slots, e, i, p, k);
  }

  lemma StepKeepsPins(cfg: Config, s: Planner, step: Step)
    requires Inv(cfg, s) && Healthy(s) && PinsOwned(s) && Enabled(cfg, s, step) && FaultFree(step)
    ensures PinsOwned(Do(cfg, s, step))
  {
    hide Admit, AskShard, Enumerate, CheckShards, ShardsAsked, ArrayDone, ShardFetched, Build, Consume, CanAdmit,
         CanAskShard;
    hide CacheClean, HandlesOk, GatesExact, RegistrationsOwned, Ordered, AskWorks, OwnersOk, PinsOwned, PinsKept,
         Carried;
    SamePins(s.arrays);
    SamePins(s.shards);
    match step
    case PushStep => UntouchedPins(s, Push(s));
    case TakeStep => UntouchedPins(s, Take(s));
    case AdmitWithoutStep(i) =>
      var g := OwnerAvailable(cfg, s);
      assert false;
    case AdmitStep(i, g, ask) => AdmitPins(cfg, s, i, g, ask);
    case EnumerateStep(i, oom) => EnumeratePins(cfg, s, i, oom);
    case AskShardStep(i, ask) => AskShardPins(cfg, s, i, ask);
    case ShardsAskedStep(i) => SlotStepPins(s, i);
    case CheckShardsStep(i) => SlotStepPins(s, i);
    case SweepStep(g) => UntouchedPins(s, Sweep(s, g));
    case ArrayDoneStep(h, outcome) => DonePins(s, h, outcome);
    case ShardFetchedStep(h, outcome) => DonePins(s, h, outcome);
    case ConsumeStep(i) => ConsumePins(s, i);
    case BuildStep(_) => BuildPins(cfg, s);
  }

  lemma UntouchedPins(s: Planner, s': Planner)
    requires PinsOwned(s) && s'.arrays == s.arrays && s'.shards == s.shards && s'.slots == s.slots
               && s'.staged == s.staged
    ensures PinsOwned(s')
  {
  }

  lemma AgainPins(c: Cache, ask: Option<CacheStep>)
    requires AskWorks(ask) && StepOk(c, ask.value) && AskResult(c, ask).status == AGAIN
    ensures PinsKept(c, AskCache(c, ask))
  {
    EvictPins(c, ask.value.victims, c.generation + 1);
  }

  // --- No cache is ever saturated ------------------------------------------------------------------------------

  /** A request for a new key has to wait: there is no free entry and every entry is pinned. */
  ghost predicate Saturated(c: Cache, key: Key) {
    && (forall i: nat :: !HasKey(c, key, i))
    && (forall i: nat | i < |c.active| :: c.active[i].Some? && c.active[i].value.pinned)
  }

  /** A request can succeed unless the cache is saturated. */
  lemma AskExists(c: Cache, key: Key, owner: nat, gate: nat) returns (ask: Option<CacheStep>)
    requires !Saturated(c, key)
    ensures AskOk(c, ask, key, owner, gate) && AskWorks(ask) && AskResult(c, ask).status == OK
  {
    if i: nat :| HasKey(c, key, i) {
      ask := Some(HitStep(key, i, owner, gate, false));
    } else {
      var i: nat :| i < |c.active| && !(c.active[i].Some? && c.active[i].value.pinned);
      var victims := if Holds(c, i) then {i} else {};
      assert MissOk(c, key, victims, Some(i));
      ask := Some(MissStep(key, owner, gate, victims, Some(i)));
    }
  }

  /** What start-up demands of the caches: room for every sample in a slot or in the staging area. */
  ghost predicate Floors(cfg: Config, s: Planner) {
    && |s.arrays.active| >= cfg.lookahead + cfg.batch
    && |s.shards.active| >= (cfg.lookahead + cfg.batch) * cfg.maxShards
  }

  ghost function ArrayHolder(live: seq<Work>, e: Entry, i: nat): (p: nat)
    requires ArrayPinned(live, e, i)
    ensures ArrayPin(live, e, i, p)
  {
    var p: nat :| ArrayPin(live, e, i, p);
    p
  }

  /** A sample that waits for admission finds room in the array cache. */
  lemma ArraysHaveRoom(cfg: Config, s: Planner, key: Key)
    requires Inv(cfg, s) && PinsOwned(s) && Floors(cfg, s) && s.hand.Some?
    ensures !Saturated(s.arrays, key)
  {
    hide CacheOk, WorkOk, GatesExact, OwnersOk, RegistrationsOwned, HandlesOk, SlotsOk, ArrayPinned, ShardPinned,
         Splits;
    if Saturated(s.arrays, key) {
      var free := FreeSlotExists(cfg, s);
      var live, active := Live(s), s.arrays.active;
      forall i: nat | i < |active| ensures Pins(s.arrays, i) && ArrayPinned(live, active[i].value, i) { }
      var at := seq(|active|, i requires 0 <= i < |active| => ArrayHolder(live, active[i].value, i));
      forall i | 0 <= i < |at| ensures at[i] < |live| && at[i] != free {
        assert ArrayPin(live, active[i].value, i, at[i]);
      }
      forall i, j | 0 <= i < j < |at| ensures at[i] != at[j] {
        assert ArrayPin(live, active[i].value, i, at[i]) && ArrayPin(live, active[j].value, j, at[j]);
      }
      Pigeonhole(at + [free], |live|);
      assert false;
    }
  }

  ghost function Code(p: nat, k: nat, width: nat): nat {
    p * width + k
  }

  lemma CodeIs(p: nat, k: nat, q: nat, l: nat, width: nat)
    requires k < width && l < width
    ensures Code(p, k, width) == Code(q, l, width) ==> p == q && k == l
  {
    assert width * p == p * width && width * q == q * width;
    DivUnique(p * width + k, width, p);
    DivUnique(q * width + l, width, q);
  }

  lemma CodeBelow(p: nat, k: nat, width: nat, n: nat)
    requires k < width && p < n
    ensures Code(p, k, width) < n * width
  {
    MulMono(p + 1, n, width);
    assert (p + 1) * width == p * width + width;
  }

  ghost function ShardHolder(live: seq<Work>, e: Entry, i: nat): (r: (nat, nat))
    requires ShardPinned(live, e, i)
    ensures ShardPin(live, e, i, r.0, r.1)
  {
    var p: nat, k: nat :| ShardPin(live, e, i, p, k);
    (p, k)
  }

  /** A live sample has at most as many shard handles as a sample may touch shards. */
  lemma FewShards(cfg: Config, s: Planner, p: nat)
    requires HandlesOk(cfg, s) && NoOrphans(s) && s.errored == 0 && QueriesFit(cfg) && p < |Live(s)|
    ensures Occupied(Live(s)[p]) ==> |Live(s)[p].shards| <= cfg.maxShards
  {
    hide CacheOk, Secured;
    var w := Live(s)[p];
    assert p < |s.slots| ==> WorkOk(cfg, s.arrays, s.shards, s.slots[p]) && !s.slots[p].phase.Errored?;
    assert p >= |s.slots| ==> StagedOk(cfg, s.arrays, s.shards, s.staged[p - |s.slots|]);
  }

  /** A sample that still has shards to ask for finds room in the shard cache. */
  lemma ShardsHaveRoom(cfg: Config, s: Planner, n: nat, key: Key)
    requires Inv(cfg, s) && PinsOwned(s) && Floors(cfg, s) && QueriesFit(cfg) && s.errored == 0
    requires n < |s.slots| && Occupied(s.slots[n]) && |s.slots[n].shards| < cfg.maxShards
    ensures !Saturated(s.shards, key)
  {
    hide CacheOk, WorkOk, GatesExact, OwnersOk, RegistrationsOwned, HandlesOk, SlotsOk, ArrayPinned, ShardPinned,
         Splits, Code;
    if Saturated(s.shards, key) {
      var live, active, width := Live(s), s.shards.active, cfg.maxShards;
      forall i: nat | i < |active| ensures Pins(s.shards, i) && ShardPinned(live, active[i].value, i) { }
      var at := seq(|active|, i requires 0 <= i < |active| => ShardHolder(live, active[i].value, i));
      var codes := seq(|active|, i requires 0 <= i < |active| => Code(at[i].0, at[i].1, width));
      var own := Code(n, |s.slots[n].shards|, width);
      CodeBelow(n, |s.slots[n].shards|, width, |live|);
      forall i | 0 <= i < |at| ensures codes[i] < |live| * width && codes[i] != own {
        assert ShardPin(live, active[i].value, i, at[i].0, at[i].1);
        FewShards(cfg, s, at[i].0);
        CodeBelow(at[i].0, at[i].1, width, |live|);
        CodeIs(at[i].0, at[i].1, n, |s.slots[n].shards|, width);
      }
      forall i, j | 0 <= i < j < |at| ensures codes[i] != codes[j] {
        assert ShardPin(live, active[i].value, i, at[i].0, at[i].1);
        assert ShardPin(live, active[j].value, j, at[j].0, at[j].1);
        FewShards(cfg, s, at[i].0);
        FewShards(cfg, s, at[j].0);
        CodeIs(at[i].0, at[i].1, at[j].0, at[j].1, width);
      }
      MulMono(|live|, cfg.lookahead + cfg.batch, width);
      Pigeonhole(codes + [own], |live| * width);
      assert false;
    }
  }

  // --- Moving on -----------------------------------------------------------------------------------------------

  /** How far the sample of a slot has come. */
  ghost function WorkStage(w: Work): nat {
    match w.phase
    case Free => 0
    case PendingMeta => if w.keys.None? then 2 else 3 + |w.shards|
    case PendingShards => 4 + |w.shards|
    case _ => 5 + |w.shards|
  }

  ghost function SlotOf(slots: seq<Work>, n: nat): (i: nat)
    requires HasSample(slots, n)
    ensures InSlot(slots, n, i)
  {
    var i: nat :| InSlot(slots, n, i);
    i
  }

  /** How far the next sample to be consumed has come. */
  ghost function Stage(cfg: Config, s: Planner): nat
    requires Conserved(cfg, s)
  {
    if s.nextConsume < Admitted(s) then WorkStage(s.slots[SlotOf(s.slots, s.nextConsume)])
    else InHand(s)
  }

  lemma StageIs(cfg: Config, s: Planner, i: nat)
    requires Conserved(cfg, s) && InSlot(s.slots, s.nextConsume, i)
    ensures Stage(cfg, s) == WorkStage(s.slots[i])
  {
    assert SlotOf(s.slots, s.nextConsume) == i;
  }

  /** The slot's sample waits for a fetch that is under way. */
  ghost predicate SlotWaits(s: Planner, w: Work) {
    match w.phase
    case PendingMeta => w.keys.None? && Query(s.arrays, w.meta).Pending?
    case PendingShards => exists k :: 0 <= k < |w.shards| && Query(s.shards, w.shards[k]).Pending?
    case _ => false
  }

  ghost predicate NextWaits(s: Planner) {
    exists i: nat :: InSlot(s.slots, s.nextConsume, i) && SlotWaits(s, s.slots[i])
  }

  /** The next sample is consumed or has come further. */
  ghost predicate Moves(cfg: Config, s: Planner, s': Planner)
    requires Conserved(cfg, s)
  {
    s'.nextConsume > s.nextConsume ||
    (s'.nextConsume == s.nextConsume && Conserved(cfg, s') && Stage(cfg, s') > Stage(cfg, s))
  }

  /** Before admission: the sample is taken from the queue, or admitted from the hand. */
  lemma WaitingSampleMoves(cfg: Config, s: Planner) returns (step: Step)
    requires Flowing(cfg, s) && s.nextConsume < s.pushed && Admitted(s) == s.nextConsume
    ensures Enabled(cfg, s, step) && FaultFree(step) && !step.PushStep? && Moves(cfg, s, Do(cfg, s, step))
  {
    hide PinsOwned, Floors, Saturated;
    if s.hand.None? {
      step := TakeStep;
      StepKeepsInv(cfg, s, step);
    } else {
      var i := FreeSlotExists(cfg, s);
      var g := OwnerAvailable(cfg, s);
      ArraysHaveRoom(cfg, s, cfg.metaKey(s.nextConsume));
      var ask := AskExists(s.arrays, cfg.metaKey(s.nextConsume), s.nextConsume, g);
      OwnerIsNew(cfg, s, g);
      step := AdmitStep(i, g, ask);
      AdmitMoves(cfg, s, i, g, ask);
    }
  }

  lemma AdmitMoves(cfg: Config, s: Planner, i: nat, g: nat, ask: Option<CacheStep>)
    requires Inv(cfg, s) && Healthy(s) && CanAdmit(cfg, s, i, g, ask) && g < |s.gates|
               && AskResult(s.arrays, ask).status == OK
    requires Admitted(s) == s.nextConsume
    ensures Moves(cfg, s, Admit(s, i, g, ask))
  {
    hide Apply, StepOk, CacheClean, AskResult, Ordered, HandlesOk, GatesExact, OwnersOk, RegistrationsOwned;
    var s' := Admit(s, i, g, ask);
    AdmitKeeps(cfg, s, i, g, ask);
    StageIs(cfg, s', i);
  }

  /** In its slot: the step of its phase takes the sample further. */
  lemma SlotSampleMoves(cfg: Config, s: Planner, i: nat) returns (step: Step)
    requires Flowing(cfg, s) && |s.staged| < cfg.batch
    requires InSlot(s.slots, s.nextConsume, i) && !SlotWaits(s, s.slots[i])
    ensures Enabled(cfg, s, step) && FaultFree(step) && !step.PushStep? && Moves(cfg, s, Do(cfg, s, step))
  {
    hide PinsOwned, Floors, Saturated, Ordered, GatesExact, OwnersOk, RegistrationsOwned, NoOrphans, CacheClean,
         QueriesFit;
    hide CacheOk, Secured, SlotsOk, Enumerate, CheckShards, ShardsAsked, Moves;
    var w := s.slots[i];
    assert WorkOk(cfg, s.arrays, s.shards, w);
    if Terminal(w) {
      step := ConsumeStep(i);
      ConsumeMoves(cfg, s, i);
    } else if w.phase.PendingShards? {
      step := CheckShardsStep(i);
      CheckMoves(cfg, s, i);
    } else if w.keys.None? {
      step := EnumerateStep(i, false);
      EnumerateMoves(cfg, s, i);
    } else if |w.shards| < |w.keys.value| {
      step := SlotAsks(cfg, s, i);
    } else {
      step := ShardsAskedStep(i);
      AskedMoves(cfg, s, i);
    }
  }

  lemma ConsumeMoves(cfg: Config, s: Planner, i: nat)
    requires Conserved(cfg, s) && CanConsume(cfg, s, i)
    ensures Moves(cfg, s, Consume(s, i))
  {
  }

  lemma AskedMoves(cfg: Config, s: Planner, i: nat)
    requires Inv(cfg, s) && Enabled(cfg, s, ShardsAskedStep(i)) && InSlot(s.slots, s.nextConsume, i)
    ensures Moves(cfg, s, ShardsAsked(s, i))
  {
    hide Ordered, HandlesOk, GatesExact, OwnersOk, RegistrationsOwned;
    ShardsAskedKeeps(cfg, s, i);
    StageIs(cfg, s, i);
    StageIs(cfg, ShardsAsked(s, i), i);
  }

  lemma SlotAsks(cfg: Config, s: Planner, i: nat) returns (step: Step)
    requires Flowing(cfg, s) && InSlot(s.slots, s.nextConsume, i) && s.slots[i].phase.PendingMeta?
    requires s.slots[i].keys.Some? && |s.slots[i].shards| < |s.slots[i].keys.value|
    ensures Enabled(cfg, s, step) && FaultFree(step) && !step.PushStep? && Moves(cfg, s, Do(cfg, s, step))
  {
    hide PinsOwned, Floors, Saturated, Splits, SlotsOk, GateExact, RegistrationsOwned, CacheOk, Moves, AskResult,
         StepOk, Apply;
    hide CacheClean, Secured;
    var w := s.slots[i];
    assert WorkOk(cfg, s.arrays, s.shards, w);
    var key := w.keys.value[|w.shards|];
    ShardsHaveRoom(cfg, s, i, key);
    var ask := AskExists(s.shards, key, w.sample, w.owner.value);
    step := AskShardStep(i, ask);
    AskMoves(cfg, s, i, ask);
  }

  lemma CheckMoves(cfg: Config, s: Planner, i: nat)
    requires Inv(cfg, s) && Healthy(s) && InSlot(s.slots, s.nextConsume, i) && s.slots[i].phase.PendingShards?
               && !SlotWaits(s, s.slots[i])
    ensures Moves(cfg, s, CheckShards(s, i))
  {
    hide CacheClean, Ordered, HandlesOk, GatesExact, OwnersOk, RegistrationsOwned, Fail;
    var w, s' := s.slots[i], CheckShards(s, i);
    var k := FirstUndone(s.shards, w.shards, 0);
    if k < |w.shards| { QueryHarmless(s.shards, w.shards[k], true); }
    CheckShardsKeeps(cfg, s, i);
    StageIs(cfg, s, i);
    StageIs(cfg, s', i);
  }

  lemma EnumerateMoves(cfg: Config, s: Planner, i: nat)
    requires Inv(cfg, s) && Healthy(s) && QueriesFit(cfg) && InSlot(s.slots, s.nextConsume, i)
    requires s.slots[i].phase.PendingMeta? && s.slots[i].keys.None? && !SlotWaits(s, s.slots[i])
    ensures Moves(cfg, s, Enumerate(cfg, s, i, false))
  {
    hide CacheClean, Ordered, HandlesOk, GatesExact, OwnersOk, RegistrationsOwned, Fail;
    var w, s' := s.slots[i], Enumerate(cfg, s, i, false);
    QueryHarmless(s.arrays, w.meta, false);
    EnumerateKeeps(cfg, s, i, false);
    StageIs(cfg, s, i);
    StageIs(cfg, s', i);
  }

  lemma AskMoves(cfg: Config, s: Planner, i: nat, ask: Option<CacheStep>)
    requires Inv(cfg, s) && InSlot(s.slots, s.nextConsume, i) && CanAskShard(s, i, ask)
               && AskResult(s.shards, ask).status == OK
    ensures Moves(cfg, s, AskShard(s, i, ask))
  {
    hide Apply, StepOk, AskResult, Ordered, HandlesOk, GatesExact, OwnersOk, RegistrationsOwned;
    var s' := AskShard(s, i, ask);
    AskShardKeeps(cfg, s, i, ask);
    StageIs(cfg, s, i);
    StageIs(cfg, s', i);
  }

  /** No deadlock: a full batch can be built, and otherwise the next sample to be consumed has a step that
      takes it further, unless it waits for a fetch under way. */
  lemma NextSampleMoves(cfg: Config, s: Planner) returns (step: Step)
    requires Flowing(cfg, s) && s.nextConsume < s.pushed && |s.staged| < cfg.batch && !NextWaits(s)
    ensures Enabled(cfg, s, step) && FaultFree(step) && !step.PushStep? && Moves(cfg, s, Do(cfg, s, step))
  {
    if s.nextConsume < Admitted(s) {
      var i := SlotOf(s.slots, s.nextConsume);
      step := SlotSampleMoves(cfg, s, i);
    } else {
      step := WaitingSampleMoves(cfg, s);
    }
  }

  // --- Fault-free runs keep flowing -----------------------------------------------------------------------------

  /** What holds after every fault-free run of a planner whose caches start-up accepted. */
  ghost predicate Flowing(cfg: Config, s: Planner) {
    Inv(cfg, s) && Healthy(s) && PinsOwned(s) && Floors(cfg, s) && QueriesFit(cfg)
  }

  lemma AskSize(c: Cache, ask: Option<CacheStep>)
    requires ask.Some? ==> StepOk(c, ask.value)
    ensures |AskCache(c, ask).active| == |c.active|
  {
  }

  lemma StepKeepsFloors(cfg: Config, s: Planner, step: Step)
    requires Floors(cfg, s) && Enabled(cfg, s, step)
    ensures Floors(cfg, Do(cfg, s, step))
  {
    hide AskCache, AskGates, AskResult, Complete, CompleteGates, Raised, OwnerFor, StepOk;
    match step
    case AdmitStep(i, g, ask) => AskSize(s.arrays, ask);
    case AskShardStep(i, ask) => AskSize(s.shards, ask);
    case _ =>
  }

  lemma StepKeepsFlow(cfg: Config, s: Planner, step: Step)
    requires Flowing(cfg, s) && Enabled(cfg, s, step) && FaultFree(step)
    ensures Flowing(cfg, Do(cfg, s, step))
  {
    hide Inv, Healthy, PinsOwned, Floors, QueriesFit, Enabled, FaultFree, Do;
    StepKeepsInv(cfg, s, step);
    StepKeepsHealthy(cfg, s, step);
    StepKeepsPins(cfg, s, step);
    StepKeepsFloors(cfg, s, step);
  }

  lemma InitialFlows(cfg: Config, arrays: nat, shards: nat)
    requires cfg.batch > 0 && QueriesFit(cfg)
    requires arrays >= cfg.lookahead + cfg.batch && shards >= (cfg.lookahead + cfg.batch) * cfg.maxShards
    ensures Flowing(cfg, Initial(cfg, arrays, shards))
  {
    InitialInv(cfg, arrays, shards);
    InitialHealthy(cfg, arrays, shards);
  }

  ghost predicate AllFaultFree(run: seq<Step>) {
    forall k | 0 <= k < |run| :: FaultFree(run[k])
  }

  lemma {:induction false} RunKeepsFlow(cfg: Config, s: Planner, run: seq<Step>)
    requires Flowing(cfg, s) && RunFrom(cfg, s, run) && AllFaultFree(run)
    ensures Flowing(cfg, EndOf(cfg, s, run))
    decreases |run|
  {
    hide Flowing, Enabled, FaultFree, Do;
    if run != [] {
      StepKeepsFlow(cfg, s, run[0]);
      assert AllFaultFree(run[1..]);
      RunKeepsFlow(cfg, Do(cfg, s, run[0]), run[1..]);
    }
  }

  /** In every fault-free run the planner can go on: it builds a full batch at once, and otherwise the next
      sample moves unless its own fetch is under way. */
  lemma NoDeadlock(cfg: Config, arrays: nat, shards: nat, run: seq<Step>) returns (step: Step)
    requires cfg.batch > 0 && QueriesFit(cfg)
    requires arrays >= cfg.lookahead + cfg.batch && shards >= (cfg.lookahead + cfg.batch) * cfg.maxShards
    requires RunFrom(cfg, Initial(cfg, arrays, shards), run) && AllFaultFree(run)
    requires var e := EndOf(cfg, Initial(cfg, arrays, shards), run);
             |e.staged| == cfg.batch || (e.nextConsume < e.pushed && !NextWaits(e))
    ensures var e := EndOf(cfg, Initial(cfg, arrays, shards), run);
            && Enabled(cfg, e, step) && FaultFree(step) && Conserved(cfg, e)
            && (if |e.staged| == cfg.batch then Do(cfg, e, step).planned > e.planned
                else Moves(cfg, e, Do(cfg, e, step)))
  {
    hide Flowing, NextWaits, RunFrom, EndOf, QueriesFit;
    InitialFlows(cfg, arrays, shards);
    RunKeepsFlow(cfg, Initial(cfg, arrays, shards), run);
    step := GoesOn(cfg, EndOf(cfg, Initial(cfg, arrays, shards), run));
  }

  lemma GoesOn(cfg: Config, e: Planner) returns (step: Step)
    requires Flowing(cfg, e) && (|e.staged| == cfg.batch || (e.nextConsume < e.pushed && !NextWaits(e)))
    ensures Enabled(cfg, e, step) && FaultFree(step) && Conserved(cfg, e)
    ensures if |e.staged| == cfg.batch then Do(cfg, e, step).planned > e.planned else Moves(cfg, e, Do(cfg, e, step))
  {
    hide PinsOwned, Floors, Healthy, Enabled, QueriesFit, HandlesOk, GatesExact, OwnersOk, RegistrationsOwned,
         NoOrphans;
    hide NextWaits, Moves, SlotsOk, Splits;
    if |e.staged| == cfg.batch {
      step := BuildStep(OK);
      BuildEnabled(cfg, e);
    } else {
      step := NextSampleMoves(cfg, e);
    }
  }

  lemma BuildEnabled(cfg: Config, s: Planner)
    requires Inv(cfg, s) && |s.staged| == cfg.batch
    ensures Enabled(cfg, s, BuildStep(OK)) && Build(cfg, s, OK).planned > s.planned
  {
    hide CacheOk, WorkOk, GatesExact, OwnersOk, RegistrationsOwned, SlotsOk, BuildWaits;
    StagedNeverWaits(cfg, s);
  }

  // --- Every pushed sample can be delivered -----------------------------------------------------------------------

  lemma {:induction false} RunAppend(cfg: Config, s: Planner, a: seq<Step>, b: seq<Step>)
    requires RunFrom(cfg, s, a) && RunFrom(cfg, EndOf(cfg, s, a), b)
    ensures RunFrom(cfg, s, a + b) && EndOf(cfg, s, a + b) == EndOf(cfg, EndOf(cfg, s, a), b)
    decreases |a|
  {
    hide Enabled, Do;
    if a == [] {
      assert a + b == b;
    } else {
      RunAppend(cfg, Do(cfg, s, a[0]), a[1..], b);
      assert (a + b)[1..] == a[1..] + b;
    }
  }

  /** A fault-free way from s to e that pushes nothing. */
  ghost predicate Leads(cfg: Config, s: Planner, run: seq<Step>, e: Planner) {
    RunFrom(cfg, s, run) && AllFaultFree(run) && EndOf(cfg, s, run) == e && e.pushed == s.pushed
  }

  lemma LeadsOn(cfg: Config, s: Planner, a: seq<Step>, m: Planner, b: seq<Step>, e: Planner)
    requires Leads(cfg, s, a, m) && Leads(cfg, m, b, e)
    ensures Leads(cfg, s, a + b, e)
  {
    hide RunFrom, EndOf, FaultFree;
    RunAppend(cfg, s, a, b);
  }

  lemma LeadsStep(cfg: Config, s: Planner, step: Step)
    requires Enabled(cfg, s, step) && FaultFree(step) && !step.PushStep?
    ensures Leads(cfg, s, [step], Do(cfg, s, step))
  {
    hide Enabled, Do, FaultFree;
    SamePushed(cfg, s, step);
    var run, e := [step], Do(cfg, s, step);
    assert run[1..] == [] && RunFrom(cfg, e, []) && EndOf(cfg, e, []) == e;
    assert RunFrom(cfg, s, run) && EndOf(cfg, s, run) == e;
  }

  lemma SamePushed(cfg: Config, s: Planner, step: Step)
    requires Enabled(cfg, s, step) && !step.PushStep?
    ensures Do(cfg, s, step).pushed == s.pushed
  {
    hide AskCache, AskGates, AskResult, Complete, CompleteGates, Raised, OwnerFor, StepOk, CanAdmit, CanAskShard;
  }

  /** No sample has come further. */
  ghost predicate Unmoved(s: Planner, e: Planner) {
    && e.slots == s.slots && e.nextConsume == s.nextConsume
    && e.queue == s.queue && e.hand == s.hand && e.pushed == s.pushed
  }

  lemma SameStage(cfg: Config, s: Planner, e: Planner)
    requires Conserved(cfg, s) && Conserved(cfg, e) && Unmoved(s, e)
    ensures Stage(cfg, s) == Stage(cfg, e)
  {
    if s.nextConsume < Admitted(s) {
      var i := SlotOf(s.slots, s.nextConsume);
      StageIs(cfg, s, i);
      StageIs(cfg, e, i);
    }
  }

  /** A fetch that ends settles its handle and leaves all settled ones as they are. */
  lemma CompleteSettles(c: Cache, h: Handle, g: Handle)
    requires Lookup(c, h).Some?
    ensures !Query(Complete(c, h, Ready(0)), h).Pending?
    ensures !Query(c, g).Pending? ==> !Query(Complete(c, h, Ready(0)), g).Pending?
  {
  }

  /** The array fetch of a slot ends. */
  lemma MetaSettles(cfg: Config, s: Planner, i: nat) returns (run: seq<Step>, e: Planner)
    requires Flowing(cfg, s) && i < |s.slots| && s.slots[i].phase.PendingMeta?
    ensures Leads(cfg, s, run, e) && Flowing(cfg, e) && Unmoved(s, e)
    ensures e.staged == s.staged && !Query(e.arrays, s.slots[i].meta).Pending?
  {
    hide PinsOwned, Floors, Ordered, GatesExact, OwnersOk, RegistrationsOwned, CacheClean, QueriesFit, Complete,
         CompleteGates;
    assert WorkOk(cfg, s.arrays, s.shards, s.slots[i]);
    var h := s.slots[i].meta;
    var step := ArrayDoneStep(h, Ready(0));
    CompleteSettles(s.arrays, h, h);
    StepKeepsFlow(cfg, s, step);
    LeadsStep(cfg, s, step);
    run, e := [step], Do(cfg, s, step);
  }

  /** The shard fetches of a slot end, from the k-th on. */
  lemma {:induction false} ShardsSettle(cfg: Config, s: Planner, i: nat, k: nat) returns (run: seq<Step>, e: Planner)
    requires Flowing(cfg, s) && i < |s.slots| && s.slots[i].phase.PendingShards? && k <= |s.slots[i].shards|
    requires forall j | 0 <= j < k :: !Query(s.shards, s.slots[i].shards[j]).Pending?
    ensures Leads(cfg, s, run, e) && Flowing(cfg, e) && Unmoved(s, e)
    ensures e.staged == s.staged && forall j | 0 <= j < |s.slots[i].shards| ::
              !Query(e.shards, s.slots[i].shards[j]).Pending?
    decreases |s.slots[i].shards| - k
  {
    hide Flowing, RunFrom, EndOf;
    var handles := s.slots[i].shards;
    if k == |handles| {
      run, e := [], s;
      NoSteps(cfg, s);
    } else {
      var m := ShardSettles(cfg, s, i, k);
      run, e := ShardsSettle(cfg, m, i, k + 1);
      LeadsOn(cfg, s, [ShardFetchedStep(handles[k], Ready(0))], m, run, e);
      run := [ShardFetchedStep(handles[k], Ready(0))] + run;
    }
  }

  lemma NoSteps(cfg: Config, s: Planner)
    ensures Leads(cfg, s, [], s)
  {
  }

  lemma ShardSettles(cfg: Config, s: Planner, i: nat, k: nat) returns (m: Planner)
    requires Flowing(cfg, s) && i < |s.slots| && s.slots[i].phase.PendingShards? && k < |s.slots[i].shards|
    requires forall j | 0 <= j < k :: !Query(s.shards, s.slots[i].shards[j]).Pending?
    ensures Leads(cfg, s, [ShardFetchedStep(s.slots[i].shards[k], Ready(0))], m) && Flowing(cfg, m)
    ensures Unmoved(s, m) && m.staged == s.staged
    ensures forall j | 0 <= j < k + 1 :: !Query(m.shards, s.slots[i].shards[j]).Pending?
  {
    hide PinsOwned, Floors, Ordered, GatesExact, OwnersOk, RegistrationsOwned, CacheClean, QueriesFit, Complete,
         CompleteGates;
    assert WorkOk(cfg, s.arrays, s.shards, s.slots[i]);
    var h := s.slots[i].shards[k];
    var step := ShardFetchedStep(h, Ready(0));
    StepKeepsFlow(cfg, s, step);
    LeadsStep(cfg, s, step);
    m := Do(cfg, s, step);
    forall j | 0 <= j < k + 1 ensures !Query(m.shards, s.slots[i].shards[j]).Pending? {
      CompleteSettles(s.shards, h, s.slots[i].shards[j]);
    }
  }

  /** The fetches the next sample waits for end. */
  lemma FetchesEnd(cfg: Config, s: Planner) returns (run: seq<Step>, e: Planner)
    requires Flowing(cfg, s)
    ensures Leads(cfg, s, run, e) && Flowing(cfg, e) && Unmoved(s, e)
    ensures e.staged == s.staged && !NextWaits(e)
  {
    hide Flowing, RunFrom, EndOf, Query;
    if NextWaits(s) {
      var i: nat :| InSlot(s.slots, s.nextConsume, i) && SlotWaits(s, s.slots[i]);
      if s.slots[i].phase.PendingMeta? {
        run, e := MetaSettles(cfg, s, i);
      } else {
        run, e := ShardsSettle(cfg, s, i, 0);
      }
      OnlyOneNext(cfg, e, i);
    } else {
      run, e := [], s;
      NoSteps(cfg, s);
    }
  }

  lemma OnlyOneNext(cfg: Config, e: Planner, i: nat)
    requires Flowing(cfg, e) && InSlot(e.slots, e.nextConsume, i) && !SlotWaits(e, e.slots[i])
    ensures !NextWaits(e)
  {
    hide Ordered, HandlesOk, GatesExact, OwnersOk, RegistrationsOwned, PinsOwned, Floors, SlotWaits, SlotsOk;
    forall j: nat | InSlot(e.slots, e.nextConsume, j) ensures j == i {
      SampleUnique(e.slots, e.nextConsume, Admitted(e), i, j);
    }
  }

  /** A full staging area is built. */
  lemma RoomToStage(cfg: Config, s: Planner) returns (run: seq<Step>, e: Planner)
    requires Flowing(cfg, s)
    ensures Leads(cfg, s, run, e) && Flowing(cfg, e) && Unmoved(s, e)
    ensures |e.staged| < cfg.batch
  {
    hide PinsOwned, Floors, Healthy, QueriesFit, CacheOk, WorkOk, GatesExact, OwnersOk, RegistrationsOwned, SlotsOk,
         Raised;
    hide Splits, BuildWaits;
    if |s.staged| == cfg.batch {
      BuildEnabled(cfg, s);
      StepKeepsFlow(cfg, s, BuildStep(OK));
      LeadsStep(cfg, s, BuildStep(OK));
      run, e := [BuildStep(OK)], Build(cfg, s, OK);
    } else {
      run, e := [], s;
      NoSteps(cfg, s);
    }
  }

  /** No sample needs more stages than this. */
  lemma StageBound(cfg: Config, s: Planner)
    requires Flowing(cfg, s)
    ensures Stage(cfg, s) <= 5 + cfg.maxShards
  {
    hide PinsOwned, Floors, Ordered, GatesExact, OwnersOk, RegistrationsOwned, HandlesOk;
    if s.nextConsume < Admitted(s) {
      var i := SlotOf(s.slots, s.nextConsume);
      FewShards(cfg, s, i);
    }
  }

  /** The next sample is consumed after finitely many further steps. */
  lemma {:induction false} NextIsConsumed(cfg: Config, s: Planner) returns (run: seq<Step>, e: Planner)
    requires Flowing(cfg, s) && s.nextConsume < s.pushed
    ensures Leads(cfg, s, run, e) && Flowing(cfg, e) && e.nextConsume > s.nextConsume
    decreases 5 + cfg.maxShards - Stage(cfg, s)
  {
    hide Leads, Inv, Healthy, PinsOwned, Floors, QueriesFit, Enabled, FaultFree, Do;
    InvConserved(cfg, s);
    var run1, e1 := RoomToStage(cfg, s);
    var run2, e2 := FetchesEnd(cfg, e1);
    LeadsOn(cfg, s, run1, e1, run2, e2);
    LeadsPushed(cfg, s, run1 + run2, e2);
    var step := NextSampleMoves(cfg, e2);
    StepKeepsFlow(cfg, e2, step);
    LeadsStep(cfg, e2, step);
    var e3 := Do(cfg, e2, step);
    LeadsOn(cfg, s, run1 + run2, e2, [step], e3);
    LeadsPushed(cfg, s, run1 + run2 + [step], e3);
    run, e := run1 + run2 + [step], e3;
    if e3.nextConsume == s.nextConsume {
      InvConserved(cfg, e2);
      InvConserved(cfg, e3);
      SameStage(cfg, s, e2);
      StageBound(cfg, e3);
      var run4;
      run4, e := NextIsConsumed(cfg, e3);
      LeadsOn(cfg, s, run, e3, run4, e);
      run := run + run4;
    }
  }

  lemma InvConserved(cfg: Config, s: Planner)
    requires Inv(cfg, s)
    ensures Conserved(cfg, s)
  {
  }

  lemma LeadsPushed(cfg: Config, s: Planner, run: seq<Step>, e: Planner)
    requires Leads(cfg, s, run, e)
    ensures e.pushed == s.pushed
  {
  }

  /** From every state of a fault-free run, all samples pushed so far can be delivered: a further run
      consumes them all, none is lost, the rows are in order, and less than a batch is left over. */
  lemma {:induction false} AllCanBeDelivered(cfg: Config, s: Planner) returns (run: seq<Step>, e: Planner)
    requires Flowing(cfg, s)
    ensures Leads(cfg, s, run, e) && Flowing(cfg, e) && e.nextConsume == s.pushed
    ensures InRows(e) && |Delivered(e)| == s.pushed && s.pushed - e.planned < cfg.batch
    decreases s.pushed - s.nextConsume
  {
    hide Leads, Healthy, PinsOwned, Floors, QueriesFit, HandlesOk, GatesExact, OwnersOk, RegistrationsOwned, NoOrphans,
         Ordered;
    hide SlotsOk, InRows;
    if s.nextConsume < s.pushed {
      var run1, e1 := NextIsConsumed(cfg, s);
      LeadsPushed(cfg, s, run1, e1);
      var run2;
      run2, e := AllCanBeDelivered(cfg, e1);
      LeadsOn(cfg, s, run1, e1, run2, e);
      run := run1 + run2;
    } else {
      run, e := RoomToStage(cfg, s);
      AllDelivered(cfg, e);
    }
  }

  lemma AllDelivered(cfg: Config, e: Planner)
    requires Ordered(cfg, e) && Healthy(e) && |e.staged| < cfg.batch
    ensures InRows(e) && |Delivered(e)| == e.nextConsume && e.nextConsume - e.planned < cfg.batch
  {
    hide CacheClean, Splits;
    NoneDroppedInRows(cfg, e);
    DeliveredSize(cfg, e);
  }
}
