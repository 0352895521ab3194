/** What runs of the prefetcher and the planner deliver: when batches are in order, why samples are
    lost, and that runs without faults lose nothing. */
module Delivery {
  import opened Statuses
  import opened Seqs
  import opened PrefetchCaches
  import opened Prefetchers

  // --- What runs deliver ---------------------------------------------------------------------------------------------

  /** In every run, row i of batch k is sample k * batch + i moved up by the dropped samples below it. */
  lemma RowsShift(cfg: Config, s: Planner, run: seq<Step>, k: nat, i: nat)
    requires Inv(cfg, s) && RunFrom(cfg, s, run) && k < |EndOf(cfg, s, run).batches| && i < cfg.batch
    ensures var e := EndOf(cfg, s, run);
            && |e.batches[k]| == cfg.batch
            && e.batches[k][i] == k * cfg.batch + i + |Below(e.dropped, e.batches[k][i])|
  {
    hide Conserved, HandlesOk, GatesExact, OwnersOk, RegistrationsOwned, NoOrphans, Ordered;
    RunKeepsInv(cfg, s, run);
    RowShifts(cfg, EndOf(cfg, s, run), k, i);
  }

  lemma RowShifts(cfg: Config, e: Planner, k: nat, i: nat)
    requires Ordered(cfg, e) && k < |e.batches| && i < cfg.batch
    ensures |e.batches[k]| == cfg.batch && e.batches[k][i] == k * cfg.batch + i + |Below(e.dropped, e.batches[k][i])|
  {
    hide Splits, Concat;
    RowAt(cfg, e, k, i);
    SplitsShift(Delivered(e), e.dropped, e.nextConsume, k * cfg.batch + i);
  }

  lemma RowAt(cfg: Config, e: Planner, k: nat, i: nat)
    requires Ordered(cfg, e) && k < |e.batches| && i < cfg.batch
    ensures |e.batches[k]| == cfg.batch && k * cfg.batch + i < |Delivered(e)|
    ensures Delivered(e)[k * cfg.batch + i] == e.batches[k][i]
  {
    hide Splits, Concat;
    ConcatAt(e.batches, cfg.batch, k, i);
  }

  /** In every run, the rows are the samples in order exactly if no dropped sample comes before a
      delivered one. Without a reported failure the dropped samples are the swallowed ones. */
  lemma InOrderIffDropsBehind(cfg: Config, s: Planner, run: seq<Step>)
    requires Inv(cfg, s) && RunFrom(cfg, s, run)
    ensures var e := EndOf(cfg, s, run);
            && (InRows(e) <==> forall d, n | d in e.dropped && n in Delivered(e) :: n < d)
            && (e.failure == OK ==> e.dropped == e.swallowed)
            && (forall n: nat :: n < e.nextConsume <==> n in Delivered(e) || n in e.dropped)
            && |Delivered(e)| + |e.dropped| == e.nextConsume
  {
    RunKeepsInv(cfg, s, run);
    var e := EndOf(cfg, s, run);
    SplitsInOrder(Delivered(e), Delivered(e), e.dropped, e.nextConsume);
    SplitsCount(Delivered(e), e.dropped, e.nextConsume);
  }

  /** A swallowed sample is never planned: the planner has work pending for ever. */
  lemma SwallowedStaysPending(cfg: Config, s: Planner, run: seq<Step>)
    requires Inv(cfg, s) && RunFrom(cfg, s, run) && EndOf(cfg, s, run).swallowed != {}
    ensures EndOf(cfg, s, run).planned < EndOf(cfg, s, run).pushed
  {
    hide HandlesOk, GatesExact, OwnersOk, RegistrationsOwned, NoOrphans, Ordered, SlotsOk;
    RunKeepsInv(cfg, s, run);
    SwallowedOwed(cfg, EndOf(cfg, s, run));
  }

  lemma SwallowedOwed(cfg: Config, e: Planner)
    requires Ordered(cfg, e) && Conserved(cfg, e) && e.swallowed != {}
    ensures e.planned < e.pushed
  {
    hide Splits, SlotsOk;
    DeliveredSize(cfg, e);
    assert |e.swallowed| > 0;
  }

  lemma DeliveredSize(cfg: Config, e: Planner)
    requires Ordered(cfg, e)
    ensures |Delivered(e)| == |e.batches| * cfg.batch + |e.staged|
    ensures |e.batches| * cfg.batch + |e.staged| + |e.dropped| == e.nextConsume
  {
    SplitsCount(Delivered(e), e.dropped, e.nextConsume);
    ConcatLength(e.batches, cfg.batch);
  }

  // --- Why a sample fails -------------------------------------------------------------------------------

  /** The sample's array could not be fetched, or its metadata does not admit the query. */
  ghost predicate MetaCause(cfg: Config, arrays: Cache, w: Work, code: Status) {
    match Query(arrays, w.meta)
    case Pending => false
    case Failed(c) => code == if c == OK then INVAL else c
    case Ready(v) =>
      code == INVAL && (cfg.shardKeys(w.sample, v).None? || |cfg.shardKeys(w.sample, v).value| > cfg.maxShards)
  }

  /** Shard k could not be fetched, all before it are there or missing. */
  ghost predicate BadShard(shards: Cache, handles: seq<Handle>, k: nat, code: Status) {
    && k < |handles| && (forall j | 0 <= j < k :: ShardDone(Query(shards, handles[j])))
    && Query(shards, handles[k]).Failed? && !ShardDone(Query(shards, handles[k]))
    && code == if Query(shards, handles[k]).code == OK then INVAL else Query(shards, handles[k]).code
  }

  ghost predicate ShardCause(shards: Cache, handles: seq<Handle>, code: Status) {
    exists k: nat :: BadShard(shards, handles, k, code)
  }

  /** What stands behind the error of a sample: no owner entry, no memory, or one of its own fetches, of which the
      cache still says so. */
  ghost predicate Caused(cfg: Config, arrays: Cache, shards: Cache, w: Work, code: Status, memory: bool) {
    || (code == BUDGET && w.owner.None?)
    || (code == OOM && !memory)
    || (&& Secured(arrays, w.meta, cfg.metaKey(w.sample), w.sample)
        && (|| MetaCause(cfg, arrays, w, code)
            || (&& KeysKnown(cfg, arrays, w) && ShardsSecured(shards, w) && |w.shards| == |w.keys.value|
                && ShardCause(shards, w.shards, code))))
  }

  ghost predicate ErrorsCaused(cfg: Config, s: Planner, memory: bool) {
    forall i | 0 <= i < |s.slots| && s.slots[i].phase.Errored? ::
      Caused(cfg, s.arrays, s.shards, s.slots[i], s.slots[i].phase.code, memory)
  }

  /** The step does not run out of memory. */
  ghost predicate HasMemory(step: Step) {
    match step
    case AdmitStep(_, _, ask) => AskHasMemory(ask)
    case EnumerateStep(_, oom) => !oom
    case AskShardStep(_, ask) => AskHasMemory(ask)
    case _ => true
  }

  ghost predicate AskHasMemory(ask: Option<CacheStep>) {
    ask.Some? && (ask.value.HitStep? ==> !ask.value.oom)
  }

  lemma ArrayStepKeepsCause(cfg: Config, arrays: Cache, step: CacheStep, shards: Cache, w: Work, code: Status,
                            memory: bool)
    requires CacheOk(arrays) && StepOk(arrays, step) && arrays.watermark <= w.sample
    requires Caused(cfg, arrays, shards, w, code, memory)
    ensures Caused(cfg, Apply(arrays, step), shards, w, code, memory)
  {
    hide CacheOk, StepOk, Apply, Secured, Query, ShardsSecured, ShardCause;
    if Secured(arrays, w.meta, cfg.metaKey(w.sample), w.sample) {
      StepKeepsSecured(arrays, step, w.meta, cfg.metaKey(w.sample), w.sample);
    }
  }

  lemma ShardStepKeepsCause(cfg: Config, arrays: Cache, shards: Cache, step: CacheStep, w: Work, code: Status,
                            memory: bool)
    requires CacheOk(shards) && StepOk(shards, step) && shards.watermark <= w.sample
    requires Caused(cfg, arrays, shards, w, code, memory)
    ensures Caused(cfg, arrays, Apply(shards, step), w, code, memory)
  {
    hide CacheOk, StepOk, Apply, Secured, Query, MetaCause;
    if KeysKnown(cfg, arrays, w) && ShardsSecured(shards, w) {
      forall k | 0 <= k < |w.shards|
        ensures Secured(Apply(shards, step), w.shards[k], w.keys.value[k], w.sample)
        ensures Settled(Query(shards, w.shards[k]), Query(Apply(shards, step), w.shards[k]))
      {
        StepKeepsSecured(shards, step, w.shards[k], w.keys.value[k], w.sample);
      }
      if k: nat :| BadShard(shards, w.shards, k, code) {
        assert BadShard(Apply(shards, step), w.shards, k, code);
      }
    }
  }

  /** Steps on the array cache leave the causes of the slots they do not touch. */
  lemma ArraysKeepCause(cfg: Config, s: Planner, step: CacheStep, s': Planner, memory: bool)
    requires Inv(cfg, s) && ErrorsCaused(cfg, s, memory) && StepOk(s.arrays, step)
    requires s'.arrays == Apply(s.arrays, step) && s'.shards == s.shards && |s'.slots| == |s.slots|
    requires forall i | 0 <= i < |s.slots| && s'.slots[i].phase.Errored? ::
               s'.slots[i] == s.slots[i] || (!memory && s'.slots[i].phase.code == OOM)
    ensures ErrorsCaused(cfg, s', memory)
  {
    hide CacheOk, StepOk, Apply, GatesExact, OwnersOk, RegistrationsOwned, Ordered, WorkOk, MetaCause, ShardCause;
    forall i | 0 <= i < |s'.slots| && s'.slots[i].phase.Errored?
      ensures Caused(cfg, s'.arrays, s'.shards, s'.slots[i], s'.slots[i].phase.code, memory)
    {
      if s'.slots[i] == s.slots[i] {
        ArrayStepKeepsCause(cfg, s.arrays, step, s.shards, s.slots[i], s.slots[i].phase.code, memory);
      }
    }
  }

  lemma ShardsKeepCause(cfg: Config, s: Planner, step: CacheStep, s': Planner, memory: bool)
    requires Inv(cfg, s) && ErrorsCaused(cfg, s, memory) && StepOk(s.shards, step)
    requires s'.shards == Apply(s.shards, step) && s'.arrays == s.arrays && |s'.slots| == |s.slots|
    requires forall i | 0 <= i < |s.slots| && s'.slots[i].phase.Errored? ::
               s'.slots[i] == s.slots[i] || (!memory && s'.slots[i].phase.code == OOM)
    ensures ErrorsCaused(cfg, s', memory)
  {
    hide CacheOk, StepOk, Apply, GatesExact, OwnersOk, RegistrationsOwned, Ordered, WorkOk, MetaCause, ShardCause;
    forall i | 0 <= i < |s'.slots| && s'.slots[i].phase.Errored?
      ensures Caused(cfg, s'.arrays, s'.shards, s'.slots[i], s'.slots[i].phase.code, memory)
    {
      if s'.slots[i] == s.slots[i] {
        ShardStepKeepsCause(cfg, s.arrays, s.shards, step, s.slots[i], s.slots[i].phase.code, memory);
      }
    }
  }

  lemma EnumerateCause(cfg: Config, s: Planner, i: nat, oom: bool, memory: bool)
    requires Inv(cfg, s) && ErrorsCaused(cfg, s, memory) && i < |s.slots| && s.slots[i].phase.PendingMeta?
    requires memory ==> !oom
    ensures ErrorsCaused(cfg, Enumerate(cfg, s, i, oom), memory)
    ensures ErrorsCaused(cfg, ShardsAsked(s, i), memory)
  {
    hide CacheOk, GatesExact, OwnersOk, RegistrationsOwned, Ordered, Secured, Conserved, ShardsSecured, ShardCause;
    assert WorkOk(cfg, s.arrays, s.shards, s.slots[i]);
  }

  lemma CheckCause(cfg: Config, s: Planner, i: nat, memory: bool)
    requires Inv(cfg, s) && ErrorsCaused(cfg, s, memory) && i < |s.slots| && s.slots[i].phase.PendingShards?
    ensures ErrorsCaused(cfg, CheckShards(s, i), memory)
  {
    hide CacheOk, GatesExact, OwnersOk, RegistrationsOwned, Ordered, Secured, Conserved, MetaCause;
    var w := s.slots[i];
    assert WorkOk(cfg, s.arrays, s.shards, w);
    var k := FirstUndone(s.shards, w.shards, 0);
    if k < |w.shards| && Query(s.shards, w.shards[k]).Failed? {
      assert BadShard(s.shards, w.shards, k, Coded(Query(s.shards, w.shards[k]).code));
    }
  }

  lemma StepKeepsCauses(cfg: Config, s: Planner, step: Step, memory: bool)
    requires Inv(cfg, s) && ErrorsCaused(cfg, s, memory) && Enabled(cfg, s, step) && (memory ==> HasMemory(step))
    ensures ErrorsCaused(cfg, Do(cfg, s, step), memory)
  {
    hide MetaCause, ShardCause, Enumerate, CheckShards, ShardsAsked, ArrayDone, ShardFetched, Build, Inv, Admit;
    hide OwnerFor, BuildWaits, AskShard, CanAdmit, CanAskShard, AskHasMemory, KeysKnown, ShardsSecured, Secured;
    match step
    case PushStep =>
    case TakeStep =>
    case AdmitWithoutStep(i) =>
    case AdmitStep(i, g, ask) => AdmitCause(cfg, s, i, g, ask, memory);
    case EnumerateStep(i, oom) => EnumerateCause(cfg, s, i, oom, memory);
    case AskShardStep(i, ask) => AskShardCause(cfg, s, i, ask, memory);
    case ShardsAskedStep(i) => EnumerateCause(cfg, s, i, false, memory);
    case CheckShardsStep(i) => CheckCause(cfg, s, i, memory);
    case SweepStep(g) =>
    case ArrayDoneStep(h, outcome) => CompleteCause(cfg, s, h, outcome, memory);
    case ShardFetchedStep(h, outcome) => CompleteCause(cfg, s, h, outcome, memory);
    case ConsumeStep(i) =>
    case BuildStep(status) => BuildCause(cfg, s, status, memory);
  }

  lemma AdmitCause(cfg: Config, s: Planner, i: nat, g: nat, ask: Option<CacheStep>, memory: bool)
    requires Inv(cfg, s) && ErrorsCaused(cfg, s, memory) && CanAdmit(cfg, s, i, g, ask) && g < |s.gates|
    requires memory ==> AskHasMemory(ask)
    ensures ErrorsCaused(cfg, Admit(s, i, g, ask), memory)
  {
    hide Caused, Inv, Apply, StepOk;
    if ask.Some? {
      ArraysKeepCause(cfg, s, ask.value, Admit(s, i, g, ask), memory);
    } else {
      var s' := Admit(s, i, g, ask);
      forall k | 0 <= k < |s'.slots| && s'.slots[k].phase.Errored?
        ensures Caused(cfg, s'.arrays, s'.shards, s'.slots[k], s'.slots[k].phase.code, memory)
      {
        if k == i { NoMemory(cfg, s'.arrays, s'.shards, s'.slots[k]); }
      }
    }
  }

  lemma NoMemory(cfg: Config, arrays: Cache, shards: Cache, w: Work)
    ensures Caused(cfg, arrays, shards, w, OOM, false)
  {
  }

  lemma AskShardCause(cfg: Config, s: Planner, i: nat, ask: Option<CacheStep>, memory: bool)
    requires Inv(cfg, s) && ErrorsCaused(cfg, s, memory) && CanAskShard(s, i, ask) && (memory ==> AskHasMemory(ask))
    ensures ErrorsCaused(cfg, AskShard(s, i, ask), memory)
  {
    hide Caused, Inv, Apply, StepOk;
    if ask.Some? {
      ShardsKeepCause(cfg, s, ask.value, AskShard(s, i, ask), memory);
    } else {
      var s' := AskShard(s, i, ask);
      forall k | 0 <= k < |s'.slots| && s'.slots[k].phase.Errored?
        ensures Caused(cfg, s'.arrays, s'.shards, s'.slots[k], s'.slots[k].phase.code, memory)
      {
        if k == i { NoMemory(cfg, s'.arrays, s'.shards, s'.slots[k]); }
      }
    }
  }

  lemma CompleteCause(cfg: Config, s: Planner, h: Handle, outcome: FetchState, memory: bool)
    requires Inv(cfg, s) && ErrorsCaused(cfg, s, memory) && !outcome.Pending?
    ensures ErrorsCaused(cfg, ArrayDone(s, h, outcome), memory)
    ensures ErrorsCaused(cfg, ShardFetched(s, h, outcome), memory)
  {
    hide Caused, Inv, Complete, CompleteGates;
    ArraysKeepCause(cfg, s, CompleteStep(h, outcome), ArrayDone(s, h, outcome), memory);
    ShardsKeepCause(cfg, s, CompleteStep(h, outcome), ShardFetched(s, h, outcome), memory);
  }

  lemma BuildCause(cfg: Config, s: Planner, status: Status, memory: bool)
    requires Inv(cfg, s) && ErrorsCaused(cfg, s, memory)
    ensures ErrorsCaused(cfg, Build(cfg, s, status), memory)
  {
    hide CacheOk, Caused, GatesExact, OwnersOk, RegistrationsOwned, Ordered, WorkOk, Raised;
    var s' := Build(cfg, s, status);
    forall i | 0 <= i < |s'.slots| && s'.slots[i].phase.Errored?
      ensures Caused(cfg, s'.arrays, s'.shards, s'.slots[i], s'.slots[i].phase.code, memory)
    {
      var code := s.slots[i].phase.code;
      ArrayStepKeepsCause(cfg, s.arrays, AdvanceStep(s.watermark), s.shards, s.slots[i], code, memory);
      ShardStepKeepsCause(cfg, s'.arrays, s.shards, AdvanceStep(s.watermark), s.slots[i], code, memory);
    }
  }

  ghost predicate RunHasMemory(run: seq<Step>) {
    forall k | 0 <= k < |run| :: HasMemory(run[k])
  }

  lemma {:induction false} RunKeepsCauses(cfg: Config, s: Planner, run: seq<Step>, memory: bool)
    requires Inv(cfg, s) && ErrorsCaused(cfg, s, memory) && RunFrom(cfg, s, run) && (memory ==> RunHasMemory(run))
    ensures Inv(cfg, EndOf(cfg, s, run)) && ErrorsCaused(cfg, EndOf(cfg, s, run), memory)
    decreases |run|
  {
    hide Inv, Enabled, Do, ErrorsCaused, HasMemory;
    if run != [] {
      StepKeepsInv(cfg, s, run[0]);
      StepKeepsCauses(cfg, s, run[0], memory);
      RunKeepsCauses(cfg, Do(cfg, s, run[0]), run[1..], memory);
    }
  }

  /** In every run, the sample consumed next is delivered exactly if none of its own fetches failed, a missing shard
      excepted; a sample that comes with an error has it from one of its own fetches or from lack of memory or owner
      entries. AGAIN is swallowed, and the first other error is what the planner returns. */
  lemma ConsumedHasCause(cfg: Config, s: Planner, run: seq<Step>, i: nat, memory: bool)
    requires Inv(cfg, s) && ErrorsCaused(cfg, s, memory) && RunFrom(cfg, s, run) && (memory ==> RunHasMemory(run))
    requires CanConsume(cfg, EndOf(cfg, s, run), i)
    ensures var e := EndOf(cfg, s, run); var w, e' := e.slots[i], Consume(e, i);
            && (w.sample in Delivered(e') <==> w.phase.Done?)
            && (w.sample in Delivered(e') ==>
                  KeysKnown(cfg, e.arrays, w) && ShardsSecured(e.shards, w) && AllShardsDone(e.shards, w))
            && (w.sample in e'.dropped <==> w.phase.Errored?)
            && (w.phase.Errored? ==>
                  && Caused(cfg, e.arrays, e.shards, w, w.phase.code, memory)
                  && (w.sample in e'.swallowed <==> w.phase.code == AGAIN)
                  && e'.failure == if e.failure != OK || w.phase.code == AGAIN then e.failure
                                   else if w.phase.code == OK then INVAL else w.phase.code)
            && (w.phase.Done? ==> e'.failure == e.failure && w.sample !in e'.swallowed)
  {
    hide CacheOk, GatesExact, OwnersOk, RegistrationsOwned, Secured, Query, Splits, Caused, Concat;
    RunKeepsCauses(cfg, s, run, memory);
    var e := EndOf(cfg, s, run);
    var w, e' := e.slots[i], Consume(e, i);
    assert WorkOk(cfg, e.arrays, e.shards, w);
    NextIsUndelivered(e);
    if w.phase.Done? { assert Samples(e'.staged) == Samples(e.staged) + [w.sample]; }
    assert Delivered(e') == if w.phase.Done? then Delivered(e) + [w.sample] else Delivered(e);
  }

  /** One of the sample's own fetches ended with AGAIN, and the cache still says so. */
  ghost predicate Blamed(cfg: Config, arrays: Cache, shards: Cache, w: Work) {
    && Secured(arrays, w.meta, cfg.metaKey(w.sample), w.sample)
    && (|| Query(arrays, w.meta) == Failed(AGAIN)
        || (KeysKnown(cfg, arrays, w) && ShardsSecured(shards, w) && SomeAgain(shards, w.shards)))
  }

  ghost predicate SomeAgain(shards: Cache, handles: seq<Handle>) {
    exists k :: 0 <= k < |handles| && Query(shards, handles[k]) == Failed(AGAIN)
  }

  /** A sample is swallowed only if one of its own fetches ended with AGAIN. */
  lemma SwallowedHasCause(cfg: Config, s: Planner, run: seq<Step>, i: nat)
    requires Inv(cfg, s) && ErrorsCaused(cfg, s, false) && RunFrom(cfg, s, run)
    requires CanConsume(cfg, EndOf(cfg, s, run), i)
    ensures var e := EndOf(cfg, s, run); var w := e.slots[i];
            w.sample in Consume(e, i).swallowed ==> Blamed(cfg, e.arrays, e.shards, w)
  {
    hide Inv, ErrorsCaused, Secured, Query, KeysKnown, ShardsSecured, Caused;
    ConsumedHasCause(cfg, s, run, i, false);
    var e := EndOf(cfg, s, run);
    AgainBlamed(cfg, e.arrays, e.shards, e.slots[i]);
  }

  lemma AgainBlamed(cfg: Config, arrays: Cache, shards: Cache, w: Work)
    requires w.phase == Errored(AGAIN) ==> Caused(cfg, arrays, shards, w, AGAIN, false)
    ensures w.phase == Errored(AGAIN) ==> Blamed(cfg, arrays, shards, w)
  {
    hide Secured, ShardsSecured;
    if w.phase == Errored(AGAIN) && ShardCause(shards, w.shards, AGAIN) {
      var k: nat :| BadShard(shards, w.shards, k, AGAIN);
      assert Query(shards, w.shards[k]) == Failed(AGAIN);
    }
  }

  /** A failed sample shows at its gate. */
  ghost predicate ErrorsShown(s: Planner) {
    forall i | 0 <= i < |s.slots| && s.slots[i].phase.Errored? && s.slots[i].owner.Some? ::
      s.slots[i].owner.value < |s.gates| && s.gates[s.slots[i].owner.value].error
  }

  /** Gates keep their errors, but for that of an owner entry newly given out. */
  ghost predicate ErrorsKept(before: seq<Gate>, after: seq<Gate>) {
    |after| == |before| && forall g | 0 <= g < |before| :: before[g].error ==> after[g].error
  }

  lemma AskKeepsErrors(c: Cache, gates: seq<Gate>, ask: Option<CacheStep>)
    requires ask.Some? ==> StepOk(c, ask.value)
    ensures ErrorsKept(gates, AskGates(c, gates, ask))
  {
  }

  lemma CompleteKeepsErrors(c: Cache, gates: seq<Gate>, h: Handle, outcome: FetchState)
    requires CacheOk(c)
    ensures ErrorsKept(gates, CompleteGates(c, gates, h, outcome))
  {
    hide CacheOk;
    assert |CompleteGates(c, gates, h, outcome)| == |gates|;
    forall g | 0 <= g < |gates| && gates[g].error ensures CompleteGates(c, gates, h, outcome)[g].error {
      CompleteTells(c, gates, h, outcome, g);
    }
  }

  /** Nothing but the gates has changed. */
  lemma GatesShow(s: Planner, s': Planner)
    requires ErrorsShown(s) && s'.slots == s.slots && ErrorsKept(s.gates, s'.gates)
    ensures ErrorsShown(s')
  {
  }

  lemma AdmitShows(cfg: Config, s: Planner, i: nat, g: nat, ask: Option<CacheStep>)
    requires Inv(cfg, s) && ErrorsShown(s) && CanAdmit(cfg, s, i, g, ask) && g < |s.gates|
    ensures ErrorsShown(Admit(s, i, g, ask))
  {
    hide Conserved, Ordered, HandlesOk, GatesExact, RegistrationsOwned, NoOrphans, AskGates, AskCache, StepOk,
         UsedBySlot;
    OwnerIsNew(cfg, s, g);
    AskKeepsErrors(s.arrays, WithOwner(s, s.hand.value, g).gates, ask);
  }

  lemma AskShardShows(s: Planner, i: nat, ask: Option<CacheStep>)
    requires ErrorsShown(s) && CanAskShard(s, i, ask)
    ensures ErrorsShown(AskShard(s, i, ask))
  {
    hide AskGates, AskCache, StepOk;
    AskKeepsErrors(s.shards, s.gates, ask);
  }

  lemma SlotShows(cfg: Config, s: Planner, i: nat, oom: bool)
    requires ErrorsShown(s) && i < |s.slots|
    requires s.slots[i].owner.Some? ==> s.slots[i].owner.value < |s.gates|
    ensures ErrorsShown(Enumerate(cfg, s, i, oom)) && ErrorsShown(ShardsAsked(s, i)) && ErrorsShown(CheckShards(s, i))
  {
    hide Query, FirstUndone;
  }

  lemma OwnedBelow(cfg: Config, s: Planner, i: nat)
    requires Inv(cfg, s) && i < |s.slots|
    ensures s.slots[i].owner.Some? ==> s.slots[i].owner.value < |s.gates|
  {
    hide Conserved, Ordered, HandlesOk, RegistrationsOwned, NoOrphans, UsedBySlot, GateExact;
  }

  lemma StepShowsErrors(cfg: Config, s: Planner, step: Step)
    requires Inv(cfg, s) && ErrorsShown(s) && Enabled(cfg, s, step)
    ensures ErrorsShown(Do(cfg, s, step))
  {
    hide Admit, AskShard, Enumerate, CheckShards, ShardsAsked, CanAdmit, CanAskShard, OwnerFor, Complete, CompleteGates,
         Raised, Inv, BuildWaits;
    match step
    case AdmitStep(i, g, ask) => AdmitShows(cfg, s, i, g, ask);
    case EnumerateStep(i, oom) =>
      OwnedBelow(cfg, s, i);
      SlotShows(cfg, s, i, oom);
    case AskShardStep(i, ask) => AskShardShows(s, i, ask);
    case ShardsAskedStep(i) =>
      OwnedBelow(cfg, s, i);
      SlotShows(cfg, s, i, false);
    case CheckShardsStep(i) =>
      OwnedBelow(cfg, s, i);
      SlotShows(cfg, s, i, false);
    case ArrayDoneStep(h, outcome) => DoneShows(cfg, s, h, outcome);
    case ShardFetchedStep(h, outcome) => DoneShows(cfg, s, h, outcome);
    case _ =>
  }

  lemma DoneShows(cfg: Config, s: Planner, h: Handle, outcome: FetchState)
    requires Inv(cfg, s) && ErrorsShown(s)
    ensures ErrorsShown(ArrayDone(s, h, outcome)) && ErrorsShown(ShardFetched(s, h, outcome))
  {
    hide Conserved, Ordered, OwnersOk, GatesExact, RegistrationsOwned, NoOrphans, CacheOk, WorkOk, CompleteGates,
         Complete,
         ErrorsShown;
    CompleteKeepsErrors(s.arrays, s.gates, h, outcome);
    CompleteKeepsErrors(s.shards, s.gates, h, outcome);
    GatesShow(s, ArrayDone(s, h, outcome));
    GatesShow(s, ShardFetched(s, h, outcome));
  }

  /** Over every run of a new planner, the gate of a failed sample shows the error. */
  lemma FailedShows(cfg: Config, arrays: nat, shards: nat, run: seq<Step>, i: nat)
    requires Inv(cfg, Initial(cfg, arrays, shards)) && RunFrom(cfg, Initial(cfg, arrays, shards), run)
    ensures var e := EndOf(cfg, Initial(cfg, arrays, shards), run);
            i < |e.slots| && e.slots[i].phase.Errored? && e.slots[i].owner.Some? ==>
              e.slots[i].owner.value < |e.gates| && e.gates[e.slots[i].owner.value].error
  {
    hide RunFrom, EndOf;
    RunShowsErrors(cfg, Initial(cfg, arrays, shards), run);
  }

  lemma {:induction false} RunShowsErrors(cfg: Config, s: Planner, run: seq<Step>)
    requires Inv(cfg, s) && ErrorsShown(s) && RunFrom(cfg, s, run)
    ensures ErrorsShown(EndOf(cfg, s, run))
    decreases |run|
  {
    hide Inv, Enabled, Do, ErrorsShown;
    if run != [] {
      StepKeepsInv(cfg, s, run[0]);
      StepShowsErrors(cfg, s, run[0]);
      RunShowsErrors(cfg, Do(cfg, s, run[0]), run[1..]);
    }
  }

  lemma NextIsUndelivered(s: Planner)
    requires Splits(Delivered(s), s.dropped, s.nextConsume)
    ensures s.nextConsume !in Delivered(s) && s.nextConsume !in s.dropped
  {
  }

  // --- What the fetches of a sample brought ---------------------------------------------------------------

  /** What a planner step does to the array cache and to the shard cache. */
  ghost function ArrayAct(s: Planner, step: Step): Option<CacheStep> {
    match step
    case AdmitStep(_, _, ask) => ask
    case ArrayDoneStep(h, outcome) => Some(CompleteStep(h, outcome))
    case BuildStep(_) => Some(AdvanceStep(s.watermark))
    case _ => None
  }

  ghost function ShardAct(s: Planner, step: Step): Option<CacheStep> {
    match step
    case AskShardStep(_, ask) => ask
    case ShardFetchedStep(h, outcome) => Some(CompleteStep(h, outcome))
    case BuildStep(_) => Some(AdvanceStep(s.watermark))
    case _ => None
  }

  ghost function ArrayRun(cfg: Config, s: Planner, run: seq<Step>): seq<CacheStep>
    requires RunFrom(cfg, s, run)
    decreases |run|
  {
    if run == [] then []
    else Listed(ArrayAct(s, run[0])) + ArrayRun(cfg, Do(cfg, s, run[0]), run[1..])
  }

  ghost function ShardRun(cfg: Config, s: Planner, run: seq<Step>): seq<CacheStep>
    requires RunFrom(cfg, s, run)
    decreases |run|
  {
    if run == [] then []
    else Listed(ShardAct(s, run[0])) + ShardRun(cfg, Do(cfg, s, run[0]), run[1..])
  }

  ghost function Listed(act: Option<CacheStep>): seq<CacheStep> {
    if act.Some? then [act.value] else []
  }

  ghost predicate ActOk(c: Cache, act: Option<CacheStep>, c': Cache) {
    if act.Some? then StepOk(c, act.value) && c' == Apply(c, act.value) else c' == c
  }

  lemma StepActs(cfg: Config, s: Planner, step: Step)
    requires Enabled(cfg, s, step)
    ensures ActOk(s.arrays, ArrayAct(s, step), Do(cfg, s, step).arrays)
    ensures ActOk(s.shards, ShardAct(s, step), Do(cfg, s, step).shards)
  {
    hide Complete, CompleteGates, Raised, Hit, Miss, HasKey, MissOk, AskGates, BuildWaits, OwnerFor, FirstUndone, Query,
         AskResult, ShardDone, Samples;
  }

  /** To each cache, a run of the planner is a run of that cache. */
  lemma {:induction false} RunActs(cfg: Config, s: Planner, run: seq<Step>)
    requires RunFrom(cfg, s, run)
    ensures RunOk(s.arrays, ArrayRun(cfg, s, run)) && RunOk(s.shards, ShardRun(cfg, s, run))
    ensures After(s.arrays, ArrayRun(cfg, s, run)) == EndOf(cfg, s, run).arrays
    ensures After(s.shards, ShardRun(cfg, s, run)) == EndOf(cfg, s, run).shards
    decreases |run|
  {
    hide Enabled, Do, StepOk, Apply, ArrayAct, ShardAct;
    if run != [] {
      StepActs(cfg, s, run[0]);
      var s' := Do(cfg, s, run[0]);
      RunActs(cfg, s', run[1..]);
      FirstAct(s.arrays, ArrayAct(s, run[0]), s'.arrays, ArrayRun(cfg, s', run[1..]));
      FirstAct(s.shards, ShardAct(s, run[0]), s'.shards, ShardRun(cfg, s', run[1..]));
    }
  }

  lemma FirstAct(c: Cache, act: Option<CacheStep>, c': Cache, rest: seq<CacheStep>)
    requires ActOk(c, act, c') && RunOk(c', rest)
    ensures RunOk(c, Listed(act) + rest) && After(c, Listed(act) + rest) == After(c', rest)
  {
    hide StepOk, Apply;
    if act.Some? {
      assert ([act.value] + rest)[1..] == rest;
    } else {
      assert [] + rest == rest;
    }
  }

  /** The outcome of a handle's fetch: what the first completion that meets the fetch under way says. */
  ghost function ArrayTold(cfg: Config, s: Planner, run: seq<Step>, h: Handle): Option<FetchState>
    requires RunFrom(cfg, s, run)
    decreases |run|
  {
    if run == [] then None
    else if run[0].ArrayDoneStep? && run[0].handle == h && Lookup(s.arrays, h).Some? && Query(s.arrays, h).Pending?
    then Some(run[0].outcome)
    else ArrayTold(cfg, Do(cfg, s, run[0]), run[1..], h)
  }

  ghost function ShardTold(cfg: Config, s: Planner, run: seq<Step>, h: Handle): Option<FetchState>
    requires RunFrom(cfg, s, run)
    decreases |run|
  {
    if run == [] then None
    else if run[0].ShardFetchedStep? && run[0].handle == h && Lookup(s.shards, h).Some? && Query(s.shards, h).Pending?
    then Some(run[0].outcome)
    else ShardTold(cfg, Do(cfg, s, run[0]), run[1..], h)
  }

  lemma {:induction false} ArrayToldIs(cfg: Config, s: Planner, run: seq<Step>, h: Handle)
    requires RunFrom(cfg, s, run) && RunOk(s.arrays, ArrayRun(cfg, s, run))
    ensures ArrayTold(cfg, s, run, h) == Told(s.arrays, ArrayRun(cfg, s, run), h)
    decreases |run|
  {
    hide Do, StepOk, Apply, Lookup, Query;
    if run != [] {
      StepActs(cfg, s, run[0]);
      var s' := Do(cfg, s, run[0]);
      RunActs(cfg, s', run[1..]);
      ArrayToldIs(cfg, s', run[1..], h);
      FirstTold(s.arrays, ArrayAct(s, run[0]), s'.arrays, ArrayRun(cfg, s', run[1..]), h);
    }
  }

  lemma {:induction false} ShardToldIs(cfg: Config, s: Planner, run: seq<Step>, h: Handle)
    requires RunFrom(cfg, s, run) && RunOk(s.shards, ShardRun(cfg, s, run))
    ensures ShardTold(cfg, s, run, h) == Told(s.shards, ShardRun(cfg, s, run), h)
    decreases |run|
  {
    hide Do, StepOk, Apply, Lookup, Query;
    if run != [] {
      StepActs(cfg, s, run[0]);
      var s' := Do(cfg, s, run[0]);
      RunActs(cfg, s', run[1..]);
      ShardToldIs(cfg, s', run[1..], h);
      FirstTold(s.shards, ShardAct(s, run[0]), s'.shards, ShardRun(cfg, s', run[1..]), h);
    }
  }

  lemma FirstTold(c: Cache, act: Option<CacheStep>, c': Cache, rest: seq<CacheStep>, h: Handle)
    requires ActOk(c, act, c') && RunOk(c', rest) && RunOk(c, Listed(act) + rest)
    ensures Told(c, Listed(act) + rest, h) ==
              if act.Some? && act.value.CompleteStep? && act.value.handle == h && Lookup(c, h).Some?
                  && Query(c, h).Pending?
              then Some(act.value.outcome) else Told(c', rest, h)
  {
    hide StepOk, Apply, Lookup, Query;
    if act.Some? {
      assert ([act.value] + rest)[1..] == rest;
    } else {
      assert [] + rest == rest;
    }
  }

  /** In every run of a new planner, a handle that resolves reports the outcome of its own fetch. */
  lemma ReportsOwnFetch(cfg: Config, arrays: nat, shards: nat, run: seq<Step>, h: Handle)
    requires RunFrom(cfg, Initial(cfg, arrays, shards), run)
    ensures var s := Initial(cfg, arrays, shards); var e := EndOf(cfg, s, run);
            && (Lookup(e.arrays, h).Some? ==> Query(e.arrays, h) == OrPending(ArrayTold(cfg, s, run, h)))
            && (Lookup(e.shards, h).Some? ==> Query(e.shards, h) == OrPending(ShardTold(cfg, s, run, h)))
  {
    hide RunOk, After, ArrayRun, ShardRun, ArrayTold, ShardTold, Told, RunFrom, EndOf;
    var s := Initial(cfg, arrays, shards);
    RunActs(cfg, s, run);
    ArrayToldIs(cfg, s, run, h);
    ShardToldIs(cfg, s, run, h);
    RunReports(s.arrays, ArrayRun(cfg, s, run), h);
    RunReports(s.shards, ShardRun(cfg, s, run), h);
  }

  /** The sample's array came, admits the query, and needs the shards asked for, each of which came or is missing. */
  ghost predicate Fetched(cfg: Config, s: Planner, run: seq<Step>, w: Work)
    requires RunFrom(cfg, s, run)
  {
    && ArrayTold(cfg, s, run, w.meta).Some? && ArrayTold(cfg, s, run, w.meta).value.Ready?
    && w.keys == cfg.shardKeys(w.sample, ArrayTold(cfg, s, run, w.meta).value.value) && w.keys.Some?
    && |w.shards| == |w.keys.value|
    && forall k | 0 <= k < |w.shards| ::
         var told := ShardTold(cfg, s, run, w.shards[k]);
         told.Some? && (told.value.Ready? || told.value == Failed(NOTFOUND))
  }

  /** In every run of a new planner, what is staged for a plan has been fetched. */
  lemma StagedIsFetched(cfg: Config, arrays: nat, shards: nat, run: seq<Step>, k: nat)
    requires Inv(cfg, Initial(cfg, arrays, shards)) && RunFrom(cfg, Initial(cfg, arrays, shards), run)
    requires k < |EndOf(cfg, Initial(cfg, arrays, shards), run).staged|
    ensures var s := Initial(cfg, arrays, shards); Fetched(cfg, s, run, EndOf(cfg, s, run).staged[k])
  {
    hide Initial, ArrayTold, ShardTold, RunFrom, EndOf, CacheOk, GatesExact, OwnersOk, RegistrationsOwned, Ordered,
         Conserved, NoOrphans, Lookup, Query;
    var s := Initial(cfg, arrays, shards);
    RunKeepsInv(cfg, s, run);
    var e := EndOf(cfg, s, run);
    var w := e.staged[k];
    assert StagedOk(cfg, e.arrays, e.shards, w);
    ReportsOwnFetch(cfg, arrays, shards, run, w.meta);
    forall j | 0 <= j < |w.shards|
      ensures Query(e.shards, w.shards[j]) == OrPending(ShardTold(cfg, s, run, w.shards[j]))
    {
      ReportsOwnFetch(cfg, arrays, shards, run, w.shards[j]);
    }
  }

  // --- Runs in which no fetch reports AGAIN ----------------------------------------------------------------

  /** AGAIN has not been reported by any fetch that a cache or slot remembers. */
  ghost predicate NoAgain(s: Planner) {
    && (forall i: nat | Holds(s.arrays, i) :: s.arrays.active[i].value.state != Failed(AGAIN))
    && (forall i: nat | Holds(s.shards, i) :: s.shards.active[i].value.state != Failed(AGAIN))
    && (forall i | 0 <= i < |s.slots| :: s.slots[i].phase != Errored(AGAIN))
    && s.swallowed == {}
  }

  lemma CacheStepNoAgain(c: Cache, step: CacheStep)
    requires StepOk(c, step) && forall i: nat | Holds(c, i) :: c.active[i].value.state != Failed(AGAIN)
    requires step.CompleteStep? ==> step.outcome != Failed(AGAIN)
    ensures forall i: nat | Holds(Apply(c, step), i) :: Apply(c, step).active[i].value.state != Failed(AGAIN)
  {
    forall i: nat | Holds(Apply(c, step), i) ensures Apply(c, step).active[i].value.state != Failed(AGAIN) {
      if i < |c.active| && c.active[i].Some? { assert Holds(c, i); }
    }
  }

  ghost predicate ReportsAgain(step: Step) {
    (step.ArrayDoneStep? || step.ShardFetchedStep?) && step.outcome == Failed(AGAIN)
  }

  lemma AdmitNoAgain(cfg: Config, s: Planner, i: nat, g: nat, ask: Option<CacheStep>)
    requires NoAgain(s) && CanAdmit(cfg, s, i, g, ask) && g < |s.gates|
    ensures NoAgain(Admit(s, i, g, ask))
  {
    hide Apply, StepOk, OwnerFor;
    if ask.Some? { CacheStepNoAgain(s.arrays, ask.value); }
  }

  lemma AskShardNoAgain(s: Planner, i: nat, ask: Option<CacheStep>)
    requires NoAgain(s) && CanAskShard(s, i, ask)
    ensures NoAgain(AskShard(s, i, ask))
  {
    hide Apply, StepOk;
    if ask.Some? { CacheStepNoAgain(s.shards, ask.value); }
  }

  lemma SlotStepNoAgain(cfg: Config, s: Planner, i: nat, oom: bool)
    requires NoAgain(s) && i < |s.slots|
    ensures NoAgain(Enumerate(cfg, s, i, oom)) && NoAgain(CheckShards(s, i)) && NoAgain(ShardsAsked(s, i))
  {
    QueryNotAgain(s.arrays, s.slots[i].meta);
    var k := FirstUndone(s.shards, s.slots[i].shards, 0);
    if k < |s.slots[i].shards| { QueryNotAgain(s.shards, s.slots[i].shards[k]); }
  }

  lemma StepKeepsNoAgain(cfg: Config, s: Planner, step: Step)
    requires NoAgain(s) && Enabled(cfg, s, step) && !ReportsAgain(step)
    ensures NoAgain(Do(cfg, s, step))
  {
    hide Admit, AskShard, Enumerate, CheckShards, ShardsAsked, CanAdmit, CanAskShard, OwnerFor, Complete,
         CompleteGates, Raised;
    match step
    case PushStep =>
    case TakeStep =>
    case AdmitWithoutStep(i) =>
    case AdmitStep(i, g, ask) => AdmitNoAgain(cfg, s, i, g, ask);
    case EnumerateStep(i, oom) => SlotStepNoAgain(cfg, s, i, oom);
    case AskShardStep(i, ask) => AskShardNoAgain(s, i, ask);
    case ShardsAskedStep(i) => SlotStepNoAgain(cfg, s, i, false);
    case CheckShardsStep(i) => SlotStepNoAgain(cfg, s, i, false);
    case SweepStep(g) =>
    case ArrayDoneStep(h, outcome) => CompletedNoAgain(s.arrays, h, outcome);
    case ShardFetchedStep(h, outcome) => CompletedNoAgain(s.shards, h, outcome);
    case ConsumeStep(i) =>
    case BuildStep(status) =>
      RaisedNoAgain(s.arrays, s.watermark);
      RaisedNoAgain(s.shards, s.watermark);
  }

  lemma QueryNotAgain(c: Cache, h: Handle)
    requires forall i: nat | Holds(c, i) :: c.active[i].value.state != Failed(AGAIN)
    ensures Query(c, h) != Failed(AGAIN)
  {
    if Lookup(c, h).Some? { assert Holds(c, h.index); }
  }

  lemma CompletedNoAgain(c: Cache, h: Handle, outcome: FetchState)
    requires (forall i: nat | Holds(c, i) :: c.active[i].value.state != Failed(AGAIN)) && outcome != Failed(AGAIN)
               && !outcome.Pending?
    ensures forall i: nat | Holds(Complete(c, h, outcome), i) ::
              Complete(c, h, outcome).active[i].value.state != Failed(AGAIN)
  {
    CacheStepNoAgain(c, CompleteStep(h, outcome));
  }

  lemma RaisedNoAgain(c: Cache, watermark: nat)
    requires forall i: nat | Holds(c, i) :: c.active[i].value.state != Failed(AGAIN)
    ensures forall i: nat | Holds(Raised(c, watermark), i) ::
              Raised(c, watermark).active[i].value.state != Failed(AGAIN)
  {
    CacheStepNoAgain(c, AdvanceStep(watermark));
  }

  lemma NoneDroppedInRows(cfg: Config, s: Planner)
    requires Ordered(cfg, s) && s.dropped == {}
    ensures InRows(s)
  {
    SplitsInOrder(Delivered(s), Delivered(s), s.dropped, s.nextConsume);
  }

  /** As long as no fetch reports AGAIN nothing is swallowed, so the rows are in order. */
  lemma {:induction false} QuietRunsInOrder(cfg: Config, s: Planner, run: seq<Step>)
    requires Inv(cfg, s) && NoAgain(s) && RunFrom(cfg, s, run) && forall k | 0 <= k < |run| :: !ReportsAgain(run[k])
    ensures Inv(cfg, EndOf(cfg, s, run)) && NoAgain(EndOf(cfg, s, run))
    ensures EndOf(cfg, s, run).failure == OK ==> InRows(EndOf(cfg, s, run))
    decreases |run|
  {
    hide Enabled, Do;
    if run != [] {
      StepKeepsInv(cfg, s, run[0]);
      StepKeepsNoAgain(cfg, s, run[0]);
      assert forall k | 0 <= k < |run| - 1 :: run[1..][k] == run[k + 1];
      QuietRunsInOrder(cfg, Do(cfg, s, run[0]), run[1..]);
    } else if s.failure == OK {
      NoneDroppedInRows(cfg, s);
    }
  }

  // --- Runs without faults -------------------------------------------------------------------------------------------

  /** A state that fails no sample: a shard may be missing, an array may not. */
  ghost predicate Harmless(st: FetchState, mayMiss: bool) {
    st.Failed? ==> mayMiss && st.code == NOTFOUND
  }

  ghost predicate CacheClean(c: Cache, mayMiss: bool) {
    forall i: nat | Holds(c, i) :: Harmless(c.active[i].value.state, mayMiss)
  }

  ghost predicate Healthy(s: Planner) {
    CacheClean(s.arrays, false) && CacheClean(s.shards, true) && s.errored == 0 && s.dropped == {}
  }

  /** Every sample's query fits its array and touches no more shards than allowed. */
  ghost predicate QueriesFit(cfg: Config) {
    forall n: nat, v: nat :: cfg.shardKeys(n, v).Some? && |cfg.shardKeys(n, v).value| <= cfg.maxShards
  }

  ghost predicate AskWorks(ask: Option<CacheStep>) {
    ask.Some? && (ask.value.HitStep? ==> !ask.value.oom)
  }

  /** Memory is there, plans can be built, and fetches succeed or report a shard as missing. */
  ghost predicate FaultFree(step: Step) {
    match step
    case AdmitStep(_, _, ask) => AskWorks(ask)
    case EnumerateStep(_, oom) => !oom
    case AskShardStep(_, ask) => AskWorks(ask)
    case ArrayDoneStep(_, outcome) => Harmless(outcome, false)
    case ShardFetchedStep(_, outcome) => Harmless(outcome, true)
    case BuildStep(status) => status == OK
    case _ => true
  }

  lemma CacheStepClean(c: Cache, step: CacheStep, mayMiss: bool)
    requires StepOk(c, step) && CacheClean(c, mayMiss) && (step.CompleteStep? ==> Harmless(step.outcome, mayMiss))
    ensures CacheClean(Apply(c, step), mayMiss)
  {
    forall i: nat | Holds(Apply(c, step), i) ensures Harmless(Apply(c, step).active[i].value.state, mayMiss) {
      if i < |c.active| && c.active[i].Some? { assert Holds(c, i); }
    }
  }

  lemma QueryHarmless(c: Cache, h: Handle, mayMiss: bool)
    requires CacheClean(c, mayMiss)
    ensures Harmless(Query(c, h), mayMiss)
  {
    if Lookup(c, h).Some? { assert Holds(c, h.index); }
  }

  lemma AskSucceeds(c: Cache, ask: Option<CacheStep>, key: Key, owner: nat, gate: nat)
    requires AskOk(c, ask, key, owner, gate) && AskWorks(ask)
    ensures AskResult(c, ask).status in {OK, AGAIN}
  {
  }

  lemma AdmitHealthy(cfg: Config, s: Planner, i: nat, g: nat, ask: Option<CacheStep>)
    requires Healthy(s) && CanAdmit(cfg, s, i, g, ask) && g < |s.gates| && AskWorks(ask)
    ensures Healthy(Admit(s, i, g, ask))
  {
    hide Apply, StepOk, OwnerFor, CacheClean, AskResult;
    AskSucceeds(s.arrays, ask, cfg.metaKey(s.hand.value), s.hand.value, g);
    CacheStepClean(s.arrays, ask.value, false);
  }

  lemma AskShardHealthy(s: Planner, i: nat, ask: Option<CacheStep>)
    requires Healthy(s) && CanAskShard(s, i, ask) && AskWorks(ask)
    ensures Healthy(AskShard(s, i, ask))
  {
    hide Apply, StepOk, CacheClean, AskResult;
    var w := s.slots[i];
    AskSucceeds(s.shards, ask, w.keys.value[|w.shards|], w.sample, w.owner.value);
    CacheStepClean(s.shards, ask.value, true);
  }

  lemma SlotStepHealthy(cfg: Config, s: Planner, i: nat)
    requires Healthy(s) && QueriesFit(cfg) && i < |s.slots|
    ensures Healthy(Enumerate(cfg, s, i, false)) && Healthy(CheckShards(s, i)) && Healthy(ShardsAsked(s, i))
  {
    hide CacheClean;
    QueryHarmless(s.arrays, s.slots[i].meta, false);
    var k := FirstUndone(s.shards, s.slots[i].shards, 0);
    if k < |s.slots[i].shards| { QueryHarmless(s.shards, s.slots[i].shards[k], true); }
  }

  lemma StepKeepsHealthy(cfg: Config, s: Planner, step: Step)
    requires Inv(cfg, s) && Healthy(s) && QueriesFit(cfg) && Enabled(cfg, s, step) && FaultFree(step)
    ensures Healthy(Do(cfg, s, step))
  {
    hide Admit, AskShard, Enumerate, CheckShards, ShardsAsked, CanAdmit, CanAskShard, Complete, CompleteGates, Raised;
    hide CacheClean, QueriesFit, HandlesOk, GatesExact, RegistrationsOwned, Ordered, AskWorks;
    match step
    case PushStep =>
    case TakeStep =>
    case AdmitWithoutStep(i) =>
      var g := OwnerAvailable(cfg, s);
      assert false;
    case AdmitStep(i, g, ask) => AdmitHealthy(cfg, s, i, g, ask);
    case EnumerateStep(i, oom) => SlotStepHealthy(cfg, s, i);
    case AskShardStep(i, ask) => AskShardHealthy(s, i, ask);
    case ShardsAskedStep(i) => SlotStepHealthy(cfg, s, i);
    case CheckShardsStep(i) => SlotStepHealthy(cfg, s, i);
    case SweepStep(g) =>
    case ArrayDoneStep(h, outcome) => CacheStepClean(s.arrays, CompleteStep(h, outcome), false);
    case ShardFetchedStep(h, outcome) => CacheStepClean(s.shards, CompleteStep(h, outcome), true);
    case ConsumeStep(i) =>
    case BuildStep(status) =>
      CacheStepClean(s.arrays, AdvanceStep(s.watermark), false);
      CacheStepClean(s.shards, AdvanceStep(s.watermark), true);
  }

  /** Without faults no sample is ever failed or dropped, however the threads interleave, however
      often the caches are saturated, and whichever shards are missing: the batches hold all
      consumed samples in order. */
  lemma {:induction false} FaultFreeRunsDeliver(cfg: Config, s: Planner, run: seq<Step>)
    requires Inv(cfg, s) && Healthy(s) && QueriesFit(cfg) && RunFrom(cfg, s, run) && forall k | 0 <= k < |run| ::
               FaultFree(run[k])
    ensures Inv(cfg, EndOf(cfg, s, run)) && Healthy(EndOf(cfg, s, run)) && InRows(EndOf(cfg, s, run))
    decreases |run|
  {
    hide Enabled, Do, FaultFree, QueriesFit, CacheClean;
    if run != [] {
      StepKeepsInv(cfg, s, run[0]);
      StepKeepsHealthy(cfg, s, run[0]);
      assert forall k | 0 <= k < |run| - 1 :: run[1..][k] == run[k + 1];
      FaultFreeRunsDeliver(cfg, Do(cfg, s, run[0]), run[1..]);
    } else {
      NoneDroppedInRows(cfg, s);
    }
  }

  lemma InitialHealthy(cfg: Config, arrays: nat, shards: nat)
    ensures Healthy(Initial(cfg, arrays, shards))
  {
  }

  // --- The failing case ----------------------------------------------------------------------------------------------

  lemma {:induction false} OneMore(cfg: Config, s: Planner, run: seq<Step>, step: Step)
    requires RunFrom(cfg, s, run) && Enabled(cfg, EndOf(cfg, s, run), step)
    ensures RunFrom(cfg, s, run + [step]) && EndOf(cfg, s, run + [step]) == Do(cfg, EndOf(cfg, s, run), step)
    decreases |run|
  {
    hide Enabled, Do;
    if run == [] {
      assert run + [step] == [step];
      assert [step][1..] == [];
    } else {
      OneMore(cfg, Do(cfg, s, run[0]), run[1..], step);
      assert (run + [step])[1..] == run[1..] + [step];
    }
  }

  /** Two one-element queries on different arrays, planned one per batch. */
  ghost function SmallConfig(): Config {
    Config(1, 1, 1, n => MetaKey(if n == 0 then "a" else "b"), (n, v) => Some([]))
  }

  /** Nothing is under way, and slot `index` of the array cache is free. */
  ghost predicate Quiet(e: Planner, index: nat) {
    && e.queue == [] && e.hand.None? && e.slots == [FREE] && e.staged == [] && e.pushed == e.nextConsume <= 1
    && |e.owners| == |e.gates| == 5 && (forall k | 0 <= k < 5 :: !e.owners[k].inUse) && e.gates[0].pending == 0
    && |e.arrays.active| == 2 && index < 2 && e.arrays.active[index].None?
    && (forall i: nat :: !HasKey(e.arrays, SmallConfig().metaKey(e.pushed), i))
  }

  ghost function AskFor(e: Planner, index: nat): CacheStep {
    MissStep(SmallConfig().metaKey(e.pushed), e.pushed, 0, {}, Some(index))
  }

  /** The next sample is in the only slot and its array has been asked for. */
  ghost function TakenIn(e: Planner, index: nat): Planner
    requires Quiet(e, index)
  {
    e.(slots := [Work(PendingMeta, e.pushed, Some(0), Handle(index, e.arrays.generation + 1), None, [])],
       arrays := e.arrays.(generation := e.arrays.generation + 1,
                           active := e.arrays.active[index := Some(NewEntry(e.arrays, SmallConfig().metaKey(e.pushed),
                                                                            e.pushed, 0))]),
       owners := e.owners[0 := Owner(true, e.pushed, 1)], gates := e.gates[0 := Gate(1, false)], pushed := e.pushed + 1)
  }

  lemma AskAllowed(e: Planner, index: nat)
    requires Quiet(e, index)
    ensures StepOk(e.arrays, AskFor(e, index)) && Apply(e.arrays, AskFor(e, index)) == TakenIn(e, index).arrays
  {
    assert Evict(e.arrays, {}).active == e.arrays.active;
  }

  lemma TakeInSteps(e: Planner, index: nat)
    requires Quiet(e, index)
    ensures Enabled(SmallConfig(), e, PushStep) && Enabled(SmallConfig(), Push(e), TakeStep)
    ensures Enabled(SmallConfig(), Take(Push(e)), AdmitStep(0, 0, Some(AskFor(e, index))))
    ensures Admit(Take(Push(e)), 0, 0, Some(AskFor(e, index))) == TakenIn(e, index)
  {
    hide StepOk, Apply, HasKey;
    AskAllowed(e, index);
    var held := Take(Push(e));
    assert held == e.(hand := Some(e.pushed), pushed := e.pushed + 1);
    assert CanAdmit(SmallConfig(), held, 0, 0, Some(AskFor(e, index)));
  }

  /** The sample in the only slot waits for its array. */
  ghost predicate Asked(e: Planner) {
    && |e.slots| == 1 && e.slots[0].phase.PendingMeta? && e.slots[0].keys.None? && e.slots[0].shards == []
    && e.slots[0].sample == e.nextConsume && e.staged == [] && e.slots[0].owner == Some(0)
    && |e.owners| == |e.gates| == 5 && e.owners[0].refs == 1 && e.gates[0] == Gate(1, false)
    && Lookup(e.arrays, e.slots[0].meta).Some? && Lookup(e.arrays, e.slots[0].meta).value.state.Pending?
    && Lookup(e.arrays, e.slots[0].meta).value.waiters == [0]
  }

  lemma FetchEnds(e: Planner, outcome: FetchState)
    requires Asked(e) && outcome in {Ready(0), Failed(AGAIN)}
    ensures var d := ArrayDone(e, e.slots[0].meta, outcome);
            && Query(d.arrays, e.slots[0].meta) == outcome && |d.gates| == 5 && d.gates[0].pending == 0
            && d == e.(arrays := d.arrays, gates := d.gates) && SameKeys(e.arrays, d.arrays)
  {
    assert [0][1..] == [];
  }

  ghost predicate SameKeys(a: Cache, b: Cache) {
    && |a.active| == |b.active|
    && forall i: nat | i < |a.active| :: (a.active[i].None? <==> b.active[i].None?)
         && (a.active[i].Some? && b.active[i].Some? ==> a.active[i].value.key == b.active[i].value.key)
  }

  /** The fetch ends, the slot settles and its sample is consumed. */
  ghost function Served(e: Planner, outcome: FetchState): Planner
    requires Asked(e) && outcome in {Ready(0), Failed(AGAIN)}
  {
    var d := Enumerate(SmallConfig(), ArrayDone(e, e.slots[0].meta, outcome), 0, false);
    if |d.slots| > 0 && Terminal(d.slots[0]) then Consume(d, 0) else d
  }

  lemma ServeSteps(e: Planner, outcome: FetchState)
    requires Asked(e) && outcome in {Ready(0), Failed(AGAIN)}
    ensures var cfg, d := SmallConfig(), ArrayDone(e, e.slots[0].meta, outcome);
            && Enabled(cfg, e, ArrayDoneStep(e.slots[0].meta, outcome)) && Enabled(cfg, d, EnumerateStep(0, false))
            && Enabled(cfg, Enumerate(cfg, d, 0, false), ConsumeStep(0))
            && Consume(Enumerate(cfg, d, 0, false), 0) == Served(e, outcome)
    ensures var f := Served(e, outcome);
            && f.slots == [FREE] && f.nextConsume == e.nextConsume + 1 && SameKeys(e.arrays, f.arrays)
            && |f.owners| == |f.gates| == 5 && f.gates[0].pending == 0
            && (forall k | 0 <= k < 5 :: f.owners[k].inUse <==> e.owners[k].inUse && k != 0)
            && f.queue == e.queue && f.hand == e.hand && f.pushed == e.pushed && f.planned == e.planned
            && f.batches == e.batches && f.failure == e.failure
               && f.dropped == e.dropped + (if outcome.Ready? then {} else {e.nextConsume})
            && f.swallowed == e.swallowed + (if outcome.Ready? then {} else {e.nextConsume})
            && (outcome.Failed? ==> f.staged == [])
            && (outcome.Ready? ==> |f.staged| == 1 && f.staged[0].sample == e.nextConsume && f.staged[0].shards == []
                                   && Query(f.arrays, f.staged[0].meta).Ready?)
  {
    hide ArrayDone, Query, SameKeys, OwnerFor, CanAdmit, CanAskShard, Lookup;
    FetchEnds(e, outcome);
    assert SmallConfig().shardKeys(e.slots[0].sample, 0) == Some([]);
  }

  lemma TakeIn(s: Planner, run: seq<Step>, index: nat) returns (run': seq<Step>)
    requires RunFrom(SmallConfig(), s, run) && Quiet(EndOf(SmallConfig(), s, run), index)
    ensures RunFrom(SmallConfig(), s, run')
              && EndOf(SmallConfig(), s, run') == TakenIn(EndOf(SmallConfig(), s, run), index)
  {
    hide Quiet, Enabled, RunFrom, EndOf, TakenIn, AskFor, Push, Take, Admit;
    var cfg, e := SmallConfig(), EndOf(SmallConfig(), s, run);
    TakeInSteps(e, index);
    OneMore(cfg, s, run, PushStep);
    OneMore(cfg, s, run + [PushStep], TakeStep);
    OneMore(cfg, s, run + [PushStep] + [TakeStep], AdmitStep(0, 0, Some(AskFor(e, index))));
    run' := run + [PushStep] + [TakeStep] + [AdmitStep(0, 0, Some(AskFor(e, index)))];
  }

  lemma Serve(s: Planner, run: seq<Step>, outcome: FetchState) returns (run': seq<Step>)
    requires RunFrom(SmallConfig(), s, run) && Asked(EndOf(SmallConfig(), s, run))
               && outcome in {Ready(0), Failed(AGAIN)}
    ensures RunFrom(SmallConfig(), s, run')
              && EndOf(SmallConfig(), s, run') == Served(EndOf(SmallConfig(), s, run), outcome)
  {
    hide Enabled, RunFrom, EndOf, Served, ArrayDone, Enumerate, Consume;
    var cfg, e := SmallConfig(), EndOf(SmallConfig(), s, run);
    var h := e.slots[0].meta;
    ServeSteps(e, outcome);
    OneMore(cfg, s, run, ArrayDoneStep(h, outcome));
    OneMore(cfg, s, run + [ArrayDoneStep(h, outcome)], EnumerateStep(0, false));
    OneMore(cfg, s, run + [ArrayDoneStep(h, outcome)] + [EnumerateStep(0, false)], ConsumeStep(0));
    run' := run + [ArrayDoneStep(h, outcome)] + [EnumerateStep(0, false)] + [ConsumeStep(0)];
  }

  /** A run in which the first sample's fetch cannot start: no failure is reported, the sample
      is gone, and the first batch holds the second sample. */
  lemma SwallowedSampleShiftsBatches() returns (run: seq<Step>)
    ensures RunFrom(SmallConfig(), Initial(SmallConfig(), 2, 2), run)
    ensures var e := EndOf(SmallConfig(), Initial(SmallConfig(), 2, 2), run);
            e.failure == OK && e.pushed == 2 && e.batches == [[1]] && e.swallowed == {0} && !InRows(e)
  {
    hide Served, RunFrom, EndOf, InRows, Delivered;
    var s := Initial(SmallConfig(), 2, 2);
    var e2;
    run, e2 := FirstSwallowed(s);
    run := TakeIn(s, run, 1);
    var e3 := TakenIn(e2, 1);
    run := Serve(s, run, Ready(0));
    BuildSecond(s, run, e3);
    run := run + [BuildStep(OK)];
  }

  lemma FirstSwallowed(s: Planner) returns (run: seq<Step>, e2: Planner)
    requires s == Initial(SmallConfig(), 2, 2)
    ensures RunFrom(SmallConfig(), s, run) && EndOf(SmallConfig(), s, run) == e2 && Quiet(e2, 1)
    ensures e2.pushed == 1 && e2.planned == 0 && e2.batches == [] && e2.swallowed == {0} && e2.failure == OK
  {
    run := TakeIn(s, [], 0);
    var e1 := TakenIn(s, 0);
    ServeSteps(e1, Failed(AGAIN));
    run := Serve(s, run, Failed(AGAIN));
    e2 := Served(e1, Failed(AGAIN));
    SecondQuiet(s, e1, e2);
  }

  lemma SecondQuiet(s: Planner, e1: Planner, e2: Planner)
    requires s == Initial(SmallConfig(), 2, 2) && Quiet(s, 0) && e1 == TakenIn(s, 0) && SameKeys(e1.arrays, e2.arrays)
    requires e2.queue == [] && e2.hand.None? && e2.slots == [FREE] && e2.staged == []
               && e2.pushed == e2.nextConsume == 1
    requires |e2.owners| == |e2.gates| == 5 && (forall k | 0 <= k < 5 :: !e2.owners[k].inUse)
               && e2.gates[0].pending == 0
    ensures Quiet(e2, 1)
  {
    assert e1.arrays.active[1].None? && e1.arrays.active[0].value.key == MetaKey("a");
    assert "a"[0] != "b"[0];
  }

  lemma BuildSecond(s: Planner, run: seq<Step>, e3: Planner)
    requires RunFrom(SmallConfig(), s, run) && Asked(e3) && EndOf(SmallConfig(), s, run) == Served(e3, Ready(0))
    requires e3.nextConsume == 1 && e3.pushed == 2 && e3.planned == 0 && e3.batches == [] && e3.swallowed == {0}
               && e3.failure == OK
    ensures RunFrom(SmallConfig(), s, run + [BuildStep(OK)])
    ensures var e := EndOf(SmallConfig(), s, run + [BuildStep(OK)]);
            e.failure == OK && e.pushed == 2 && e.batches == [[1]] && e.swallowed == {0} && !InRows(e)
  {
    hide Served, RunFrom, EndOf, Raised, Query;
    ServeSteps(e3, Ready(0));
    var f := Served(e3, Ready(0));
    assert !BuildWaits(f);
    OneMore(SmallConfig(), s, run, BuildStep(OK));
    assert Samples(f.staged) == [1];
    var e := Build(SmallConfig(), f, OK);
    assert Concat(e.batches) == [1] by { ConcatSnoc([], [1]); }
    assert Delivered(e)[0] == 1;
  }
}
