/** The whole loader as one state machine: samples are pushed and planned, plans wait in the ring of
    prepared batches, the executor renders them, and pop hands the batches out. A step is one critical
    section of any thread. */
module Loaders {
  import opened Statuses
  import opened Seqs
  import opened Arith
  import P = Prefetchers
  import D = Delivery
  import X = CpuExecutors
  import C = CpuReadPlans
  import Items = Dispatch
  import Pipelines

  /** The samples of a batch, row by row. */
  type Rows = seq<nat>

  /** `items` stands for the plan of a batch: the chunks its samples need. */
  datatype Config = Config(planner: P.Config, prepared: nat, exec: C.CpuConfig, fixed: nat,
                           items: Rows -> seq<Items.Item>)

  /** `ring` are the prepared plans, oldest first; `held` is what each executor slot was given to render;
      `popped` are the batches handed out, in order; `status` is the failure that stopped the loader, if any. */
  datatype Loader = Loader(planner: P.Planner, ring: seq<Rows>, nextBatch: nat, exec: X.Exec,
                           held: seq<Rows>, popped: seq<Rows>, status: Status)

  datatype Step =
    | PlannerStep(step: P.Step)
    | SubmitStep(slot: nat, plan: C.ReadPlan, index: seq<nat>)
    | DispatchStep(wave: nat, sent: X.Wave, upto: nat)
    | ArriveStep(wave: nat)
    | DecodeStep(wave: nat)
    | CollectStep(results: seq<Status>)
    | FreeStep(slot: nat)
    | PopStep(slot: nat)
    | RetainStep(batch: nat)
    | ReleaseStep(batch: nat)
    | FailStep(code: Status)

  // --- Steps ------------------------------------------------------------------------------------------

  /** Samples are accepted, and plans asked for, only while nothing has failed; a plan only if the ring has room. */
  ghost predicate CanPlan(cfg: Config, l: Loader, step: P.Step) {
    && P.Enabled(cfg.planner, l.planner, step)
    && (step.PushStep? ==> l.status == OK)
    && (step.ConsumeStep? || step.BuildStep? ==> l.status == OK && |l.ring| < cfg.prepared)
  }

  ghost predicate CanSubmit(cfg: Config, l: Loader, i: nat, plan: C.ReadPlan, index: seq<nat>) {
    && l.status == OK && l.ring != [] && X.Shape(l.exec) && i < 2 && l.exec.slots[i].state.Free?
    && cfg.items(l.ring[0]) != [] && C.PlanOk(cfg.exec, cfg.items(l.ring[0]), plan, index)
    && l.exec.committed + plan.bytes <= cfg.exec.maxMemory
  }

  ghost predicate Working(l: Loader, w: nat) {
    X.Shape(l.exec) && w < 2 && l.status == OK
  }

  ghost predicate Enabled(cfg: Config, l: Loader, step: Step) {
    match step
    case PlannerStep(p) => CanPlan(cfg, l, p)
    case SubmitStep(i, plan, index) => CanSubmit(cfg, l, i, plan, index)
    case DispatchStep(w, sent, upto) => Working(l, w) && X.CanDispatch(cfg.exec, l.exec, w, sent, upto)
    case ArriveStep(w) => Working(l, w) && l.exec.waves[w].state.Reading?
    case DecodeStep(w) => Working(l, w) && l.exec.waves[w].state.ReadReady? && l.exec.decoding.None?
    case CollectStep(results) => Working(l, 0) && CanCollect(l.exec, results)
    case FreeStep(i) => Working(l, i) && l.exec.slots[i].state.Held? && l.exec.refs[i] == 1
    case PopStep(i) => Working(l, i) && l.exec.slots[i].state.Finished? && l.exec.slots[i].batch == l.exec.taken
    case RetainStep(b) => b in l.exec.batches
    case ReleaseStep(b) => b in l.exec.batches && l.exec.batches[b].slot < |l.exec.refs|
    case FailStep(code) => l.status == OK && code != OK
  }

  /** The decoder reports one result for each chunk of its wave. */
  ghost predicate CanCollect(e: X.Exec, results: seq<Status>)
    requires X.Shape(e)
  {
    && e.decoding.Some? && e.decoding.value < 2 && e.waves[e.decoding.value].slot < 2
    && |results| == |e.waves[e.decoding.value].chunks|
  }

  /** What the scheduler does with the status of its parts: AGAIN is no failure, anything else stops the loader. */
  ghost function Stopped(l: Loader, code: Status): Loader {
    if code == AGAIN then l else l.(status := code)
  }

  ghost function Planned(cfg: Config, l: Loader, step: P.Step): Loader
    requires CanPlan(cfg, l, step)
  {
    var planner := P.Do(cfg.planner, l.planner, step);
    l.(planner := planner, status := if l.status == OK then planner.failure else l.status,
       ring := if step.BuildStep? && step.status == OK then l.ring + [P.Samples(l.planner.staged)] else l.ring)
  }

  ghost function Submitted(cfg: Config, l: Loader, i: nat, plan: C.ReadPlan, index: seq<nat>): Loader
    requires CanSubmit(cfg, l, i, plan, index)
  {
    var rows := l.ring[0];
    l.(ring := l.ring[1..], nextBatch := l.nextBatch + 1, held := if i < |l.held| then l.held[i := rows] else l.held,
       exec := X.Submitted(l.exec, i, cfg.items(rows), plan, index, l.nextBatch))
  }

  ghost function Popped(l: Loader, i: nat): Loader
    requires X.Shape(l.exec) && i < 2
  {
    l.(exec := X.Taken(l.exec, i), popped := if i < |l.held| then l.popped + [l.held[i]] else l.popped)
  }

  ghost function Do(cfg: Config, l: Loader, step: Step): Loader
    requires Enabled(cfg, l, step)
  {
    match step
    case PlannerStep(p) => Planned(cfg, l, p)
    case SubmitStep(i, plan, index) => Submitted(cfg, l, i, plan, index)
    case DispatchStep(w, sent, upto) => l.(exec := X.Sent(l.exec, w, sent, upto))
    case ArriveStep(w) => l.(exec := X.WaveMoved(l.exec, w, X.ReadReady))
    case DecodeStep(w) => l.(exec := X.WaveMoved(l.exec, w, X.Decoding))
    case CollectStep(results) =>
      if X.FirstBad(results) == OK then l.(exec := X.Collected(l.exec)) else Stopped(l, X.FirstBad(results))
    case FreeStep(i) => l.(exec := X.Freed(l.exec, i))
    case PopStep(i) => Popped(l, i)
    case RetainStep(b) => l.(exec := X.Shared(l.exec, b))
    case ReleaseStep(b) => l.(exec := X.Dropped(l.exec, b))
    case FailStep(code) => Stopped(l, code)
  }

  // --- What every step keeps ------------------------------------------------------------------------------

  /** Slot i was given the plan of its batch. */
  ghost predicate SlotHolds(cfg: Config, l: Loader, i: nat)
    requires i < |l.exec.slots| && i < |l.held|
  {
    var s := l.exec.slots[i];
    s.batch < |l.planner.batches| && l.held[i] == l.planner.batches[s.batch] && s.items == cfg.items(l.held[i])
  }

  /** The buffer of a live batch still belongs to that batch. */
  ghost predicate HolderOk(cfg: Config, l: Loader, b: nat)
    requires b in l.exec.batches && |l.exec.slots| == |l.held| == 2
  {
    var i := l.exec.batches[b].slot;
    i < 2 && l.exec.slots[i].state.Held? && l.exec.slots[i].batch == b && SlotHolds(cfg, l, i)
  }

  /** The planner's batches in order are those popped, those in the executor and those in the ring. */
  ghost predicate InSequence(cfg: Config, l: Loader) {
    && l.exec.submitted == l.nextBatch <= |l.planner.batches| && l.ring == l.planner.batches[l.nextBatch..]
    && l.exec.taken <= |l.planner.batches| && l.popped == l.planner.batches[..l.exec.taken]
    && |l.exec.slots| == |l.held| == 2
    && (forall i: nat | i < 2 && X.Pending(l.exec.slots[i]) :: SlotHolds(cfg, l, i))
    && (forall b | b in l.exec.batches :: HolderOk(cfg, l, b))
  }

  ghost predicate Inv(cfg: Config, l: Loader) {
    && P.Inv(cfg.planner, l.planner) && X.ExecOk(cfg.exec, cfg.fixed, l.exec) && !l.exec.stopped
    && InSequence(cfg, l) && (l.planner.failure == OK || l.planner.failure == l.status)
  }

  /** The error with which the planner answers: the sample that comes next has failed, other than with AGAIN, or no
      plan could be built. */
  ghost function Refusal(s: P.Planner, step: P.Step): Status {
    match step
    case ConsumeStep(i) =>
      if i < |s.slots| && s.slots[i].phase.Errored? && s.slots[i].phase.code != AGAIN
      then (if s.slots[i].phase.code == OK then INVAL else s.slots[i].phase.code) else OK
    case BuildStep(status) => status
    case _ => OK
  }

  lemma BatchesGrow(cfg: P.Config, s: P.Planner, step: P.Step)
    requires P.Enabled(cfg, s, step)
    ensures P.Do(cfg, s, step).batches ==
            if step.BuildStep? && step.status == OK then s.batches + [P.Samples(s.staged)] else s.batches
    ensures P.Do(cfg, s, step).pushed == if step.PushStep? then s.pushed + 1 else s.pushed
    ensures P.Do(cfg, s, step).failure == if s.failure != OK then s.failure else Refusal(s, step)
  {
    hide P.OwnerFor, P.CanAdmit, P.CanAskShard, P.BuildWaits, P.Samples, P.FirstUndone;
    match step
    case AdmitStep(i, g, ask) =>
    case EnumerateStep(i, oom) =>
    case AskShardStep(i, ask) =>
    case CheckShardsStep(i) =>
    case ConsumeStep(i) =>
    case BuildStep(status) =>
    case _ =>
  }

  lemma PlannerKeeps(cfg: Config, l: Loader, step: P.Step)
    requires Inv(cfg, l) && CanPlan(cfg, l, step)
    ensures Inv(cfg, Planned(cfg, l, step))
  {
    hide P.Inv, P.Enabled, P.Do, X.ExecOk, P.Samples;
    P.StepKeepsInv(cfg.planner, l.planner, step);
    BatchesGrow(cfg.planner, l.planner, step);
    MoreBatches(cfg, l, Planned(cfg, l, step));
  }

  /** A new batch at the end changes nothing for the earlier ones. */
  lemma MoreBatches(cfg: Config, l: Loader, l': Loader)
    requires InSequence(cfg, l) && l.planner.batches <= l'.planner.batches && l'.exec == l.exec && l'.held == l.held
    requires l'.popped == l.popped && l'.nextBatch == l.nextBatch
    requires l'.ring == l.ring + l'.planner.batches[|l.planner.batches|..]
    ensures InSequence(cfg, l')
  {
    forall i: nat | i < 2 && X.Pending(l'.exec.slots[i]) ensures SlotHolds(cfg, l', i) { assert SlotHolds(cfg, l, i); }
    forall b | b in l'.exec.batches ensures HolderOk(cfg, l', b) { assert HolderOk(cfg, l, b); }
  }

  /** The slot goes on with its batch. */
  ghost predicate GoesOn(s: X.Slot, s': X.Slot) {
    && s'.batch == s.batch && s'.items == s.items
    && (X.Pending(s') ==> X.Pending(s)) && (s.state.Held? ==> s'.state.Held?)
  }

  /** Steps inside the executor leave the sequence alone. */
  lemma ExecGoesOn(cfg: Config, l: Loader, exec: X.Exec)
    requires InSequence(cfg, l) && X.Shape(exec) && exec.submitted == l.exec.submitted && exec.taken == l.exec.taken
    requires forall i: nat | i < 2 :: GoesOn(l.exec.slots[i], exec.slots[i])
    requires forall b | b in exec.batches :: b in l.exec.batches && exec.batches[b].slot == l.exec.batches[b].slot
    ensures InSequence(cfg, l.(exec := exec))
  {
    var l' := l.(exec := exec);
    forall i: nat | i < 2 && X.Pending(exec.slots[i]) ensures SlotHolds(cfg, l', i) {
      assert GoesOn(l.exec.slots[i], exec.slots[i]);
      assert SlotHolds(cfg, l, i);
    }
    forall b | b in exec.batches ensures HolderOk(cfg, l', b) {
      assert HolderOk(cfg, l, b);
      assert GoesOn(l.exec.slots[exec.batches[b].slot], exec.slots[exec.batches[b].slot]);
    }
  }

  lemma DispatchKeeps(cfg: Config, l: Loader, w: nat, sent: X.Wave, upto: nat)
    requires Inv(cfg, l) && Enabled(cfg, l, DispatchStep(w, sent, upto))
    ensures Inv(cfg, Do(cfg, l, DispatchStep(w, sent, upto)))
  {
    hide P.Inv, InSequence, X.SlotsOk, X.WavesOk, X.BuffersOk, X.SlotOrder, X.BudgetOk;
    X.DispatchKeeps(cfg.exec, cfg.fixed, l.exec, w, sent, upto);
    ExecGoesOn(cfg, l, X.Sent(l.exec, w, sent, upto));
  }

  lemma WaveKeeps(cfg: Config, l: Loader, w: nat, step: Step)
    requires Inv(cfg, l) && Enabled(cfg, l, step) && (step == ArriveStep(w) || step == DecodeStep(w))
    ensures Inv(cfg, Do(cfg, l, step))
  {
    hide P.Inv, InSequence, X.SlotsOk, X.WavesOk, X.BuffersOk, X.SlotOrder, X.BudgetOk;
    var state := if step.ArriveStep? then X.ReadReady else X.Decoding;
    X.WaveMovedKeeps(cfg.exec, cfg.fixed, l.exec, w, state);
    ExecGoesOn(cfg, l, X.WaveMoved(l.exec, w, state));
  }

  lemma CollectKeeps(cfg: Config, l: Loader, results: seq<Status>)
    requires Inv(cfg, l) && Enabled(cfg, l, CollectStep(results)) && X.FirstBad(results) == OK
    ensures Inv(cfg, Do(cfg, l, CollectStep(results)))
  {
    hide P.Inv, InSequence, X.SlotsOk, X.WavesOk, X.BuffersOk, X.SlotOrder, X.BudgetOk;
    X.CollectKeeps(cfg.exec, cfg.fixed, l.exec);
    X.CollectCounts(cfg.exec, l.exec);
    ExecGoesOn(cfg, l, X.Collected(l.exec));
  }

  /** The oldest plan goes to a free slot, which no live batch refers to. */
  lemma SubmitKeeps(cfg: Config, l: Loader, i: nat, plan: C.ReadPlan, index: seq<nat>)
    requires Inv(cfg, l) && CanSubmit(cfg, l, i, plan, index)
    ensures Inv(cfg, Submitted(cfg, l, i, plan, index))
  {
    hide P.Inv, X.SlotsOk, X.WavesOk, X.BuffersOk, X.SlotOrder, X.BudgetOk, C.PlanOk;
    X.SubmitKeeps(cfg.exec, cfg.fixed, l.exec, i, cfg.items(l.ring[0]), plan, index, l.nextBatch);
    var l' := Submitted(cfg, l, i, plan, index);
    forall k: nat | k < 2 && X.Pending(l'.exec.slots[k]) ensures SlotHolds(cfg, l', k) {
      if k != i { assert SlotHolds(cfg, l, k); }
    }
    forall b | b in l'.exec.batches ensures HolderOk(cfg, l', b) { assert HolderOk(cfg, l, b); }
  }

  /** The batch handed out is the next one of the planner. */
  lemma PopKeeps(cfg: Config, l: Loader, i: nat)
    requires Inv(cfg, l) && Enabled(cfg, l, PopStep(i))
    ensures Inv(cfg, Popped(l, i))
    ensures l.exec.taken < |l.planner.batches| && l.held[i] == l.planner.batches[l.exec.taken]
  {
    hide P.Inv, X.SlotsOk, X.WavesOk, X.BuffersOk, X.SlotOrder, X.BudgetOk;
    X.TakeKeeps(cfg.exec, cfg.fixed, l.exec, i);
    assert SlotHolds(cfg, l, i);
    var l' := Popped(l, i);
    forall k: nat | k < 2 && X.Pending(l'.exec.slots[k]) ensures SlotHolds(cfg, l', k) { assert SlotHolds(cfg, l, k); }
    forall b | b in l'.exec.batches ensures HolderOk(cfg, l', b) {
      if b != l.exec.slots[i].batch { assert HolderOk(cfg, l, b); }
    }
  }

  lemma FreeKeeps(cfg: Config, l: Loader, i: nat)
    requires Inv(cfg, l) && Enabled(cfg, l, FreeStep(i))
    ensures Inv(cfg, l.(exec := X.Freed(l.exec, i)))
  {
    hide P.Inv, X.SlotsOk, X.WavesOk, X.BuffersOk, X.SlotOrder, X.BudgetOk;
    X.FreeKeeps(cfg.exec, cfg.fixed, l.exec, i);
    var l' := l.(exec := X.Freed(l.exec, i));
    forall k: nat | k < 2 && X.Pending(l'.exec.slots[k]) ensures SlotHolds(cfg, l', k) { assert SlotHolds(cfg, l, k); }
    forall b | b in l'.exec.batches ensures HolderOk(cfg, l', b) {
      assert HolderOk(cfg, l, b);
      assert b !in X.LiveOf(l.exec.batches, i);
    }
  }

  lemma ShareKeeps(cfg: Config, l: Loader, b: nat)
    requires Inv(cfg, l) && Enabled(cfg, l, RetainStep(b))
    ensures Inv(cfg, l.(exec := X.Shared(l.exec, b)))
  {
    hide P.Inv, InSequence, X.SlotsOk, X.WavesOk, X.BuffersOk, X.SlotOrder, X.BudgetOk;
    X.ShareKeeps(cfg.exec, cfg.fixed, l.exec, b);
    ExecGoesOn(cfg, l, X.Shared(l.exec, b));
  }

  lemma ReleaseKeeps(cfg: Config, l: Loader, b: nat)
    requires Inv(cfg, l) && Enabled(cfg, l, ReleaseStep(b))
    ensures Inv(cfg, l.(exec := X.Dropped(l.exec, b)))
  {
    hide P.Inv, InSequence, X.SlotsOk, X.WavesOk, X.BuffersOk, X.SlotOrder, X.BudgetOk;
    X.DropKeeps(cfg.exec, cfg.fixed, l.exec, b);
    ExecGoesOn(cfg, l, X.Dropped(l.exec, b));
  }

  lemma StepKeepsInv(cfg: Config, l: Loader, step: Step)
    requires Inv(cfg, l) && Enabled(cfg, l, step)
    ensures Inv(cfg, Do(cfg, l, step))
  {
    hide P.Inv, InSequence, X.SlotsOk, X.WavesOk, X.BuffersOk, X.SlotOrder, X.BudgetOk, Planned, Submitted, Popped,
         CanPlan, CanSubmit;
    match step
    case PlannerStep(p) => PlannerKeeps(cfg, l, p);
    case SubmitStep(i, plan, index) => SubmitKeeps(cfg, l, i, plan, index);
    case DispatchStep(w, sent, upto) => DispatchKeeps(cfg, l, w, sent, upto);
    case ArriveStep(w) => WaveKeeps(cfg, l, w, step);
    case DecodeStep(w) => WaveKeeps(cfg, l, w, step);
    case CollectStep(results) =>
      if X.FirstBad(results) == OK { CollectKeeps(cfg, l, results); } else { FailKeeps(cfg, l, X.FirstBad(results)); }
    case FreeStep(i) => FreeKeeps(cfg, l, i);
    case PopStep(i) => PopKeeps(cfg, l, i);
    case RetainStep(b) => ShareKeeps(cfg, l, b);
    case ReleaseStep(b) => ReleaseKeeps(cfg, l, b);
    case FailStep(code) => FailKeeps(cfg, l, code);
  }

  lemma FailKeeps(cfg: Config, l: Loader, code: Status)
    requires Inv(cfg, l) && l.status == OK
    ensures Inv(cfg, Stopped(l, code))
  {
    hide P.Inv, X.ExecOk;
    MoreBatches(cfg, l, Stopped(l, code));
  }

  // --- Runs ------------------------------------------------------------------------------------------------------

  ghost predicate RunFrom(cfg: Config, l: Loader, run: seq<Step>)
    decreases |run|
  {
    run == [] || (Enabled(cfg, l, run[0]) && RunFrom(cfg, Do(cfg, l, run[0]), run[1..]))
  }

  ghost function EndOf(cfg: Config, l: Loader, run: seq<Step>): Loader
    requires RunFrom(cfg, l, run)
    decreases |run|
  {
    if run == [] then l else EndOf(cfg, Do(cfg, l, run[0]), run[1..])
  }

  ghost function Initial(cfg: Config, arrays: nat, shards: nat): Loader {
    Loader(P.Initial(cfg.planner, arrays, shards), [], 0, X.NoWork(cfg.fixed), [[], []], [], OK)
  }

  lemma InitialInv(cfg: Config, arrays: nat, shards: nat)
    requires cfg.planner.batch > 0 && C.ConfigOk(cfg.exec) && cfg.fixed <= cfg.exec.maxMemory
    ensures Inv(cfg, Initial(cfg, arrays, shards)) && Initial(cfg, arrays, shards).status == OK
    ensures Initial(cfg, arrays, shards).planner.pushed == 0 && Initial(cfg, arrays, shards).popped == []
  {
    hide P.Inv;
    P.InitialInv(cfg.planner, arrays, shards);
    assert X.LiveOf(map[], 0) == {} && X.LiveOf(map[], 1) == {};
  }

  lemma {:induction false} RunKeepsInv(cfg: Config, l: Loader, run: seq<Step>)
    requires Inv(cfg, l) && RunFrom(cfg, l, run)
    ensures Inv(cfg, EndOf(cfg, l, run))
    decreases |run|
  {
    hide Inv, Enabled, Do;
    if run != [] {
      StepKeepsInv(cfg, l, run[0]);
      RunKeepsInv(cfg, Do(cfg, l, run[0]), run[1..]);
    }
  }

  // --- What pop delivers --------------------------------------------------------------------------------------------

  /** In every run the n-th batch popped is the n-th the planner made; its row i is sample n * batch + i moved up
      by the dropped samples below it. */
  lemma PoppedInSequence(cfg: Config, l: Loader, run: seq<Step>, n: nat, i: nat)
    requires Inv(cfg, l) && RunFrom(cfg, l, run) && n < |EndOf(cfg, l, run).popped| && i < cfg.planner.batch
    ensures var e := EndOf(cfg, l, run);
            && n < |e.planner.batches| && e.popped[n] == e.planner.batches[n] && |e.popped[n]| == cfg.planner.batch
            && e.popped[n][i] == n * cfg.planner.batch + i + |Below(e.planner.dropped, e.popped[n][i])|
  {
    hide X.ExecOk, P.Conserved, P.HandlesOk, P.GatesExact, P.OwnersOk, P.RegistrationsOwned, P.NoOrphans, P.Ordered;
    RunKeepsInv(cfg, l, run);
    D.RowShifts(cfg.planner, EndOf(cfg, l, run).planner, n, i);
  }

  /** All rows popped so far are the samples in order exactly if no dropped sample comes before the last of them. */
  lemma PoppedInOrderIff(cfg: Config, l: Loader, run: seq<Step>)
    requires Inv(cfg, l) && RunFrom(cfg, l, run)
    ensures var e := EndOf(cfg, l, run);
            && ((forall j | 0 <= j < |Concat(e.popped)| :: Concat(e.popped)[j] == j) <==>
                forall d, n | d in e.planner.dropped && n in Concat(e.popped) :: n < d)
            && (e.status == OK ==> e.planner.dropped == e.planner.swallowed)
  {
    hide X.ExecOk, P.Conserved, P.HandlesOk, P.GatesExact, P.OwnersOk, P.RegistrationsOwned, P.NoOrphans;
    RunKeepsInv(cfg, l, run);
    var e := EndOf(cfg, l, run);
    var rows, all := Concat(e.popped), P.Delivered(e.planner);
    ConcatPrefix(e.planner.batches, e.exec.taken);
    SplitsInOrder(all, rows, e.planner.dropped, e.planner.nextConsume);
  }

  /** Pop gives up, for lack of anything to wait for, when no plan is prepared, the planner owes no sample
      and the executor is idle. */
  ghost predicate PopEnds(l: Loader)
    requires X.Shape(l.exec)
  {
    l.ring == [] && l.planner.pushed == l.planner.planned && l.exec.slots[0].state.Free? && l.exec.slots[1].state.Free?
  }

  /** Everything has been handed out: the popped rows are all samples pushed so far, in order. */
  ghost predicate AllOut(l: Loader) {
    |Concat(l.popped)| == l.planner.pushed && forall j | 0 <= j < l.planner.pushed :: Concat(l.popped)[j] == j
  }

  /** In every run without failure, pop gives up only if every sample pushed so far has been handed out, in order;
      and then the planner, the ring and the executor owe nothing, which is all pop asks but for released buffers. */
  lemma PopEndsWhenAllOut(cfg: Config, l: Loader, run: seq<Step>)
    requires Inv(cfg, l) && RunFrom(cfg, l, run) && EndOf(cfg, l, run).status == OK
    ensures var e := EndOf(cfg, l, run);
            && X.Shape(e.exec) && (PopEnds(e) ==> AllOut(e))
            && (AllOut(e) <==>
                e.ring == [] && e.planner.pushed == e.planner.planned && e.exec.taken == e.exec.submitted)
  {
    hide P.Conserved, P.HandlesOk, P.GatesExact, P.OwnersOk, P.RegistrationsOwned, P.NoOrphans, P.Ordered;
    hide X.SlotsOk, X.WavesOk, X.BuffersOk, X.SlotOrder, X.BudgetOk;
    RunKeepsInv(cfg, l, run);
    var e := EndOf(cfg, l, run);
    IdleTookAll(e.exec.slots, e.exec.taken, e.exec.submitted);
    ConsumedFits(cfg.planner, e.planner);
    if e.ring == [] && e.planner.pushed == e.planner.planned && e.exec.taken == e.exec.submitted {
      assert e.popped == e.planner.batches;
      OwesNothing(cfg.planner, e.planner);
    }
    if AllOut(e) { OutMeansDone(cfg, e); }
  }

  lemma ConsumedFits(cfg: P.Config, s: P.Planner)
    requires P.Conserved(cfg, s)
    ensures s.nextConsume <= s.pushed
  {
  }

  lemma IdleTookAll(slots: seq<X.Slot>, taken: nat, submitted: nat)
    requires |slots| == 2 && X.SlotOrder(slots, taken, submitted)
    ensures taken <= submitted && (slots[0].state.Free? && slots[1].state.Free? ==> taken == submitted)
  {
    assert taken < submitted ==> X.InSlots(slots, taken);
  }

  /** A planner that owes nothing has dropped and staged nothing. */
  lemma OwesNothing(cfg: P.Config, s: P.Planner)
    requires P.Ordered(cfg, s) && s.failure == OK && s.nextConsume <= s.pushed == s.planned
    ensures |Concat(s.batches)| == s.pushed && forall j | 0 <= j < s.pushed :: Concat(s.batches)[j] == j
  {
    hide Splits;
    D.DeliveredSize(cfg, s);
    assert s.staged == [] && s.dropped == {};
    D.NoneDroppedInRows(cfg, s);
    assert P.Delivered(s) == Concat(s.batches);
  }

  lemma OutMeansDone(cfg: Config, e: Loader)
    requires P.Ordered(cfg.planner, e.planner) && e.planner.failure == OK && InSequence(cfg, e) && AllOut(e)
    requires e.planner.nextConsume <= e.planner.pushed && e.exec.taken <= e.exec.submitted
    ensures e.ring == [] && e.planner.pushed == e.planner.planned && e.exec.taken == e.exec.submitted
  {
    hide Splits, Concat, SlotHolds, HolderOk;
    var b := cfg.planner.batch;
    D.DeliveredSize(cfg.planner, e.planner);
    ConcatLength(e.popped, b);
    MulCancel(|e.planner.batches|, e.exec.taken, b);
  }

  /** A swallowed sample keeps pop waiting for ever: the planner always owes it. */
  lemma SwallowedKeepsPopWaiting(cfg: Config, l: Loader, run: seq<Step>)
    requires Inv(cfg, l) && RunFrom(cfg, l, run) && EndOf(cfg, l, run).planner.swallowed != {}
    ensures X.Shape(EndOf(cfg, l, run).exec) && !PopEnds(EndOf(cfg, l, run))
  {
    hide P.HandlesOk, P.GatesExact, P.OwnersOk, P.RegistrationsOwned, P.NoOrphans, P.Ordered, P.SlotsOk;
    RunKeepsInv(cfg, l, run);
    var e := EndOf(cfg, l, run);
    D.SwallowedOwed(cfg.planner, e.planner);
  }

  // --- Failure ------------------------------------------------------------------------------------------------------

  /** The status that a step reports to the scheduler. */
  ghost function Report(l: Loader, step: Step): Status {
    match step
    case PlannerStep(p) => Refusal(l.planner, p)
    case CollectStep(results) => X.FirstBad(results)
    case FailStep(code) => code
    case _ => OK
  }

  /** The first report of the run that is neither OK nor AGAIN. */
  ghost function FirstReport(cfg: Config, l: Loader, run: seq<Step>): Status
    requires RunFrom(cfg, l, run)
    decreases |run|
  {
    if run == [] then OK
    else if Report(l, run[0]) != OK && Report(l, run[0]) != AGAIN then Report(l, run[0])
    else FirstReport(cfg, Do(cfg, l, run[0]), run[1..])
  }

  lemma StepStatus(cfg: Config, l: Loader, step: Step)
    requires Inv(cfg, l) && Enabled(cfg, l, step)
    ensures l.status != OK ==> Stays(l, Do(cfg, l, step)) && Report(l, step) == OK
    ensures l.status == OK ==> Do(cfg, l, step).status == if Report(l, step) == AGAIN then OK else Report(l, step)
  {
    hide P.Inv, P.Enabled, P.Do, X.ExecOk, InSequence, X.Collected, X.FirstBad, X.CanDispatch, C.PlanOk, P.Samples;
    if step.PlannerStep? {
      NeverRefusesAgain(cfg.planner, l.planner, step.step);
      BatchesGrow(cfg.planner, l.planner, step.step);
    }
  }

  /** The planner passes AGAIN off as no answer yet. */
  lemma NeverRefusesAgain(cfg: P.Config, s: P.Planner, step: P.Step)
    requires P.Enabled(cfg, s, step)
    ensures Refusal(s, step) != AGAIN
    ensures Refusal(s, step) != OK ==> step.ConsumeStep? || step.BuildStep?
  {
    hide P.OwnerFor, P.CanAdmit, P.CanAskShard, P.BuildWaits;
  }

  /** Nothing more is planned, submitted, rendered or handed out. */
  ghost predicate Stays(l: Loader, l': Loader) {
    && l'.status == l.status && l'.planner.batches == l.planner.batches && l'.ring == l.ring
    && l'.nextBatch == l.nextBatch && l'.popped == l.popped && l'.held == l.held
       && l'.planner.pushed == l.planner.pushed
    && l'.exec.slots == l.exec.slots && l'.exec.waves == l.exec.waves && l'.exec.decoding == l.exec.decoding
  }

  /** The first failure stops the loader for good. */
  lemma {:induction false} FailureStays(cfg: Config, l: Loader, run: seq<Step>)
    requires Inv(cfg, l) && RunFrom(cfg, l, run) && l.status != OK
    ensures Stays(l, EndOf(cfg, l, run))
    decreases |run|
  {
    hide Inv, Enabled, Do;
    if run != [] {
      StepStatus(cfg, l, run[0]);
      StepKeepsInv(cfg, l, run[0]);
      FailureStays(cfg, Do(cfg, l, run[0]), run[1..]);
    }
  }

  /** In every run the loader has failed exactly if one of its parts reported an error other than AGAIN, and then
      with the first of these. */
  lemma {:induction false} StatusIsFirstReport(cfg: Config, l: Loader, run: seq<Step>)
    requires Inv(cfg, l) && RunFrom(cfg, l, run) && l.status == OK
    ensures EndOf(cfg, l, run).status == FirstReport(cfg, l, run)
    decreases |run|
  {
    hide Inv, Enabled, Do, Report, Stays;
    if run != [] {
      StepStatus(cfg, l, run[0]);
      StepKeepsInv(cfg, l, run[0]);
      var l' := Do(cfg, l, run[0]);
      if l'.status == OK {
        StatusIsFirstReport(cfg, l', run[1..]);
      } else {
        FailureStays(cfg, l', run[1..]);
        SameStatus(l', EndOf(cfg, l', run[1..]));
      }
    }
  }

  lemma SameStatus(l: Loader, l': Loader)
    requires Stays(l, l')
    ensures l'.status == l.status
  {
  }

  /** A chunk that cannot be decoded fails the loader with its own status: the batch is never handed out, and
      nothing else from there on. */
  lemma BadDecodeStops(cfg: Config, l: Loader, results: seq<Status>, j: nat, run: seq<Step>)
    requires Inv(cfg, l) && j < |results| && results[j] != OK && results[j] != AGAIN
    requires forall k | 0 <= k < j :: results[k] == OK
    requires RunFrom(cfg, l, [CollectStep(results)] + run)
    ensures var e := EndOf(cfg, l, [CollectStep(results)] + run);
            && e.status == results[j] && e.popped == l.popped && e.exec.slots == l.exec.slots
            && e.planner.batches == l.planner.batches
  {
    hide Inv, Enabled, X.Collected;
    var whole := [CollectStep(results)] + run;
    assert whole[1..] == run;
    FirstBadIs(results, j);
    var l' := Do(cfg, l, whole[0]);
    StepKeepsInv(cfg, l, whole[0]);
    FailureStays(cfg, l', run);
  }

  lemma {:induction false} FirstBadIs(results: seq<Status>, j: nat)
    requires j < |results| && results[j] != OK && forall k | 0 <= k < j :: results[k] == OK
    ensures X.FirstBad(results) == results[j]
    decreases j
  {
    if j > 0 {
      assert results[0] == OK;
      FirstBadIs(results[1..], j - 1);
    }
  }

  // --- The decoded chunks of a batch --------------------------------------------------------------------------------

  /** Whenever a batch is handed out, each chunk of its plan has been decoded exactly once. */
  lemma PoppedIsComplete(cfg: Config, l: Loader, run: seq<Step>, i: nat)
    requires Inv(cfg, l) && RunFrom(cfg, l, run) && Enabled(cfg, EndOf(cfg, l, run), PopStep(i))
    ensures var e := EndOf(cfg, l, run); var done := e.exec.done[i];
            && i < |e.held| && e.exec.taken < |e.planner.batches| && e.held[i] == e.planner.batches[e.exec.taken]
            && |done| == |cfg.items(e.held[i])| && (forall j | 0 <= j < |done| :: done[j] < |done|)
            && (forall k: nat | k < |done| :: k in done)
  {
    hide P.Inv, X.WavesOk, X.BuffersOk, X.SlotOrder, X.BudgetOk, X.SlotOk;
    RunKeepsInv(cfg, l, run);
    var e := EndOf(cfg, l, run);
    PopKeeps(cfg, e, i);
    assert SlotHolds(cfg, e, i);
    assert X.Accounted(e.exec.slots[i], e.exec.indexes[i], e.exec.waves, i, e.exec.done[i]);
    X.DecodedIsOrder(e.exec.done[i], |e.exec.slots[i].items|);
  }

  // --- The ring ------------------------------------------------------------------------------------------------------

  /** The array of prepared plans is the ring of the machine. */
  ghost predicate Mirrors(p: Pipelines.Pipeline, l: Loader)
    reads p, p.plans
  {
    p.Valid() && p.produced == l.planner.batches && p.nextBatch == l.nextBatch
  }

  /** Appending a built plan to the array ring is the machine's step. */
  method RingPrepare(p: Pipelines.Pipeline, rows: Rows, ghost cfg: Config, ghost l: Loader)
    requires Inv(cfg, l) && Mirrors(p, l) && CanPlan(cfg, l, P.BuildStep(OK)) && rows == P.Samples(l.planner.staged)
    requires p.plans.Length == cfg.prepared
    modifies p`count, p`produced, p.plans
    ensures Mirrors(p, Planned(cfg, l, P.BuildStep(OK)))
  {
    hide P.Inv, X.ExecOk, SlotHolds, HolderOk;
    p.Append(rows);
  }

  /** Taking the oldest plan from the array ring is the machine's step. */
  method RingSubmit(p: Pipelines.Pipeline, ghost cfg: Config, ghost l: Loader, ghost i: nat, ghost plan: C.ReadPlan,
                    ghost index: seq<nat>)
    returns (rows: Rows)
    requires Inv(cfg, l) && Mirrors(p, l) && CanSubmit(cfg, l, i, plan, index)
    modifies p`head, p`count, p`nextBatch, p.plans
    ensures rows == l.ring[0] && Mirrors(p, Submitted(cfg, l, i, plan, index))
  {
    hide P.Inv, X.ExecOk, SlotHolds, HolderOk, C.PlanOk;
    rows := p.Remove();
  }
}
