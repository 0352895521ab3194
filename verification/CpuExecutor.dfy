/** The CPU executor: two output slots, two input waves, one decode at a time, a memory
    budget, and reference-counted output buffers. Each method is one step of the scheduler
    thread, of the decode thread or of a batch holder; a run is any sequence of calls. */
module CpuExecutors {
  import opened Statuses
  import opened Seqs
  import opened Arith
  import opened ReadOpSort
  import opened Dispatch
  import opened CpuReadPlans

  datatype SlotState = Free | Rendering | Finished | Held

  /** An output slot. `items` are the plan's chunks. */
  datatype Slot = Slot(state: SlotState, items: seq<Item>, plan: ReadPlan, batch: nat, dispatched: nat, remaining: nat)

  datatype WaveState = InputFree | Reading | ReadReady | Decoding

  datatype InputRead = InputRead(path: string, dst: nat, offset: nat, len: nat)

  /** A wave: which chunks of which slot, and where in its input buffer each one's bytes are. */
  datatype Wave = Wave(state: WaveState, slot: nat, chunks: seq<nat>, inputs: seq<nat>, list: seq<InputRead>,
                       number: nat)

  datatype Batch = Batch(slot: nat, id: nat, refs: nat)

  const NO_PLAN := ReadPlan([], [], [], [], 0)
  const NO_SLOT := Slot(Free, [], NO_PLAN, 0, 0, 0)
  const NO_WAVE := Wave(InputFree, 0, [], [], [], 0)

  // --- Chunk accounting ---------------------------------------------------------------------------------

  ghost predicate SlotOk(cfg: CpuConfig, s: Slot, index: seq<nat>) {
    if s.state.Rendering? then
      PlanOk(cfg, s.items, s.plan, index) && s.dispatched <= |s.plan.list| && 0 < s.remaining <= |s.items|
    else s.plan == NO_PLAN
  }

  ghost function Undispatched(s: Slot, index: seq<nat>): seq<nat>
    requires s.dispatched <= |s.plan.list|
  {
    Flat(index, s.dispatched, |s.plan.list|)
  }

  /** The chunks of slot i that wave w is working on. */
  ghost function InWave(w: Wave, i: nat): multiset<nat> {
    if !w.state.InputFree? && w.slot == i then multiset(w.chunks) else multiset{}
  }

  ghost function InFlight(waves: seq<Wave>, i: nat): multiset<nat>
    requires |waves| == 2
  {
    InWave(waves[0], i) + InWave(waves[1], i)
  }

  /** Every chunk of a rendering slot is decoded, in a wave, or not dispatched, exactly once, and
      every chunk of a finished slot has been decoded exactly once. */
  ghost predicate Accounted(s: Slot, index: seq<nat>, waves: seq<Wave>, i: nat, done: seq<nat>)
    requires |waves| == 2
  {
    && (s.state.Rendering? ==>
          && s.dispatched <= |s.plan.list|
          && multiset(done) + InFlight(waves, i) + multiset(Undispatched(s, index)) == multiset(seq(|s.items|, k => k))
          && s.remaining == |s.items| - |done|)
    && (s.state.Finished? ==> multiset(done) == multiset(seq(|s.items|, k => k)))
  }

  ghost predicate WaveOk(cfg: CpuConfig, w: Wave, slots: seq<Slot>)
    requires |slots| == 2
  {
    !w.state.InputFree? ==>
      && w.slot < 2 && slots[w.slot].state.Rendering? && w.chunks != []
      && InputsHold(cfg, slots[w.slot].items, w)
  }

  /** Each stored chunk of the wave finds exactly its own file bytes at its input position. */
  ghost predicate InputsHold(cfg: CpuConfig, items: seq<Item>, w: Wave) {
    |w.chunks| <= cfg.chunksPerInput && Packed(cfg, items, w.chunks, w.inputs, w.list) && ReadsApart(w.list)
  }

  /** No two reads share input bytes. */
  ghost predicate ReadsApart(list: seq<InputRead>) {
    forall a, b | 0 <= a < b < |list| :: list[a].dst + list[a].len <= list[b].dst
  }

  ghost predicate Packed(cfg: CpuConfig, items: seq<Item>, chunks: seq<nat>, inputs: seq<nat>, list: seq<InputRead>) {
    && |inputs| == |chunks|
    && forall k | 0 <= k < |chunks| :: ChunkInput(cfg, items, list, chunks[k], inputs[k])
  }

  ghost predicate ChunkInput(cfg: CpuConfig, items: seq<Item>, list: seq<InputRead>, c: nat, at: nat) {
    c < |items| && (!items[c].missing ==> exists j: nat :: ReadCovers(cfg, items[c], list, at, j))
  }

  /** Read j brings the item's bytes to input position `at`. */
  ghost predicate ReadCovers(cfg: CpuConfig, item: Item, list: seq<InputRead>, at: nat, j: nat) {
    && j < |list|
    && list[j].path == item.path && list[j].dst <= at && at + item.nbytes <= list[j].dst + list[j].len
    && list[j].offset + (at - list[j].dst) == item.offset
    && list[j].dst + list[j].len <= InputCapacity(cfg)
  }

  // --- Buffers ---------------------------------------------------------------------------------------------

  ghost function LiveOf(batches: map<nat, Batch>, i: nat): set<nat> {
    set b | b in batches && batches[b].slot == i
  }

  /** A buffer is referenced by the executor and by its live batches, and only a held slot has any. */
  ghost predicate BufferOk(slots: seq<Slot>, refs: seq<nat>, batches: map<nat, Batch>, stopped: bool, i: nat)
    requires |slots| == |refs| == 2 && i < 2
  {
    && refs[i] == (if stopped then 0 else 1) + |LiveOf(batches, i)|
    && (!stopped && LiveOf(batches, i) != {} ==> slots[i].state.Held?)
  }

  // --- Order --------------------------------------------------------------------------------------------------

  predicate Pending(s: Slot) { s.state.Rendering? || s.state.Finished? }

  /** The batches submitted and not yet taken are in the slots, each once. */
  ghost predicate SlotOrder(slots: seq<Slot>, taken: nat, submitted: nat)
    requires |slots| == 2
  {
    && taken <= submitted
    && (forall i | 0 <= i < 2 && Pending(slots[i]) :: taken <= slots[i].batch < submitted)
    && (Pending(slots[0]) && Pending(slots[1]) ==> slots[0].batch != slots[1].batch)
    && (forall b: nat | taken <= b < submitted :: InSlots(slots, b))
  }

  ghost predicate InSlots(slots: seq<Slot>, b: nat)
    requires |slots| == 2
  {
    (Pending(slots[0]) && slots[0].batch == b) || (Pending(slots[1]) && slots[1].batch == b)
  }

  // --- The whole state ---------------------------------------------------------------------------------------

  /** `indexes` maps chunks to reads, `done` lists the decoded chunks, `submitted` and `taken` count batches. */
  datatype Exec = Exec(slots: seq<Slot>, waves: seq<Wave>, decoding: Option<nat>, committed: nat,
                       refs: seq<nat>, batches: map<nat, Batch>, stopped: bool,
                       indexes: seq<seq<nat>>, done: seq<seq<nat>>, submitted: nat, taken: nat)

  ghost predicate Shape(e: Exec) {
    |e.slots| == |e.waves| == |e.refs| == |e.indexes| == |e.done| == 2
  }

  ghost predicate SlotsOk(cfg: CpuConfig, e: Exec)
    requires Shape(e)
  {
    forall i: nat | i < 2 ::
        SlotOk(cfg, e.slots[i], e.indexes[i]) && Accounted(e.slots[i], e.indexes[i], e.waves, i, e.done[i])
  }

  ghost predicate WavesOk(cfg: CpuConfig, e: Exec)
    requires Shape(e)
  {
    && (forall w: nat | w < 2 :: WaveOk(cfg, e.waves[w], e.slots))
    && (forall w: nat | w < 2 :: e.waves[w].state.Decoding? <==> e.decoding == Some(w))
    && (e.decoding.Some? ==> e.decoding.value < 2)
    && (e.stopped ==> forall w: nat | w < 2 :: e.waves[w].state.InputFree?)
  }

  ghost predicate BudgetOk(cfg: CpuConfig, fixed: nat, e: Exec)
    requires Shape(e)
  {
    e.committed == (if e.stopped then 0 else fixed + e.slots[0].plan.bytes + e.slots[1].plan.bytes) <= cfg.maxMemory
  }

  ghost predicate BuffersOk(e: Exec)
    requires Shape(e)
  {
    && (forall i: nat | i < 2 :: BufferOk(e.slots, e.refs, e.batches, e.stopped, i))
    && (forall b | b in e.batches ::
          e.batches[b].id == b && e.batches[b].slot < 2 && e.batches[b].refs > 0 && b < e.taken)
  }

  ghost predicate ExecOk(cfg: CpuConfig, fixed: nat, e: Exec) {
    && ConfigOk(cfg) && Shape(e)
    && SlotsOk(cfg, e) && WavesOk(cfg, e) && BudgetOk(cfg, fixed, e) && BuffersOk(e)
    && SlotOrder(e.slots, e.taken, e.submitted)
  }

  /** No chunk is ever written into a buffer that a live batch refers to. */
  lemma WritesAreSafe(cfg: CpuConfig, fixed: nat, e: Exec)
    requires ExecOk(cfg, fixed, e) && e.decoding.Some?
    ensures e.decoding.value < 2 && e.waves[e.decoding.value].slot < 2
    ensures e.slots[e.waves[e.decoding.value].slot].state.Rendering?
              && LiveOf(e.batches, e.waves[e.decoding.value].slot) == {}
  {
    var w := e.decoding.value;
    assert WaveOk(cfg, e.waves[w], e.slots);
    assert BufferOk(e.slots, e.refs, e.batches, e.stopped, e.waves[w].slot);
  }

  /** A read or a decode is under way. */
  ghost predicate Outstanding(e: Exec)
    requires Shape(e)
  {
    e.waves[0].state.Reading? || e.waves[1].state.Reading? || e.decoding.Some?
  }

  /** A batch in progress can always move on: unless a read or a decode is under way, a wave is ready to be
      decoded, or a wave is free and the batch has reads left for it. */
  lemma NeverStuck(cfg: CpuConfig, fixed: nat, e: Exec, i: nat)
    requires ExecOk(cfg, fixed, e) && i < 2 && e.slots[i].state.Rendering? && !Outstanding(e)
    ensures (exists w: nat :: w < 2 && e.waves[w].state.ReadReady?) ||
            (e.waves[0].state.InputFree? && e.waves[1].state.InputFree? && Dispatchable(e.slots[i]))
  {
    var s := e.slots[i];
    assert SlotOk(cfg, s, e.indexes[i]) && Accounted(s, e.indexes[i], e.waves, i, e.done[i]);
    var all := seq(|s.items|, k => k);
    assert |multiset(all)| == |all| && |multiset(e.done[i])| == |e.done[i]|;
    assert |e.done[i]| + |InFlight(e.waves, i)| + |Undispatched(s, e.indexes[i])| == |all|;
    assert forall w: nat | w < 2 :: e.waves[w].state.Decoding? <==> e.decoding == Some(w);
  }

  predicate Dispatchable(s: Slot) { s.state.Rendering? && s.dispatched < |s.plan.list| }

  // --- Submitting -------------------------------------------------------------------------------------------------

  ghost function Submitted(e: Exec, i: nat, items: seq<Item>, p: ReadPlan, index: seq<nat>, batch: nat): Exec
    requires Shape(e) && i < 2
  {
    e.(slots := e.slots[i := Slot(Rendering, items, p, batch, 0, |items|)], indexes := e.indexes[i := index],
       done := e.done[i := []],
       committed := e.committed + p.bytes, submitted := e.submitted + 1)
  }

  lemma PlanCoversAll(cfg: CpuConfig, items: seq<Item>, p: ReadPlan, index: seq<nat>)
    requires PlanOk(cfg, items, p, index)
    ensures multiset(Flat(index, 0, |p.list|)) == multiset(seq(|items|, k => k))
  {
    forall c | 0 <= c < |index|
      ensures index[c] < |p.list|
    {
      assert ChunkServed(items[c], p.list, index[c], p.offset[c]);
    }
    FlatIsAll(index, |p.list|);
  }

  /** A slot that was not rendering may change without touching any wave. */
  lemma WavesElsewhere(cfg: CpuConfig, e: Exec, i: nat, after: seq<Slot>)
    requires Shape(e) && WavesOk(cfg, e) && i < 2 && !e.slots[i].state.Rendering? && |after| == 2
               && after == e.slots[i := after[i]]
    ensures forall w: nat | w < 2 :: WaveOk(cfg, e.waves[w], after) && InWave(e.waves[w], i) == multiset{}
  {
    hide InputsHold;
    forall w: nat | w < 2 ensures WaveOk(cfg, e.waves[w], after) && InWave(e.waves[w], i) == multiset{} {
      assert WaveOk(cfg, e.waves[w], e.slots);
    }
  }

  /** A slot without live batches may change without touching the buffers. */
  lemma BuffersElsewhere(e: Exec, i: nat, after: seq<Slot>)
    requires Shape(e) && BuffersOk(e) && i < 2 && |after| == 2 && after == e.slots[i := after[i]]
    requires e.slots[i].state.Held? ==> after[i].state.Held? || LiveOf(e.batches, i) == {}
    ensures forall k: nat | k < 2 :: BufferOk(after, e.refs, e.batches, e.stopped, k)
  {
    forall k: nat | k < 2 ensures BufferOk(after, e.refs, e.batches, e.stopped, k) {
      assert BufferOk(e.slots, e.refs, e.batches, e.stopped, k);
    }
  }

  lemma OrderSubmitted(slots: seq<Slot>, taken: nat, submitted: nat, i: nat, s: Slot)
    requires |slots| == 2 && SlotOrder(slots, taken, submitted) && i < 2 && !Pending(slots[i]) && Pending(s)
               && s.batch == submitted
    ensures SlotOrder(slots[i := s], taken, submitted + 1)
  {
    var after := slots[i := s];
    forall b: nat | taken <= b < submitted + 1 ensures InSlots(after, b) {
      if b < submitted { assert InSlots(slots, b); }
    }
  }

  lemma SubmitKeeps(cfg: CpuConfig, fixed: nat, e: Exec, i: nat, items: seq<Item>, p: ReadPlan, index: seq<nat>,
                    batch: nat)
    requires ExecOk(cfg, fixed, e) && !e.stopped && i < 2 && e.slots[i].state.Free? && items != []
               && PlanOk(cfg, items, p, index)
    requires batch == e.submitted && e.committed + p.bytes <= cfg.maxMemory
    ensures ExecOk(cfg, fixed, Submitted(e, i, items, p, index, batch))
  {
    hide PlanOk, WaveOk, BufferOk, SlotOrder, SlotsOk, Accounted;
    var s := Slot(Rendering, items, p, batch, 0, |items|);
    assert e.slots[i].plan.bytes == 0 by { FreeHasNoPlan(cfg, e, i); }
    WavesElsewhere(cfg, e, i, e.slots[i := s]);
    BuffersElsewhere(e, i, e.slots[i := s]);
    PlanCoversAll(cfg, items, p, index);
    SubmitSlots(cfg, e, i, items, p, index, batch);
    OrderSubmitted(e.slots, e.taken, e.submitted, i, s);
  }

  lemma FreeHasNoPlan(cfg: CpuConfig, e: Exec, i: nat)
    requires Shape(e) && SlotsOk(cfg, e) && i < 2 && !e.slots[i].state.Rendering?
    ensures e.slots[i].plan.bytes == 0
  {
    assert SlotOk(cfg, e.slots[i], e.indexes[i]);
  }

  lemma SubmitSlots(cfg: CpuConfig, e: Exec, i: nat, items: seq<Item>, p: ReadPlan, index: seq<nat>, batch: nat)
    requires Shape(e) && SlotsOk(cfg, e) && i < 2 && items != [] && PlanOk(cfg, items, p, index)
    requires forall w: nat | w < 2 :: InWave(e.waves[w], i) == multiset{}
    requires multiset(Flat(index, 0, |p.list|)) == multiset(seq(|items|, k => k))
    ensures SlotsOk(cfg, Submitted(e, i, items, p, index, batch))
  {
    hide PlanOk;
    var e' := Submitted(e, i, items, p, index, batch);
    forall k: nat | k < 2
      ensures SlotOk(cfg, e'.slots[k], e'.indexes[k]) && Accounted(e'.slots[k], e'.indexes[k], e'.waves, k, e'.done[k])
    {
      assert SlotOk(cfg, e.slots[k], e.indexes[k]) && Accounted(e.slots[k], e.indexes[k], e.waves, k, e.done[k]);
    }
  }

  // --- Dispatching a wave --------------------------------------------------------------------------------------------

  /** Reads [dispatched, n) of slot i go out with wave w. */
  ghost function Sent(e: Exec, w: nat, wave: Wave, n: nat): Exec
    requires Shape(e) && w < 2 && wave.slot < 2
  {
    e.(waves := e.waves[w := wave], slots := e.slots[wave.slot := e.slots[wave.slot].(dispatched := n)])
  }

  ghost predicate CanDispatch(cfg: CpuConfig, e: Exec, w: nat, wave: Wave, n: nat)
    requires Shape(e)
  {
    && !e.stopped && w < 2 && e.waves[w].state.InputFree? && wave.state.Reading? && wave.slot < 2
    && e.slots[wave.slot].state.Rendering?
    && e.slots[wave.slot].dispatched < n <= |e.slots[wave.slot].plan.list|
    && wave.chunks == Flat(e.indexes[wave.slot], e.slots[wave.slot].dispatched, n) && wave.chunks != []
    && InputsHold(cfg, e.slots[wave.slot].items, wave)
    && wave.list == SentReads(e.slots[wave.slot].plan.list, e.slots[wave.slot].dispatched, n)
  }

  /** The input bytes of reads [from, n). */
  ghost function ReadBytes(list: seq<ReadOp>, from: nat, n: nat): nat
    requires n <= |list|
  {
    if n <= from then 0 else ReadBytes(list, from, n - 1) + list[n - 1].nbytes
  }

  /** The reads [from, n) of a plan, placeholders left out, back to back in the input buffer. */
  ghost function SentReads(list: seq<ReadOp>, from: nat, n: nat): seq<InputRead>
    requires n <= |list|
  {
    if n <= from then []
    else
      var read := list[n - 1];
      SentReads(list, from, n - 1)
      + (if read.nbytes > 0 then [InputRead(read.path, ReadBytes(list, from, n - 1), read.offset, read.nbytes)] else [])
  }

  lemma DispatchWaves(cfg: CpuConfig, e: Exec, w: nat, wave: Wave, n: nat)
    requires Shape(e) && WavesOk(cfg, e) && CanDispatch(cfg, e, w, wave, n)
    ensures WavesOk(cfg, Sent(e, w, wave, n))
  {
    hide InputsHold;
    var e' := Sent(e, w, wave, n);
    forall v: nat | v < 2 ensures WaveOk(cfg, e'.waves[v], e'.slots) { assert WaveOk(cfg, e.waves[v], e.slots); }
  }

  lemma InFlightUpdate(waves: seq<Wave>, w: nat, wave: Wave, k: nat)
    requires |waves| == 2 && w < 2
    ensures InFlight(waves[w := wave], k) + InWave(waves[w], k) == InFlight(waves, k) + InWave(wave, k)
    ensures InWave(waves[w], k) == InWave(wave, k) ==> InFlight(waves[w := wave], k) == InFlight(waves, k)
  {
    hide InWave;
    if w == 0 { assert waves[w := wave][1] == waves[1]; } else { assert waves[w := wave][0] == waves[0]; }
  }

  /** A slot none of whose chunks move keeps its accounts. */
  lemma AccountsKept(s: Slot, s': Slot, index: seq<nat>, waves: seq<Wave>, waves': seq<Wave>, i: nat, done: seq<nat>)
    requires |waves| == |waves'| == 2 && Accounted(s, index, waves, i, done)
               && InFlight(waves', i) == InFlight(waves, i)
    requires s' == s || (!s'.state.Rendering? && !s'.state.Finished?)
    ensures Accounted(s', index, waves', i, done)
  {
    hide InFlight, Flat;
  }

  /** Chunks move from undispatched to a wave. */
  lemma AccountsDispatched(s: Slot, index: seq<nat>, waves: seq<Wave>, waves': seq<Wave>, i: nat, done: seq<nat>,
                           n: nat, chunks: seq<nat>)
    requires |waves| == |waves'| == 2 && s.state.Rendering? && Accounted(s, index, waves, i, done)
    requires s.dispatched <= n <= |s.plan.list| && chunks == Flat(index, s.dispatched, n)
    requires InFlight(waves', i) == InFlight(waves, i) + multiset(chunks)
    ensures Accounted(s.(dispatched := n), index, waves', i, done)
  {
    hide InFlight, Flat;
    FlatSplit(index, s.dispatched, n, |s.plan.list|);
    var rest := Flat(index, n, |s.plan.list|);
    assert multiset(chunks + rest) == multiset(chunks) + multiset(rest);
  }

  /** Chunks move from a wave to the decoded ones. */
  lemma AccountsCollected(s: Slot, index: seq<nat>, waves: seq<Wave>, waves': seq<Wave>, i: nat, done: seq<nat>,
                          chunks: seq<nat>)
    requires |waves| == |waves'| == 2 && s.state.Rendering? && Accounted(s, index, waves, i, done)
               && |chunks| <= s.remaining
    requires InFlight(waves', i) + multiset(chunks) == InFlight(waves, i)
    ensures Accounted(s.(remaining := s.remaining - |chunks|), index, waves', i, done + chunks)
  {
    hide InFlight, Flat;
    assert multiset(done + chunks) == multiset(done) + multiset(chunks);
  }

  lemma DispatchSlots(cfg: CpuConfig, e: Exec, w: nat, wave: Wave, n: nat)
    requires Shape(e) && SlotsOk(cfg, e) && CanDispatch(cfg, e, w, wave, n)
    ensures SlotsOk(cfg, Sent(e, w, wave, n))
  {
    hide InputsHold, PlanOk, Flat, Accounted, InFlight;
    var e', i := Sent(e, w, wave, n), wave.slot;
    forall k: nat | k < 2
      ensures SlotOk(cfg, e'.slots[k], e'.indexes[k]) && Accounted(e'.slots[k], e'.indexes[k], e'.waves, k, e'.done[k])
    {
      assert SlotOk(cfg, e.slots[k], e.indexes[k]) && Accounted(e.slots[k], e.indexes[k], e.waves, k, e.done[k]);
      InFlightUpdate(e.waves, w, wave, k);
      if k == i {
        AccountsDispatched(e.slots[k], e.indexes[k], e.waves, e'.waves, k, e.done[k], n, wave.chunks);
      } else {
        AccountsKept(e.slots[k], e'.slots[k], e.indexes[k], e.waves, e'.waves, k, e.done[k]);
      }
    }
  }

  /** Changing only the counters of a pending slot keeps order and buffers. */
  lemma SameOrder(slots: seq<Slot>, after: seq<Slot>, taken: nat, submitted: nat)
    requires |slots| == |after| == 2 && SlotOrder(slots, taken, submitted)
    requires forall i | 0 <= i < 2 :: (Pending(slots[i]) <==> Pending(after[i])) && after[i].batch == slots[i].batch
    ensures SlotOrder(after, taken, submitted)
  {
    forall b: nat | taken <= b < submitted ensures InSlots(after, b) { assert InSlots(slots, b); }
  }

  lemma DispatchKeeps(cfg: CpuConfig, fixed: nat, e: Exec, w: nat, wave: Wave, n: nat)
    requires ExecOk(cfg, fixed, e) && CanDispatch(cfg, e, w, wave, n)
    ensures ExecOk(cfg, fixed, Sent(e, w, wave, n))
  {
    hide WaveOk, BufferOk, SlotOrder, SlotsOk, WavesOk, InputsHold;
    var e' := Sent(e, w, wave, n);
    DispatchWaves(cfg, e, w, wave, n);
    DispatchSlots(cfg, e, w, wave, n);
    BuffersElsewhere(e, wave.slot, e'.slots);
    SameOrder(e.slots, e'.slots, e.taken, e.submitted);
  }

  // --- Reads done, decode started ------------------------------------------------------------------------------------

  ghost function WaveMoved(e: Exec, w: nat, state: WaveState): Exec
    requires Shape(e) && w < 2
  {
    e.(waves := e.waves[w := e.waves[w].(state := state)], decoding := if state.Decoding? then Some(w) else e.decoding)
  }

  lemma WaveMovedWaves(cfg: CpuConfig, e: Exec, w: nat, state: WaveState)
    requires Shape(e) && WavesOk(cfg, e) && w < 2 && !e.waves[w].state.InputFree? && !e.waves[w].state.Decoding?
    requires state.ReadReady? || (state.Decoding? && e.decoding.None?)
    ensures WavesOk(cfg, WaveMoved(e, w, state))
  {
    hide Packed;
    var e' := WaveMoved(e, w, state);
    forall v: nat | v < 2 ensures WaveOk(cfg, e'.waves[v], e'.slots) {
      assert WaveOk(cfg, e.waves[v], e.slots);
    }
  }

  lemma WaveMovedKeeps(cfg: CpuConfig, fixed: nat, e: Exec, w: nat, state: WaveState)
    requires ExecOk(cfg, fixed, e) && w < 2 && !e.waves[w].state.InputFree? && !e.waves[w].state.Decoding?
    requires state.ReadReady? || (state.Decoding? && e.decoding.None?)
    ensures ExecOk(cfg, fixed, WaveMoved(e, w, state))
  {
    hide BufferOk, SlotOrder, WavesOk, Accounted, InFlight, SlotOk;
    var e' := WaveMoved(e, w, state);
    WaveMovedWaves(cfg, e, w, state);
    forall k: nat | k < 2
      ensures SlotOk(cfg, e'.slots[k], e'.indexes[k]) && Accounted(e'.slots[k], e'.indexes[k], e'.waves, k, e'.done[k])
    {
      assert SlotOk(cfg, e.slots[k], e.indexes[k]) && Accounted(e.slots[k], e.indexes[k], e.waves, k, e.done[k]);
      InFlightUpdate(e.waves, w, e'.waves[w], k);
      AccountsKept(e.slots[k], e.slots[k], e.indexes[k], e.waves, e'.waves, k, e.done[k]);
    }
    BuffersElsewhere(e, 0, e'.slots);
  }

  // --- How much is left to do -----------------------------------------------------------------------------

  /** What a chunk of the wave still needs: arrive, be decoded, be collected. */
  ghost function StepsLeft(state: WaveState): nat {
    match state
    case InputFree => 0
    case Reading => 3
    case ReadReady => 2
    case Decoding => 1
  }

  ghost function SlotWork(s: Slot, index: seq<nat>): nat {
    if s.state.Rendering? && s.dispatched <= |s.plan.list| then 4 * |Undispatched(s, index)| else 0
  }

  ghost function WaveWork(w: Wave): nat {
    StepsLeft(w.state) * |w.chunks|
  }

  /** The steps the chunks of all submitted batches still need. */
  ghost function WorkLeft(e: Exec): nat
    requires Shape(e)
  {
    SlotWork(e.slots[0], e.indexes[0]) + SlotWork(e.slots[1], e.indexes[1]) + WaveWork(e.waves[0])
      + WaveWork(e.waves[1])
  }

  lemma SentLowers(cfg: CpuConfig, e: Exec, w: nat, wave: Wave, n: nat)
    requires Shape(e) && CanDispatch(cfg, e, w, wave, n)
    ensures WorkLeft(Sent(e, w, wave, n)) < WorkLeft(e)
  {
    hide Flat, InputsHold;
    var s, index := e.slots[wave.slot], e.indexes[wave.slot];
    FlatSplit(index, s.dispatched, n, |s.plan.list|);
    assert |Undispatched(s, index)| == |wave.chunks| + |Undispatched(s.(dispatched := n), index)|;
    assert WaveWork(wave) == 3 * |wave.chunks|;
  }

  lemma WaveMovedLowers(cfg: CpuConfig, e: Exec, w: nat, state: WaveState)
    requires Shape(e) && WavesOk(cfg, e) && w < 2
    requires (e.waves[w].state.Reading? && state.ReadReady?) || (e.waves[w].state.ReadReady? && state.Decoding?)
    ensures WorkLeft(WaveMoved(e, w, state)) < WorkLeft(e)
  {
    hide Flat, InputsHold;
    assert WaveOk(cfg, e.waves[w], e.slots);
    var n := |e.waves[w].chunks|;
    assert WaveWork(e.waves[w].(state := state)) == StepsLeft(state) * n < StepsLeft(e.waves[w].state) * n;
  }

  lemma CollectedLowers(cfg: CpuConfig, e: Exec)
    requires Shape(e) && SlotsOk(cfg, e) && WavesOk(cfg, e) && e.decoding.Some?
    ensures e.decoding.value < 2 && e.waves[e.decoding.value].slot < 2 && WorkLeft(Collected(e)) < WorkLeft(e)
  {
    hide Flat, InputsHold, Accounted, PlanOk;
    CollectCounts(cfg, e);
    var w := e.decoding.value;
    assert WaveOk(cfg, e.waves[w], e.slots);
    assert WaveWork(e.waves[w]) == |e.waves[w].chunks|;
  }

  // --- Collecting a decoded wave -------------------------------------------------------------------------------------

  ghost function Collected(e: Exec): Exec
    requires Shape(e) && e.decoding.Some? && e.decoding.value < 2 && e.waves[e.decoding.value].slot < 2
  {
    var w := e.decoding.value;
    var i := e.waves[w].slot;
    var s := e.slots[i];
    var left := if |e.waves[w].chunks| <= s.remaining then s.remaining - |e.waves[w].chunks| else 0;
    var after := if left > 0 then s.(remaining := left) else s.(remaining := 0, state := Finished, plan := NO_PLAN);
    e.(waves := e.waves[w := e.waves[w].(state := InputFree)], decoding := None,
       slots := e.slots[i := after], done := e.done[i := e.done[i] + e.waves[w].chunks],
       committed :=
         if left > 0 then e.committed else if e.committed >= s.plan.bytes then e.committed - s.plan.bytes else 0)
  }

  /** The chunks of the wave were still counted as remaining; if they were the last, no
      other wave works on the slot and every chunk has been decoded exactly once. */
  lemma CollectCounts(cfg: CpuConfig, e: Exec)
    requires Shape(e) && SlotsOk(cfg, e) && WavesOk(cfg, e) && e.decoding.Some?
    ensures !e.stopped
    ensures var w := e.decoding.value; var i := e.waves[w].slot;
            && w < 2 && i < 2 && e.slots[i].state.Rendering? && |e.waves[w].chunks| <= e.slots[i].remaining
            && (|e.waves[w].chunks| == e.slots[i].remaining ==>
                  && InWave(e.waves[1 - w], i) == multiset{} && e.slots[i].dispatched == |e.slots[i].plan.list|
                  && multiset(e.done[i] + e.waves[w].chunks) == multiset(seq(|e.slots[i].items|, k => k)))
  {
    hide PlanOk, InputsHold, Flat;
    var w := e.decoding.value;
    assert WaveOk(cfg, e.waves[w], e.slots);
    var i := e.waves[w].slot;
    var s := e.slots[i];
    assert SlotOk(cfg, s, e.indexes[i]) && Accounted(s, e.indexes[i], e.waves, i, e.done[i]);
    var mine, other, rest := multiset(e.waves[w].chunks), InWave(e.waves[1 - w], i), Undispatched(s, e.indexes[i]);
    assert InFlight(e.waves, i) == mine + other;
    var all := seq(|s.items|, k => k);
    assert |multiset(e.done[i]) + (mine + other) + multiset(rest)| == |multiset(all)|;
    assert |multiset(all)| == |s.items| && |multiset(rest)| == |rest| && |mine| == |e.waves[w].chunks|;
    if |e.waves[w].chunks| == s.remaining {
      assert |other| == 0 && |rest| == 0;
      EmptyMultiset(other);
      assert multiset(rest) == multiset{};
      assert multiset(e.done[i] + e.waves[w].chunks) == multiset(e.done[i]) + mine;
      NothingLeft(cfg, s, e.indexes[i]);
    }
  }

  /** A finished slot's chunks were decoded once each, in some order: that is all the
      assembly of a batch asks for. */
  lemma DecodedIsOrder(done: seq<nat>, n: nat)
    requires multiset(done) == multiset(seq(n, k => k))
    ensures forall j | 0 <= j < |done| :: done[j] < n
    ensures forall k: nat | k < n :: k in done
    ensures |done| == n
  {
    var all: seq<nat> := seq(n, k => k);
    forall j | 0 <= j < |done| ensures done[j] < n {
      assert done[j] in multiset(done);
      assert done[j] in all;
    }
    forall k: nat | k < n ensures k in done {
      assert all[k] in multiset(all);
      assert k in multiset(done);
    }
    assert |multiset(done)| == |done| && |multiset(all)| == n;
  }

  lemma EmptyMultiset(m: multiset<nat>)
    requires |m| == 0
    ensures m == multiset{}
  {
  }

  /** A read always serves some chunk, so no chunks left means no reads left. */
  lemma SomethingLeft(cfg: CpuConfig, s: Slot, index: seq<nat>)
    requires s.dispatched < |s.plan.list| && PlanOk(cfg, s.items, s.plan, index)
    ensures Undispatched(s, index) != []
  {
    assert ReadFits(cfg, s.plan.list, index, s.dispatched);
  }

  lemma NothingLeft(cfg: CpuConfig, s: Slot, index: seq<nat>)
    requires s.dispatched <= |s.plan.list| && PlanOk(cfg, s.items, s.plan, index) && Undispatched(s, index) == []
    ensures s.dispatched == |s.plan.list|
  {
    if s.dispatched < |s.plan.list| { SomethingLeft(cfg, s, index); assert false; }
  }

  lemma CollectSlots(cfg: CpuConfig, e: Exec)
    requires Shape(e) && SlotsOk(cfg, e) && WavesOk(cfg, e) && e.decoding.Some?
    ensures e.decoding.value < 2 && e.waves[e.decoding.value].slot < 2 && SlotsOk(cfg, Collected(e))
  {
    hide PlanOk, WaveOk, Flat, Accounted, InFlight;
    CollectCounts(cfg, e);
    var w, e' := e.decoding.value, Collected(e);
    var i := e.waves[w].slot;
    forall k: nat | k < 2
      ensures SlotOk(cfg, e'.slots[k], e'.indexes[k]) && Accounted(e'.slots[k], e'.indexes[k], e'.waves, k, e'.done[k])
    {
      assert SlotOk(cfg, e.slots[k], e.indexes[k]) && Accounted(e.slots[k], e.indexes[k], e.waves, k, e.done[k]);
      InFlightUpdate(e.waves, w, e'.waves[w], k);
      if k == i {
        AccountsCollected(e.slots[i], e.indexes[i], e.waves, e'.waves, i, e.done[i], e.waves[w].chunks);
        if !e'.slots[i].state.Rendering? { NotRendering(e'.slots[i], e.indexes[i], e'.waves, i, e'.done[i]); }
      } else {
        AccountsKept(e.slots[k], e.slots[k], e.indexes[k], e.waves, e'.waves, k, e.done[k]);
      }
    }
  }

  lemma NotRendering(s: Slot, index: seq<nat>, waves: seq<Wave>, i: nat, done: seq<nat>)
    requires |waves| == 2 && !s.state.Rendering? && multiset(done) == multiset(seq(|s.items|, k => k))
    ensures Accounted(s, index, waves, i, done)
  {
  }

  lemma WorksElsewhere(w: Wave, i: nat)
    requires InWave(w, i) == multiset{} && w.chunks != []
    ensures w.state.InputFree? || w.slot != i
  {
    assert w.chunks[0] in multiset(w.chunks);
  }

  lemma CollectWaves(cfg: CpuConfig, e: Exec)
    requires Shape(e) && SlotsOk(cfg, e) && WavesOk(cfg, e) && e.decoding.Some?
    ensures e.decoding.value < 2 && e.waves[e.decoding.value].slot < 2 && WavesOk(cfg, Collected(e))
  {
    hide PlanOk, InputsHold, Flat, Accounted, SlotsOk;
    CollectCounts(cfg, e);
    var w, e' := e.decoding.value, Collected(e);
    var i := e.waves[w].slot;
    forall v: nat | v < 2 ensures WaveOk(cfg, e'.waves[v], e'.slots) {
      assert WaveOk(cfg, e.waves[v], e.slots);
      if v != w && !e'.slots[i].state.Rendering? && e.waves[v].chunks != [] { WorksElsewhere(e.waves[v], i); }
    }
  }

  lemma CollectKeeps(cfg: CpuConfig, fixed: nat, e: Exec)
    requires ExecOk(cfg, fixed, e) && e.decoding.Some?
    ensures e.decoding.value < 2 && e.waves[e.decoding.value].slot < 2 && ExecOk(cfg, fixed, Collected(e))
  {
    hide WaveOk, BufferOk, SlotOrder, SlotsOk, WavesOk, InputsHold;
    CollectSlots(cfg, e);
    CollectWaves(cfg, e);
    CollectCounts(cfg, e);
    var e' := Collected(e);
    BuffersElsewhere(e, e.waves[e.decoding.value].slot, e'.slots);
    SameOrder(e.slots, e'.slots, e.taken, e.submitted);
  }

  // --- Batches -------------------------------------------------------------------------------------------------------

  /** The oldest batch is handed out: its buffer is now shared with the holder. */
  ghost function Taken(e: Exec, i: nat): Exec
    requires Shape(e) && i < 2
  {
    e.(slots := e.slots[i := e.slots[i].(state := Held)], refs := e.refs[i := e.refs[i] + 1],
       batches := e.batches[e.slots[i].batch := Batch(i, e.slots[i].batch, 1)], taken := e.taken + 1)
  }

  /** The next batch in sequence is not finished, or not submitted. */
  ghost predicate NextNotReady(slots: seq<Slot>, taken: nat)
    requires |slots| == 2
  {
    forall i | 0 <= i < 2 && Pending(slots[i]) && slots[i].batch == taken :: slots[i].state.Rendering?
  }

  /** The first pending slot by batch number holds the next batch in sequence. */
  lemma OldestIsNext(slots: seq<Slot>, taken: nat, submitted: nat, i: nat)
    requires |slots| == 2 && SlotOrder(slots, taken, submitted) && i < 2 && Pending(slots[i])
    requires Pending(slots[1 - i]) ==> slots[i].batch <= slots[1 - i].batch
    ensures slots[i].batch == taken && (NextNotReady(slots, taken) <==> slots[i].state.Rendering?)
  {
    assert taken < submitted;
    assert InSlots(slots, taken);
  }

  lemma OrderTaken(slots: seq<Slot>, taken: nat, submitted: nat, i: nat)
    requires |slots| == 2 && SlotOrder(slots, taken, submitted) && i < 2 && Pending(slots[i]) && slots[i].batch == taken
    ensures SlotOrder(slots[i := slots[i].(state := Held)], taken + 1, submitted)
  {
    var after := slots[i := slots[i].(state := Held)];
    forall b: nat | taken + 1 <= b < submitted ensures InSlots(after, b) { assert InSlots(slots, b); }
  }

  lemma TakenBuffer(e: Exec, i: nat, k: nat)
    requires Shape(e) && !e.stopped && i < 2 && k < 2 && e.slots[i].state.Finished? && e.slots[i].batch !in e.batches
    requires BufferOk(e.slots, e.refs, e.batches, e.stopped, k)
    ensures var e' := Taken(e, i); BufferOk(e'.slots, e'.refs, e'.batches, e'.stopped, k)
  {
    var e', b := Taken(e, i), e.slots[i].batch;
    assert LiveOf(e'.batches, k) == LiveOf(e.batches, k) + if k == i then {b} else {};
    assert b !in LiveOf(e.batches, k);
  }

  lemma TakeBuffers(e: Exec, i: nat)
    requires Shape(e) && BuffersOk(e) && !e.stopped && i < 2 && e.slots[i].state.Finished?
               && e.slots[i].batch == e.taken
    ensures BuffersOk(Taken(e, i))
  {
    hide BufferOk;
    var e' := Taken(e, i);
    forall k: nat | k < 2 ensures BufferOk(e'.slots, e'.refs, e'.batches, e'.stopped, k) {
      TakenBuffer(e, i, k);
    }
  }

  /** A slot leaves the pending ones, or becomes free, without touching chunk accounts. */
  lemma SlotReleased(cfg: CpuConfig, e: Exec, i: nat, state: SlotState, e': Exec)
    requires Shape(e) && Shape(e') && SlotsOk(cfg, e) && WavesOk(cfg, e) && i < 2
    requires !e.slots[i].state.Rendering? && !state.Rendering? && !state.Finished?
    requires e'.slots == e.slots[i := e.slots[i].(state := state)] && e'.waves == e.waves && e'.decoding == e.decoding
    requires e'.indexes == e.indexes && e'.done == e.done && e'.stopped == e.stopped
    ensures SlotsOk(cfg, e') && WavesOk(cfg, e')
  {
    hide InFlight, Flat, PlanOk, InputsHold;
    WavesElsewhere(cfg, e, i, e'.slots);
    forall k: nat | k < 2
      ensures SlotOk(cfg, e'.slots[k], e'.indexes[k]) && Accounted(e'.slots[k], e'.indexes[k], e'.waves, k, e'.done[k])
    {
      assert SlotOk(cfg, e.slots[k], e.indexes[k]) && Accounted(e.slots[k], e.indexes[k], e.waves, k, e.done[k]);
    }
  }

  lemma TakeKeeps(cfg: CpuConfig, fixed: nat, e: Exec, i: nat)
    requires ExecOk(cfg, fixed, e) && !e.stopped && i < 2 && e.slots[i].state.Finished? && e.slots[i].batch == e.taken
    ensures ExecOk(cfg, fixed, Taken(e, i))
  {
    hide SlotsOk, WavesOk, BuffersOk, SlotOrder;
    SlotReleased(cfg, e, i, Held, Taken(e, i));
    TakeBuffers(e, i);
    OrderTaken(e.slots, e.taken, e.submitted, i);
  }

  /** A held slot whose buffer only the executor refers to is free again. */
  ghost function Freed(e: Exec, i: nat): Exec
    requires Shape(e) && i < 2
  {
    e.(slots := e.slots[i := e.slots[i].(state := Free)])
  }

  lemma FreeKeeps(cfg: CpuConfig, fixed: nat, e: Exec, i: nat)
    requires ExecOk(cfg, fixed, e) && !e.stopped && i < 2 && e.slots[i].state.Held? && e.refs[i] == 1
    ensures ExecOk(cfg, fixed, Freed(e, i)) && LiveOf(e.batches, i) == {}
  {
    hide SlotsOk, WavesOk, SlotOrder;
    assert BufferOk(e.slots, e.refs, e.batches, e.stopped, i);
    var e' := Freed(e, i);
    SlotReleased(cfg, e, i, Free, e');
    BuffersElsewhere(e, i, e'.slots);
    SameOrder(e.slots, e'.slots, e.taken, e.submitted);
  }

  /** A holder shares a batch, or gives up a share of it; the last one frees the batch. */
  ghost function Shared(e: Exec, b: nat): Exec
    requires b in e.batches
  {
    e.(batches := e.batches[b := e.batches[b].(refs := e.batches[b].refs + 1)])
  }

  ghost function Dropped(e: Exec, b: nat): Exec
    requires b in e.batches && e.batches[b].slot < |e.refs|
  {
    var batch := e.batches[b];
    if batch.refs > 1 then e.(batches := e.batches[b := batch.(refs := batch.refs - 1)])
    else e.(batches := e.batches - {b},
            refs := e.refs[batch.slot := if e.refs[batch.slot] > 0 then e.refs[batch.slot] - 1 else 0])
  }

  lemma ShareKeeps(cfg: CpuConfig, fixed: nat, e: Exec, b: nat)
    requires ExecOk(cfg, fixed, e) && b in e.batches
    ensures ExecOk(cfg, fixed, Shared(e, b))
  {
    hide SlotOk, Accounted, WaveOk, SlotOrder;
    var e' := Shared(e, b);
    forall k: nat | k < 2 ensures BufferOk(e'.slots, e'.refs, e'.batches, e'.stopped, k) {
      assert BufferOk(e.slots, e.refs, e.batches, e.stopped, k);
      assert LiveOf(e'.batches, k) == LiveOf(e.batches, k);
    }
  }

  lemma DropKeeps(cfg: CpuConfig, fixed: nat, e: Exec, b: nat)
    requires ExecOk(cfg, fixed, e) && b in e.batches
    ensures e.batches[b].slot < |e.refs| && ExecOk(cfg, fixed, Dropped(e, b))
  {
    hide SlotOk, Accounted, WaveOk, SlotOrder;
    var e' := Dropped(e, b);
    forall k: nat | k < 2 ensures BufferOk(e'.slots, e'.refs, e'.batches, e'.stopped, k) {
      assert BufferOk(e.slots, e.refs, e.batches, e.stopped, k);
      if e.batches[b].refs > 1 {
        assert LiveOf(e'.batches, k) == LiveOf(e.batches, k);
      } else {
        assert LiveOf(e'.batches, k) ==
               if k == e.batches[b].slot then LiveOf(e.batches, k) - {b} else LiveOf(e.batches, k);
        assert k == e.batches[b].slot ==> b in LiveOf(e.batches, k);
      }
    }
  }

  // --- Stopping ------------------------------------------------------------------------------------------------------

  /** The decode thread is joined, waves and plans are dropped, and the executor gives up its buffers. */
  ghost function Stopped(e: Exec): Exec
    requires Shape(e)
  {
    e.(slots := [NO_SLOT, NO_SLOT], waves := [NO_WAVE, NO_WAVE], decoding := None, committed := 0, stopped := true,
       refs := [if e.refs[0] > 0 then e.refs[0] - 1 else 0, if e.refs[1] > 0 then e.refs[1] - 1 else 0],
       taken := e.submitted)
  }

  /** After the stop nothing can be written any more, and a buffer lives on exactly as long
      as batches refer to it. */
  lemma StopKeeps(cfg: CpuConfig, fixed: nat, e: Exec)
    requires ExecOk(cfg, fixed, e) && !e.stopped
    ensures ExecOk(cfg, fixed, Stopped(e)) && Stopped(e).decoding.None?
    ensures forall i: nat | i < 2 :: Stopped(e).refs[i] == |LiveOf(e.batches, i)|
  {
    hide Flat, PlanOk;
    var e' := Stopped(e);
    forall k: nat | k < 2
      ensures BufferOk(e'.slots, e'.refs, e'.batches, e'.stopped, k) && e'.refs[k] == |LiveOf(e.batches, k)|
    {
      assert BufferOk(e.slots, e.refs, e.batches, e.stopped, k);
    }
  }

  // --- Packing a wave ------------------------------------------------------------------------------------------------

  /** Follows the chunk list of a read. */
  method ChunksOf(p: ReadPlan, r: nat, ghost index: seq<nat>) returns (chunks: seq<nat>)
    requires ListsOk(index, |p.list|, p.first, p.next, 0) && r < |p.list|
    ensures chunks == Served(index, r, 0)
  {
    hide Served;
    chunks := [];
    var c: Option<nat> := p.first[r];
    while c.Some?
      invariant c.Some? ==> c.value < |p.next|
      invariant chunks + Chain(p.next, 0, c) == Served(index, r, 0)
      decreases if c.Some? then |p.next| - c.value else 0
    {
      chunks := chunks + [c.value];
      c := p.next[c.value];
    }
  }

  lemma {:induction false} MorePacked(cfg: CpuConfig, items: seq<Item>, chunks: seq<nat>, inputs: seq<nat>,
                                      list: seq<InputRead>,
                                      moreChunks: seq<nat>, moreInputs: seq<nat>, moreList: seq<InputRead>)
    requires Packed(cfg, items, chunks, inputs, list) && Packed(cfg, items, moreChunks, moreInputs, list + moreList)
    ensures Packed(cfg, items, chunks + moreChunks, inputs + moreInputs, list + moreList)
  {
    var cs, ins, all := chunks + moreChunks, inputs + moreInputs, list + moreList;
    forall k | 0 <= k < |cs| ensures ChunkInput(cfg, items, all, cs[k], ins[k]) {
      if k < |chunks| {
        assert ChunkInput(cfg, items, list, chunks[k], inputs[k]);
        if !items[chunks[k]].missing {
          var j: nat :| ReadCovers(cfg, items[chunks[k]], list, inputs[k], j);
          assert ReadCovers(cfg, items[chunks[k]], all, inputs[k], j);
        }
      } else {
        assert ChunkInput(cfg, items, all, moreChunks[k - |chunks|], moreInputs[k - |chunks|]);
      }
    }
  }

  /** The chunks of one read, placed from input position `bytes` on. */
  method PlaceRead(cfg: CpuConfig, ghost items: seq<Item>, p: ReadPlan, ghost index: seq<nat>, r: nat,
                   chunks: seq<nat>, bytes: nat,
                   ghost list: seq<InputRead>)
    returns (inputs: seq<nat>, more: seq<InputRead>)
    requires PlanOk(cfg, items, p, index) && r < |p.list| && chunks == Served(index, r, 0)
    requires bytes + p.list[r].nbytes <= InputCapacity(cfg)
    ensures Packed(cfg, items, chunks, inputs, list + more)
    ensures |more| == (if p.list[r].nbytes > 0 then 1 else 0)
    ensures more != [] ==> more[0] == InputRead(p.list[r].path, bytes, p.list[r].offset, p.list[r].nbytes)
  {
    hide ListsOk, ReadFits;
    var read := p.list[r];
    more := if read.nbytes > 0 then [InputRead(read.path, bytes, read.offset, read.nbytes)] else [];
    inputs := [];
    for k := 0 to |chunks|
      invariant |inputs| == k
      invariant forall j | 0 <= j < k :: ChunkInput(cfg, items, list + more, chunks[j], inputs[j])
    {
      var c := chunks[k];
      ServedMembers(index, r, 0, c);
      assert ChunkServed(items[c], p.list, index[c], p.offset[c]);
      var at := bytes + p.offset[c];
      inputs := inputs + [at];
      if !items[c].missing {
        assert (list + more)[|list|] == more[0];
        assert ReadCovers(cfg, items[c], list + more, at, |list|);
      }
    }
  }

  /** Read n no longer fits in a wave that has `count` chunks and `sent` reads from `from` on. */
  ghost predicate WaveFull(cfg: CpuConfig, list: seq<ReadOp>, index: seq<nat>, from: nat, n: nat, count: nat, sent: nat)
    requires n < |list|
  {
    || count + |Served(index, n, 0)| > cfg.chunksPerInput
    || ReadBytes(list, from, n) + list[n].nbytes > InputCapacity(cfg)
    || (list[n].nbytes > 0 && sent == cfg.maxInflight)
  }

  /** Packs as many further reads as the input buffer and the reader take; never none. */
  method PackWave(cfg: CpuConfig, ghost items: seq<Item>, p: ReadPlan, ghost index: seq<nat>, from: nat)
    returns (n: nat, chunks: seq<nat>, inputs: seq<nat>, list: seq<InputRead>)
    requires ConfigOk(cfg) && PlanOk(cfg, items, p, index) && from < |p.list|
    ensures from < n <= |p.list| && chunks == Flat(index, from, n) && chunks != []
    ensures |chunks| <= cfg.chunksPerInput && |list| <= cfg.maxInflight && Packed(cfg, items, chunks, inputs, list)
    ensures ReadsApart(list) && list == SentReads(p.list, from, n)
    ensures n < |p.list| ==> WaveFull(cfg, p.list, index, from, n, |chunks|, |list|)
  {
    hide Packed, ChunkServed, Flat, Served, ListsOk, InputCapacity, SentReads, ReadBytes, ReadFits;
    n, chunks, inputs, list := from, [], [], [];
    var bytes: nat := 0;
    var capacity := cfg.chunksPerInput * cfg.maxEncoded;
    assert capacity == InputCapacity(cfg) by { CapacityIs(cfg); }
    NothingPacked(cfg, items);
    FlatNone(index, from);
    NothingSent(p.list, from);
    while n < |p.list|
      invariant from <= n <= |p.list| && chunks == Flat(index, from, n) && (n > from ==> chunks != [])
      invariant n == from ==> list == [] && bytes == 0
      invariant |chunks| <= cfg.chunksPerInput && |list| <= cfg.maxInflight && bytes <= capacity
      invariant Packed(cfg, items, chunks, inputs, list) && bytes == ReadBytes(p.list, from, n)
      invariant list == SentReads(p.list, from, n)
      invariant ReadsApart(list) && forall a | 0 <= a < |list| :: list[a].dst + list[a].len <= bytes
    {
      var served := ChunksOf(p, n, index);
      var read := p.list[n];
      ReadIsSmall(cfg, items, p, index, n);
      if |served| > cfg.chunksPerInput - |chunks| || read.nbytes > capacity - bytes
         || (read.nbytes > 0 && |list| == cfg.maxInflight)
      {
        assert WaveFull(cfg, p.list, index, from, n, |chunks|, |list|);
        break;
      }
      var places, more := PlaceRead(cfg, items, p, index, n, served, bytes, list);
      MorePacked(cfg, items, chunks, inputs, list, served, places, more);
      FlatNext(index, from, n);
      NextSent(p.list, from, n);
      chunks, inputs, list := chunks + served, inputs + places, list + more;
      bytes := bytes + read.nbytes;
      n := n + 1;
    }
  }

  lemma NothingSent(list: seq<ReadOp>, from: nat)
    requires from <= |list|
    ensures SentReads(list, from, from) == [] && ReadBytes(list, from, from) == 0
  {
  }

  lemma NextSent(list: seq<ReadOp>, from: nat, n: nat)
    requires from <= n < |list|
    ensures ReadBytes(list, from, n + 1) == ReadBytes(list, from, n) + list[n].nbytes
    ensures var read := InputRead(list[n].path, ReadBytes(list, from, n), list[n].offset, list[n].nbytes);
            SentReads(list, from, n + 1) == SentReads(list, from, n) + if list[n].nbytes > 0 then [read] else []
  {
  }

  lemma ReadIsSmall(cfg: CpuConfig, items: seq<Item>, p: ReadPlan, index: seq<nat>, r: nat)
    requires PlanOk(cfg, items, p, index) && r < |p.list|
    ensures 0 < |Served(index, r, 0)| <= cfg.chunksPerInput && p.list[r].nbytes <= InputCapacity(cfg)
  {
    hide ListsOk, ChunkServed, Served, InputCapacity;
    assert ReadFits(cfg, p.list, index, r);
  }

  lemma CapacityIs(cfg: CpuConfig)
    ensures cfg.chunksPerInput * cfg.maxEncoded == InputCapacity(cfg)
  {
  }

  lemma NothingPacked(cfg: CpuConfig, items: seq<Item>)
    ensures Packed(cfg, items, [], [], [])
  {
  }

  lemma FlatNone(index: seq<nat>, from: nat)
    ensures Flat(index, from, from) == []
  {
  }

  lemma FlatNext(index: seq<nat>, from: nat, n: nat)
    requires from <= n
    ensures Flat(index, from, n + 1) == Flat(index, from, n) + Served(index, n, 0)
  {
    FlatSplit(index, from, n, n + 1);
    assert Flat(index, n, n + 1) == Served(index, n, 0) + Flat(index, n + 1, n + 1);
  }

  /** Waves at work have different numbers, all given out already. */
  ghost predicate Numbered(waves: seq<Wave>, next: nat) {
    && (forall w | 0 <= w < |waves| && !waves[w].state.InputFree? :: waves[w].number < next)
    && forall v, w | 0 <= v < w < |waves| && !waves[v].state.InputFree? && !waves[w].state.InputFree? ::
         waves[v].number != waves[w].number
  }

  lemma FewerNumbered(waves: seq<Wave>, w: nat, next: nat)
    requires Numbered(waves, next) && w < |waves|
    ensures Numbered(waves[w := waves[w].(state := InputFree)], next)
  {
  }

  /** The first result that is not OK, if any. */
  ghost function FirstBad(results: seq<Status>): Status {
    if results == [] then OK else if results[0] != OK then results[0] else FirstBad(results[1..])
  }

  ghost predicate AllFit(cfg: CpuConfig, items: seq<Item>) {
    forall i | 0 <= i < |items| :: Fits(cfg, items[i])
  }

  function FreedIf(s: Slot, free: bool): Slot { if free then s.(state := Free) else s }

  /** An executor that has not been given a batch. */
  ghost function NoWork(fixed: nat): Exec {
    Exec([NO_SLOT, NO_SLOT], [NO_WAVE, NO_WAVE], None, fixed, [1, 1], map[], false, [[], []], [[], []], 0, 0)
  }

  class CpuExecutor {
    const cfg: CpuConfig
    const fixedBytes: nat
    var slots: seq<Slot>
    var waves: seq<Wave>
    var decoding: Option<nat>
    var decodeDone: bool
    var nextWave: nat
    var committed: nat
    var refs: seq<nat>
    var batches: map<nat, Batch>
    var stopped: bool
    ghost var indexes: seq<seq<nat>>
    ghost var done: seq<seq<nat>>
    ghost var submitted: nat
    ghost var taken: nat

    ghost function View(): Exec
      reads this
    {
      Exec(slots, waves, decoding, committed, refs, batches, stopped, indexes, done, submitted, taken)
    }

    ghost predicate Valid()
      reads this
    {
      ExecOk(cfg, fixedBytes, View()) && Numbered(waves, nextWave)
    }

    constructor (config: CpuConfig, fixed: nat)
      requires ConfigOk(config) && fixed <= config.maxMemory
      ensures Valid() && cfg == config && fixedBytes == fixed && !stopped && batches == map[]
      ensures View() == NoWork(fixed) && !decodeDone
    {
      cfg, fixedBytes := config, fixed;
      slots, waves := [NO_SLOT, NO_SLOT], [NO_WAVE, NO_WAVE];
      decoding, decodeDone, nextWave, committed, stopped := None, false, 0, fixed, false;
      refs, batches := [1, 1], map[];
      indexes, done := [[], []], [[], []];
      submitted, taken := 0, 0;
      new;
      assert LiveOf(batches, 0) == {} && LiveOf(batches, 1) == {};
    }

    predicate HasFree()
      requires |slots| == 2
      reads this
    {
      slots[0].state.Free? || slots[1].state.Free?
    }

    method FreeSlot() returns (slot: Option<nat>)
      requires |slots| == 2
      ensures slot.Some? ==> slot.value < 2 && slots[slot.value].state.Free?
      ensures slot.None? <==> !HasFree()
    {
      slot := None;
      for i := 0 to 2
        invariant forall k | 0 <= k < i :: !slots[k].state.Free?
      {
        if slots[i].state.Free? { return Some(i); }
      }
    }

    method AllSmall(items: seq<Item>) returns (small: bool)
      requires forall i | 0 <= i < |items| :: ItemOk(items[i])
      ensures small <==> AllFit(cfg, items)
    {
      for i := 0 to |items|
        invariant forall k | 0 <= k < i :: Fits(cfg, items[k])
      {
        if !items[i].missing && items[i].nbytes > cfg.maxEncoded { return false; }
      }
      return true;
    }

    /** Accepts a batch. AGAIN means that a slot is taken or that the plan fits once the
        batches in progress are done; BUDGET means that it never will. */
    method Submit(items: seq<Item>, batch: nat, memory: bool) returns (status: Status)
      requires Valid() && !stopped && batch == submitted && |items| <= U32_MAX && forall i | 0 <= i < |items| ::
                 ItemOk(items[i])
      modifies this`slots, this`committed, this`indexes, this`done, this`submitted
      ensures Valid()
      ensures status == OK <==>
                && old(HasFree()) && items != [] && AllFit(cfg, items)
                && old(committed) + Need(|items|) <= cfg.maxMemory && memory
      ensures status == AGAIN <==>
                || !old(HasFree())
                || (items != [] && AllFit(cfg, items)
                    && fixedBytes + Need(|items|) <= cfg.maxMemory < old(committed) + Need(|items|))
      ensures status == BUDGET <==>
                old(HasFree()) && items != [] && !(AllFit(cfg, items) && fixedBytes + Need(|items|) <= cfg.maxMemory)
      ensures status == OK ==>
                exists i: nat, p, m: Merge ::
                  && i < 2 && old(slots)[i].state.Free?
                  && PlanOk(cfg, items, p, m.index) && PlanMerged(cfg, items, p, m)
                  && View() == Submitted(old(View()), i, items, p, m.index, batch)
      ensures status == INVAL <==> old(HasFree()) && items == []
      ensures status in {OK, AGAIN, BUDGET, INVAL, OOM}
      ensures status != OK ==> unchanged(this)
    {
      hide SlotsOk, WavesOk, BuffersOk, SlotOrder, PlanOk, Fits, PlanMerged;
      var free := FreeSlot();
      if free.None? { return AGAIN; }
      if items == [] { return INVAL; }
      var small := AllSmall(items);
      if !small { return BUDGET; }
      var p: ReadPlan;
      ghost var merge: Merge;
      status, p, merge :=
        BuildReadPlan(cfg, items, cfg.maxMemory - committed, slots[0].plan.bytes + slots[1].plan.bytes, memory);
      if status == OK { Place(free.value, items, p, merge.index, batch); }
    }

    method Place(i: nat, items: seq<Item>, p: ReadPlan, ghost index: seq<nat>, batch: nat)
      requires Valid() && !stopped && i < 2 && slots[i].state.Free? && items != [] && PlanOk(cfg, items, p, index)
      requires batch == submitted && committed + p.bytes <= cfg.maxMemory
      modifies this`slots, this`committed, this`indexes, this`done, this`submitted
      ensures Valid() && View() == Submitted(old(View()), i, items, p, index, batch)
    {
      hide SlotsOk, WavesOk, BuffersOk, SlotOrder, PlanOk, BudgetOk;
      SubmitKeeps(cfg, fixedBytes, View(), i, items, p, index, batch);
      slots := slots[i := Slot(Rendering, items, p, batch, 0, |items|)];
      indexes, done := indexes[i := index], done[i := []];
      committed := committed + p.bytes;
      submitted := submitted + 1;
    }

    /** The rendering slot with reads left and the lowest batch number. */
    method SlotToDispatch() returns (slot: Option<nat>)
      requires |slots| == 2
      ensures slot.Some? ==> slot.value < 2 && Dispatchable(slots[slot.value])
      ensures slot.Some? ==> forall i | 0 <= i < 2 && Dispatchable(slots[i]) ::
                slots[slot.value].batch <= slots[i].batch
      ensures slot.None? ==> !Dispatchable(slots[0]) && !Dispatchable(slots[1])
    {
      slot := None;
      for i := 0 to 2
        invariant slot.Some? ==> slot.value < 2 && Dispatchable(slots[slot.value])
        invariant slot.Some? ==> forall k | 0 <= k < i && Dispatchable(slots[k]) ::
                    slots[slot.value].batch <= slots[k].batch
        invariant slot.None? ==> forall k | 0 <= k < i :: !Dispatchable(slots[k])
      {
        if Dispatchable(slots[i]) && (slot.None? || slots[i].batch < slots[slot.value].batch) { slot := Some(i); }
      }
    }

    /** Wave w took the next reads of the dispatchable slot with the lowest batch, as many as fit. */
    ghost predicate SentFrom(w: nat, before: Exec)
      requires Shape(before) && |slots| == |waves| == |indexes| == 2 && w < 2
      reads this
    {
      && waves[w].slot < 2
      && var i := waves[w].slot; var n := slots[i].dispatched;
         && Dispatchable(before.slots[i]) && CanDispatch(cfg, before, w, waves[w], n)
            && View() == Sent(before, w, waves[w], n)
         && (forall k | 0 <= k < 2 && Dispatchable(before.slots[k]) :: before.slots[i].batch <= before.slots[k].batch)
         && (n < |slots[i].plan.list| ==>
               WaveFull(cfg, slots[i].plan.list, indexes[i], before.slots[i].dispatched, n, |waves[w].chunks|,
                        |waves[w].list|))
    }

    /** Sends out the next reads with a free wave. The store may refuse for now. */
    method DispatchWave(w: nat, accepted: Status) returns (status: Status)
      requires Valid() && !stopped && w < 2 && waves[w].state.InputFree?
      modifies this`slots, this`waves, this`nextWave
      ensures Valid()
      ensures status == if old(Dispatchable(slots[0]) || Dispatchable(slots[1])) then accepted else OK
      ensures accepted != OK || old(!Dispatchable(slots[0]) && !Dispatchable(slots[1])) ==> unchanged(this)
      ensures accepted == OK && old(Dispatchable(slots[0]) || Dispatchable(slots[1])) ==>
                && SentFrom(w, old(View())) && WorkLeft(View()) < old(WorkLeft(View()))
                && waves[w].number == old(nextWave) && nextWave == old(nextWave) + 1
    {
      hide WavesOk, BuffersOk, SlotOrder, PlanOk, Flat, Packed, Accounted, BudgetOk;
      var slot := SlotToDispatch();
      if slot.None? { return OK; }
      var i := slot.value;
      assert SlotOk(cfg, slots[i], indexes[i]);
      var n, chunks, inputs, list := PackWave(cfg, slots[i].items, slots[i].plan, indexes[i], slots[i].dispatched);
      if accepted != OK { return accepted; }
      var wave := Wave(Reading, i, chunks, inputs, list, nextWave);
      DispatchKeeps(cfg, fixedBytes, View(), w, wave, n);
      SentLowers(cfg, View(), w, wave, n);
      waves := waves[w := wave];
      slots := slots[i := slots[i].(dispatched := n)];
      nextWave := nextWave + 1;
      return OK;
    }

    /** The store reports on a wave's reads: they have arrived, or failed. */
    method ReadsArrived(w: nat, polled: Status) returns (status: Status)
      requires Valid() && w < 2 && waves[w].state.Reading?
      modifies this`waves
      ensures Valid() && status == polled
      ensures polled != OK ==> unchanged(this)
      ensures polled == OK ==>
                && waves == old(waves)[w := old(waves)[w].(state := ReadReady)]
                && WorkLeft(View()) < old(WorkLeft(View()))
    {
      hide SlotsOk, WavesOk, BuffersOk, SlotOrder;
      if polled != OK { return polled; }
      WaveMovedKeeps(cfg, fixedBytes, View(), w, ReadReady);
      WaveMovedLowers(cfg, View(), w, ReadReady);
      waves := waves[w := waves[w].(state := ReadReady)];
      return OK;
    }

    /** Starts decoding the oldest wave that is ready, if none is being decoded. */
    method StartDecode()
      requires Valid()
      modifies this`waves, this`decoding, this`decodeDone
      ensures Valid()
      ensures old(decoding).Some? || decoding.None? ==> unchanged(this)
      ensures old(decoding).None? && decoding.Some? ==>
                && decoding.value < 2 && old(waves)[decoding.value].state.ReadReady?
                && View() == WaveMoved(old(View()), decoding.value, Decoding) && !decodeDone
                && WorkLeft(View()) < old(WorkLeft(View()))
      ensures old(decoding).None? ==>
                (decoding.Some? <==> exists w :: 0 <= w < 2 && old(waves)[w].state.ReadReady?)
      ensures old(decoding).None? && decoding.Some? ==>
                forall w | 0 <= w < 2 && old(waves)[w].state.ReadReady? ::
                    old(waves)[decoding.value].number <= old(waves)[w].number
    {
      hide SlotsOk, WavesOk, BuffersOk, SlotOrder;
      if decoding.Some? { return; }
      var next: Option<nat> := None;
      for w := 0 to 2
        invariant next.Some? ==> next.value < 2 && waves[next.value].state.ReadReady?
        invariant next.None? ==> forall k | 0 <= k < w :: !waves[k].state.ReadReady?
        invariant next.Some? ==> forall k | 0 <= k < w && waves[k].state.ReadReady? ::
                    waves[next.value].number <= waves[k].number
        invariant waves == old(waves) && decoding.None?
      {
        if waves[w].state.ReadReady? && (next.None? || waves[w].number < waves[next.value].number) { next := Some(w); }
      }
      if next.Some? {
        WaveMovedKeeps(cfg, fixedBytes, View(), next.value, Decoding);
        WaveMovedLowers(cfg, View(), next.value, Decoding);
        waves := waves[next.value := waves[next.value].(state := Decoding)];
        decoding := next;
        decodeDone := false;
      }
    }

    /** The decode thread has written all chunks of the wave. */
    method DecodeFinished()
      requires Valid() && decoding.Some?
      modifies this`decodeDone
      ensures Valid() && decodeDone
    {
      decodeDone := true;
    }

    /** Takes the results of a finished decode; the last one completes the batch and frees its plan. The first
        chunk that could not be decoded decides what is reported, and then nothing is taken. */
    method Collect(results: seq<Status>) returns (status: Status)
      requires Valid()
      requires decoding.Some? && decoding.value < |waves| ==> |results| == |waves[decoding.value].chunks|
      modifies this`slots, this`waves, this`decoding, this`committed, this`done
      ensures Valid()
      ensures status == if old(decoding).Some? && decodeDone then FirstBad(results) else OK
      ensures old(decoding).None? || !decodeDone || status != OK ==> unchanged(this)
      ensures old(decoding).Some? && decodeDone && status == OK ==>
                && old(decoding).value < 2 && old(waves)[old(decoding).value].slot < 2
                && View() == Collected(old(View()))
                && WorkLeft(View()) < old(WorkLeft(View()))
    {
      hide SlotsOk, WavesOk, BuffersOk, SlotOrder, BudgetOk;
      if decoding.None? || !decodeDone { return OK; }
      status := CheckResults(results);
      if status == OK { Account(); }
    }

    /** The chunks of the decoded wave are done. */
    method Account()
      requires Valid() && decoding.Some?
      modifies this`slots, this`waves, this`decoding, this`committed, this`done
      ensures Valid()
      ensures old(decoding).value < 2 && old(waves)[old(decoding).value].slot < 2 && View() == Collected(old(View()))
      ensures WorkLeft(View()) < old(WorkLeft(View()))
    {
      hide SlotsOk, WavesOk, BuffersOk, SlotOrder, BudgetOk, Numbered, WorkLeft;
      CollectKeeps(cfg, fixedBytes, View());
      CollectCounts(cfg, View());
      CollectedLowers(cfg, View());
      var w := decoding.value;
      var i := waves[w].slot;
      var s := slots[i];
      done := done[i := done[i] + waves[w].chunks];
      var left: nat := s.remaining - |waves[w].chunks|;
      waves := waves[w := waves[w].(state := InputFree)];
      decoding := None;
      if left == 0 {
        LiveBytes(cfg, fixedBytes, old(View()), i);
        committed := committed - s.plan.bytes;
        slots := slots[i := s.(remaining := 0, state := Finished, plan := NO_PLAN)];
      } else {
        slots := slots[i := s.(remaining := left)];
      }
      FewerNumbered(old(waves), w, nextWave);
    }

    method CheckResults(results: seq<Status>) returns (status: Status)
      ensures status == FirstBad(results)
    {
      for j := 0 to |results|
        invariant FirstBad(results) == FirstBad(results[j..])
      {
        if results[j] != OK { return results[j]; }
        assert results[j..][1..] == results[j + 1..];
      }
      return OK;
    }

    /** Reuses held slots whose batches have all been released. */
    method FreeHeld()
      requires Valid() && !stopped
      modifies this`slots
      ensures Valid()
      ensures forall i | 0 <= i < 2 :: slots[i] == FreedIf(old(slots)[i], old(slots)[i].state.Held? && refs[i] == 1)
    {
      hide SlotsOk, WavesOk, BuffersOk, SlotOrder;
      for i := 0 to 2
        invariant Valid() && !stopped
        invariant forall k | 0 <= k < 2 ::
                    slots[k] == FreedIf(old(slots)[k], k < i && old(slots)[k].state.Held? && refs[k] == 1)
      {
        if slots[i].state.Held? && refs[i] == 1 {
          FreeKeeps(cfg, fixedBytes, View(), i);
          slots := slots[i := slots[i].(state := Free)];
        }
      }
    }

    /** Hands out batches strictly in the order they were submitted. */
    method Take(memory: bool) returns (status: Status, batch: nat)
      requires Valid() && !stopped
      modifies this`slots, this`refs, this`batches, this`taken
      ensures Valid()
      ensures status == OK ==> batch == old(taken) && batch in batches && batches[batch].slot < 2
                               && View() == Taken(old(View()), batches[batch].slot)
      ensures status == OK ==>
                && old(slots)[batches[batch].slot].state.Finished? && old(slots)[batches[batch].slot].batch == batch
                && batch !in old(batches) && batches == old(batches)[batch := Batch(batches[batch].slot, batch, 1)]
      ensures status != OK ==> unchanged(this)
      ensures status == if NextNotReady(old(slots), old(taken)) then AGAIN else if memory then OK else OOM
    {
      hide SlotsOk, WavesOk, BuffersOk, SlotOrder, BudgetOk, NextNotReady;
      batch := 0;
      var oldest := Oldest();
      if oldest.None? {
        NonePending(slots, taken, submitted);
        return AGAIN, batch;
      }
      var i := oldest.value;
      OldestIsNext(slots, taken, submitted, i);
      if !slots[i].state.Finished? { return AGAIN, batch; }
      if !memory { return OOM, batch; }
      batch := slots[i].batch;
      NextNotLive(View());
      HandOut(i);
      return OK, batch;
    }

    method HandOut(i: nat)
      requires Valid() && !stopped && i < 2 && slots[i].state.Finished? && slots[i].batch == taken
      modifies this`slots, this`refs, this`batches, this`taken
      ensures Valid() && View() == Taken(old(View()), i)
    {
      hide SlotsOk, WavesOk, BuffersOk, SlotOrder, BudgetOk;
      TakeKeeps(cfg, fixedBytes, View(), i);
      var batch := slots[i].batch;
      batches := batches[batch := Batch(i, batch, 1)];
      refs := refs[i := refs[i] + 1];
      slots := slots[i := slots[i].(state := Held)];
      taken := taken + 1;
    }

    method Oldest() returns (oldest: Option<nat>)
      requires |slots| == 2
      ensures oldest.Some? ==> oldest.value < 2 && Pending(slots[oldest.value])
                               && (Pending(slots[1 - oldest.value]) ==>
                                   slots[oldest.value].batch <= slots[1 - oldest.value].batch)
      ensures oldest.None? ==> !Pending(slots[0]) && !Pending(slots[1])
    {
      oldest := None;
      for i := 0 to 2
        invariant oldest.Some? ==> oldest.value < i && Pending(slots[oldest.value])
        invariant oldest.Some? ==> forall k | 0 <= k < i && Pending(slots[k]) ::
                    slots[oldest.value].batch <= slots[k].batch
        invariant oldest.None? ==> forall k | 0 <= k < i :: !Pending(slots[k])
      {
        if Pending(slots[i]) && (oldest.None? || slots[i].batch < slots[oldest.value].batch) { oldest := Some(i); }
      }
    }

    method Retain(batch: nat)
      requires Valid() && batch in batches
      modifies this`batches
      ensures Valid() && batches == old(batches)[batch := old(batches)[batch].(refs := old(batches)[batch].refs + 1)]
    {
      ShareKeeps(cfg, fixedBytes, View(), batch);
      batches := batches[batch := batches[batch].(refs := batches[batch].refs + 1)];
    }

    /** Drops a reference; the last one lets the buffer go. This works after a stop as well. */
    method Release(batch: nat)
      requires Valid() && batch in batches
      modifies this`batches, this`refs
      ensures Valid() && (batch !in batches <==> old(batches)[batch].refs == 1)
      ensures View() == Dropped(old(View()), batch)
      ensures batch in batches ==>
                && batches == old(batches)[batch := old(batches)[batch].(refs := old(batches)[batch].refs - 1)]
                && refs == old(refs)
      ensures batch !in batches ==>
                && batches == old(batches) - {batch} && old(batches)[batch].slot < |refs| == |old(refs)|
                && forall i | 0 <= i < |refs| ::
                     old(refs)[i] == if i == old(batches)[batch].slot then refs[i] + 1 else refs[i]
    {
      DropKeeps(cfg, fixedBytes, View(), batch);
      LiveHasRef(View(), batch);
      var b := batches[batch];
      if b.refs > 1 {
        batches := batches[batch := b.(refs := b.refs - 1)];
      } else {
        batches := batches - {batch};
        refs := refs[b.slot := if refs[b.slot] > 0 then refs[b.slot] - 1 else 0];
      }
    }

    method Stop()
      requires Valid() && !stopped
      modifies this
      ensures Valid() && View() == Stopped(old(View())) && !decodeDone
      ensures stopped && decoding.None? && batches == old(batches)
      ensures |refs| == 2 && forall i: nat | i < 2 :: refs[i] == |LiveOf(batches, i)|
    {
      hide SlotsOk, WavesOk, BuffersOk, SlotOrder, BudgetOk, LiveOf;
      StopKeeps(cfg, fixedBytes, View());
      slots, waves := [NO_SLOT, NO_SLOT], [NO_WAVE, NO_WAVE];
      decoding, decodeDone, nextWave, committed, stopped := None, false, 0, 0, true;
      refs := [if refs[0] > 0 then refs[0] - 1 else 0, if refs[1] > 0 then refs[1] - 1 else 0];
      taken := submitted;
    }
  }

  lemma LiveHasRef(e: Exec, b: nat)
    requires Shape(e) && BuffersOk(e) && b in e.batches
    ensures e.batches[b].slot < 2 && e.refs[e.batches[b].slot] > 0
  {
    var i := e.batches[b].slot;
    assert BufferOk(e.slots, e.refs, e.batches, e.stopped, i);
    assert b in LiveOf(e.batches, i);
  }

  lemma NextNotLive(e: Exec)
    requires Shape(e) && BuffersOk(e)
    ensures e.taken !in e.batches
  {
  }

  lemma LiveBytes(cfg: CpuConfig, fixed: nat, e: Exec, i: nat)
    requires ExecOk(cfg, fixed, e) && !e.stopped && i < 2
    ensures e.slots[i].plan.bytes <= e.committed
  {
    hide SlotsOk, WavesOk, BuffersOk, SlotOrder;
  }

  lemma NonePending(slots: seq<Slot>, taken: nat, submitted: nat)
    requires |slots| == 2 && SlotOrder(slots, taken, submitted) && !Pending(slots[0]) && !Pending(slots[1])
    ensures taken == submitted && NextNotReady(slots, taken)
  {
    assert taken < submitted ==> InSlots(slots, taken);
  }
}
