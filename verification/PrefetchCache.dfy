/** The metadata prefetch cache: entries with generations, pins held up to a watermark, and
    gates that count the fetches a sample still waits for. Each step is one critical section. */
module PrefetchCaches {
  import opened Statuses

  datatype Key = MetaKey(uri: string) | ShardKey(uri: string, coordinate: seq<nat>)

  datatype FetchState = Pending | Ready(value: nat) | Failed(code: Status)

  /** `pinned` tells that the cache holds a reference that keeps the entry from eviction. */
  datatype Entry = Entry(key: Key, state: FetchState, minOwner: nat, maxOwner: nat, generation: nat,
                         waiters: seq<nat>, pinned: bool)

  datatype Cache = Cache(active: seq<Option<Entry>>, watermark: nat, generation: nat)

  datatype Handle = Handle(index: nat, generation: nat)

  datatype Gate = Gate(pending: int, error: bool)

  datatype Result = Result(status: Status, handle: Handle)

  const NO_HANDLE := Handle(0, 0)

  function Lookup(c: Cache, h: Handle): Option<Entry> {
    if h.index < |c.active| && c.active[h.index].Some? && c.active[h.index].value.generation == h.generation
    then c.active[h.index] else None
  }

  /** What a query of a handle reports: unresolved handles look pending. */
  function Query(c: Cache, h: Handle): FetchState {
    match Lookup(c, h)
    case Some(e) => e.state
    case None => Pending
  }

  // --- What every step keeps ------------------------------------------------------------------------

  /** Unfinished entries, and entries of samples not yet planned, are pinned; only
      unfinished entries have waiters. */
  ghost predicate EntryOk(e: Entry, watermark: nat, generation: nat) {
    && 0 < e.generation <= generation && e.minOwner <= e.maxOwner
    && (e.state.Pending? || e.maxOwner >= watermark ==> e.pinned)
    && (!e.state.Pending? ==> e.waiters == [])
  }

  ghost predicate Holds(c: Cache, i: nat) {
    i < |c.active| && c.active[i].Some?
  }

  ghost predicate CacheOk(c: Cache) {
    && (forall i: nat | Holds(c, i) :: EntryOk(c.active[i].value, c.watermark, c.generation))
    && (forall i: nat, j: nat | i < j && Holds(c, i) && Holds(c, j) ::
          c.active[i].value.key != c.active[j].value.key
            && c.active[i].value.generation != c.active[j].value.generation)
  }

  ghost predicate HasKey(c: Cache, key: Key, i: nat) {
    Holds(c, i) && c.active[i].value.key == key
  }

  // --- Gates -------------------------------------------------------------------------------------------

  function Bump(gates: seq<Gate>, g: nat, delta: int): (r: seq<Gate>)
    ensures |r| == |gates|
  {
    if g < |gates| then gates[g := gates[g].(pending := gates[g].pending + delta)] else gates
  }

  function Fail(gates: seq<Gate>, g: nat): (r: seq<Gate>)
    ensures |r| == |gates|
  {
    if g < |gates| then gates[g := gates[g].(error := true)] else gates
  }

  /** Lets the waiters go, telling them of an error if there was one. */
  function Release(gates: seq<Gate>, waiters: seq<nat>, errored: bool): (r: seq<Gate>)
    ensures |r| == |gates|
    decreases |waiters|
  {
    if waiters == [] then gates
    else
      var told := if errored then Fail(gates, waiters[0]) else gates;
      Release(Bump(told, waiters[0], -1), waiters[1..], errored)
  }

  ghost function Count(waiters: seq<nat>, g: nat): nat {
    if waiters == [] then 0 else (if waiters[0] == g then 1 else 0) + Count(waiters[1..], g)
  }

  lemma {:induction false} CountAppend(waiters: seq<nat>, more: nat, g: nat)
    ensures Count(waiters + [more], g) == Count(waiters, g) + if more == g then 1 else 0
    decreases |waiters|
  {
    if waiters == [] {
      assert waiters + [more] == [more];
      assert [more][1..] == [];
    } else {
      CountAppend(waiters[1..], more, g);
      assert (waiters + [more])[1..] == waiters[1..] + [more];
    }
  }

  lemma {:induction false} ReleaseCounts(gates: seq<Gate>, waiters: seq<nat>, errored: bool, g: nat)
    requires g < |gates|
    ensures Release(gates, waiters, errored)[g].pending == gates[g].pending - Count(waiters, g)
    decreases |waiters|
  {
    if waiters != [] {
      var told := if errored then Fail(gates, waiters[0]) else gates;
      ReleaseCounts(Bump(told, waiters[0], -1), waiters[1..], errored, g);
    }
  }

  /** Exactly the released waiters learn of an error. */
  lemma {:induction false} ReleaseTells(gates: seq<Gate>, waiters: seq<nat>, errored: bool, g: nat)
    requires g < |gates|
    ensures Release(gates, waiters, errored)[g].error <==> gates[g].error || (errored && g in waiters)
    decreases |waiters|
  {
    if waiters != [] {
      var told := if errored then Fail(gates, waiters[0]) else gates;
      ReleaseTells(Bump(told, waiters[0], -1), waiters[1..], errored, g);
    }
  }

  /** How often gate g waits on entries of the cache. */
  ghost function Registered(active: seq<Option<Entry>>, g: nat): nat {
    if active == [] then 0
    else (if active[0].Some? then Count(active[0].value.waiters, g) else 0) + Registered(active[1..], g)
  }

  ghost function WaitersOf(o: Option<Entry>): seq<nat> {
    if o.Some? then o.value.waiters else []
  }

  lemma {:induction false} RegisteredUpdate(active: seq<Option<Entry>>, i: nat, o: Option<Entry>, g: nat)
    requires i < |active|
    ensures Registered(active[i := o], g)
              == Registered(active, g) - Count(WaitersOf(active[i]), g) + Count(WaitersOf(o), g)
    decreases |active|
  {
    if i > 0 {
      assert active[i := o][1..] == active[1..][i - 1 := o];
      RegisteredUpdate(active[1..], i - 1, o, g);
    } else {
      assert active[0 := o][1..] == active[1..];
    }
  }

  lemma {:induction false} RegisteredSame(a: seq<Option<Entry>>, b: seq<Option<Entry>>, g: nat)
    requires |a| == |b| && forall i | 0 <= i < |a| :: WaitersOf(a[i]) == WaitersOf(b[i])
    ensures Registered(a, g) == Registered(b, g)
    decreases |a|
  {
    if a != [] {
      assert WaitersOf(a[0]) == WaitersOf(b[0]);
      assert forall i | 0 <= i < |a| - 1 :: a[1..][i] == a[i + 1] && b[1..][i] == b[i + 1];
      RegisteredSame(a[1..], b[1..], g);
    }
  }

  lemma {:induction false} RegisteredNone(active: seq<Option<Entry>>, g: nat)
    requires forall i | 0 <= i < |active| :: Count(WaitersOf(active[i]), g) == 0
    ensures Registered(active, g) == 0
    decreases |active|
  {
    if active != [] {
      assert Count(WaitersOf(active[0]), g) == 0;
      assert forall i | 0 <= i < |active| - 1 :: active[1..][i] == active[i + 1];
      RegisteredNone(active[1..], g);
    }
  }

  /** A step moves each gate's count by exactly the registrations it adds or removes. */
  ghost predicate CountsMove(c: Cache, gates: seq<Gate>, c': Cache, gates': seq<Gate>) {
    && |gates'| == |gates|
    && forall g: nat | g < |gates| ::
         gates'[g].pending - gates[g].pending == Registered(c'.active, g) - Registered(c.active, g)
  }

  // --- A request that finds its key --------------------------------------------------------------------

  function Max(a: nat, b: nat): nat { if a > b then a else b }

  function Min(a: nat, b: nat): nat { if a < b then a else b }

  /** `oom` tells that a waiter could not be stored. */
  function HitEntry(e: Entry, watermark: nat, owner: nat, gate: nat, oom: bool): Entry {
    e.(maxOwner := Max(owner, e.maxOwner), minOwner := Min(owner, e.minOwner),
       pinned := e.pinned || owner >= watermark,
       waiters := if e.state.Pending? && !oom then e.waiters + [gate] else e.waiters)
  }

  function Hit(c: Cache, i: nat, owner: nat, gate: nat, oom: bool): Cache
    requires i < |c.active| && c.active[i].Some?
  {
    c.(active := c.active[i := Some(HitEntry(c.active[i].value, c.watermark, owner, gate, oom))])
  }

  function HitGates(e: Entry, gates: seq<Gate>, gate: nat, oom: bool): seq<Gate> {
    match e.state
    case Pending => if oom then gates else Bump(gates, gate, 1)
    case Ready(_) => gates
    case Failed(_) => Fail(gates, gate)
  }

  lemma HitKeeps(c: Cache, i: nat, owner: nat, gate: nat, oom: bool)
    requires CacheOk(c) && Holds(c, i)
    ensures CacheOk(Hit(c, i, owner, gate, oom))
  {
    var c' := Hit(c, i, owner, gate, oom);
    forall j: nat | Holds(c', j) ensures EntryOk(c'.active[j].value, c.watermark, c.generation) {
      assert Holds(c, j);
    }
    forall j: nat, k: nat | j < k && Holds(c', j) && Holds(c', k)
      ensures c'.active[j].value.key != c'.active[k].value.key
      ensures c'.active[j].value.generation != c'.active[k].value.generation
    {
      assert Holds(c, j) && Holds(c, k);
    }
  }

  lemma HitCounts(c: Cache, gates: seq<Gate>, i: nat, owner: nat, gate: nat, oom: bool)
    requires CacheOk(c) && Holds(c, i) && gate < |gates|
    ensures CountsMove(c, gates, Hit(c, i, owner, gate, oom), HitGates(c.active[i].value, gates, gate, oom))
  {
    var e := c.active[i].value;
    var e' := HitEntry(e, c.watermark, owner, gate, oom);
    forall g: nat | g < |gates|
      ensures HitGates(e, gates, gate, oom)[g].pending - gates[g].pending ==
              Registered(Hit(c, i, owner, gate, oom).active, g) - Registered(c.active, g)
    {
      RegisteredUpdate(c.active, i, Some(e'), g);
      CountAppend(e.waiters, gate, g);
    }
  }

  // --- A request that misses ---------------------------------------------------------------------------

  /** The index may evict any unpinned entries. */
  ghost predicate Evictable(c: Cache, victims: set<nat>) {
    forall i | i in victims :: Holds(c, i) && !c.active[i].value.pinned
  }

  ghost function Evict(c: Cache, victims: set<nat>): (r: Cache)
    ensures |r.active| == |c.active|
  {
    c.(active := seq(|c.active|, i requires 0 <= i < |c.active| => if i in victims then None else c.active[i]))
  }

  lemma EvictKeeps(c: Cache, victims: set<nat>)
    requires CacheOk(c)
    ensures CacheOk(Evict(c, victims))
  {
    var c' := Evict(c, victims);
    forall i: nat | Holds(c', i) ensures EntryOk(c'.active[i].value, c.watermark, c.generation) { assert Holds(c, i); }
    forall i: nat, j: nat | i < j && Holds(c', i) && Holds(c', j)
      ensures c'.active[i].value.key != c'.active[j].value.key
      ensures c'.active[i].value.generation != c'.active[j].value.generation
    {
      assert Holds(c, i) && Holds(c, j);
    }
  }

  /** Eviction never strands a waiter. */
  lemma EvictCounts(c: Cache, victims: set<nat>, g: nat)
    requires CacheOk(c) && Evictable(c, victims)
    ensures Registered(Evict(c, victims).active, g) == Registered(c.active, g)
  {
    forall i | 0 <= i < |c.active| ensures WaitersOf(Evict(c, victims).active[i]) == WaitersOf(c.active[i]) {
      if i in victims { assert Holds(c, i); }
    }
    RegisteredSame(Evict(c, victims).active, c.active, g);
  }

  function NewEntry(c: Cache, key: Key, owner: nat, gate: nat): Entry {
    Entry(key, Pending, owner, owner, c.generation + 1, [gate], true)
  }

  /** Inserting may fail even after evicting; the generation is used up either way. */
  ghost function Miss(c: Cache, key: Key, owner: nat, gate: nat, victims: set<nat>, slot: Option<nat>): Cache
    requires slot.Some? ==> slot.value < |c.active|
  {
    var room := Evict(c, victims);
    if slot.None? then room.(generation := c.generation + 1)
    else room.(generation := c.generation + 1,
               active := room.active[slot.value := Some(NewEntry(c, key, owner, gate))])
  }

  ghost predicate MissOk(c: Cache, key: Key, victims: set<nat>, slot: Option<nat>) {
    && Evictable(c, victims) && (forall i: nat :: !HasKey(c, key, i))
    && (slot.Some? ==> slot.value < |c.active| && !Holds(Evict(c, victims), slot.value))
  }

  lemma MissKeeps(c: Cache, key: Key, owner: nat, gate: nat, victims: set<nat>, slot: Option<nat>)
    requires CacheOk(c) && MissOk(c, key, victims, slot)
    ensures CacheOk(Miss(c, key, owner, gate, victims, slot))
  {
    EvictKeeps(c, victims);
    var room, c' := Evict(c, victims), Miss(c, key, owner, gate, victims, slot);
    forall i: nat | Holds(c', i) ensures EntryOk(c'.active[i].value, c'.watermark, c'.generation) {
      if slot != Some(i) { assert Holds(room, i); }
    }
    forall i: nat, j: nat | i < j && Holds(c', i) && Holds(c', j)
      ensures c'.active[i].value.key != c'.active[j].value.key
      ensures c'.active[i].value.generation != c'.active[j].value.generation
    {
      if slot != Some(i) { assert Holds(room, i) && Holds(c, i) && !HasKey(c, key, i); }
      if slot != Some(j) { assert Holds(room, j) && Holds(c, j) && !HasKey(c, key, j); }
    }
  }

  lemma MissCounts(c: Cache, gates: seq<Gate>, key: Key, owner: nat, gate: nat, victims: set<nat>, slot: Option<nat>)
    requires CacheOk(c) && MissOk(c, key, victims, slot) && gate < |gates|
    ensures CountsMove(c, gates, Miss(c, key, owner, gate, victims, slot), if slot.Some? then Bump(gates, gate, 1)
                       else gates)
  {
    var room, c' := Evict(c, victims), Miss(c, key, owner, gate, victims, slot);
    var gates' := if slot.Some? then Bump(gates, gate, 1) else gates;
    forall g: nat | g < |gates|
      ensures gates'[g].pending - gates[g].pending == Registered(c'.active, g) - Registered(c.active, g)
    {
      EvictCounts(c, victims, g);
      if slot.Some? {
        RegisteredUpdate(room.active, slot.value, Some(NewEntry(c, key, owner, gate)), g);
        assert [gate][1..] == [];
      }
    }
  }

  // --- Completion -----------------------------------------------------------------------------------------

  function Complete(c: Cache, h: Handle, outcome: FetchState): (r: Cache)
    ensures |r.active| == |c.active| && r.watermark == c.watermark && r.generation == c.generation
  {
    match Lookup(c, h)
    case Some(e) =>
      if e.state.Pending? then c.(active := c.active[h.index := Some(e.(state := outcome, waiters := []))]) else c
    case None => c
  }

  function CompleteGates(c: Cache, gates: seq<Gate>, h: Handle, outcome: FetchState): (r: seq<Gate>)
    ensures |r| == |gates|
  {
    match Lookup(c, h)
    case Some(e) => if e.state.Pending? then Release(gates, e.waiters, outcome.Failed?) else gates
    case None => gates
  }

  lemma CompleteKeeps(c: Cache, h: Handle, outcome: FetchState)
    requires CacheOk(c) && !outcome.Pending?
    ensures CacheOk(Complete(c, h, outcome))
  {
    var c' := Complete(c, h, outcome);
    forall i: nat | Holds(c', i) ensures EntryOk(c'.active[i].value, c.watermark, c.generation) { assert Holds(c, i); }
    forall i: nat, j: nat | i < j && Holds(c', i) && Holds(c', j)
      ensures c'.active[i].value.key != c'.active[j].value.key
      ensures c'.active[i].value.generation != c'.active[j].value.generation
    {
      assert Holds(c, i) && Holds(c, j);
    }
  }

  lemma CompleteCounts(c: Cache, gates: seq<Gate>, h: Handle, outcome: FetchState)
    requires CacheOk(c)
    ensures CountsMove(c, gates, Complete(c, h, outcome), CompleteGates(c, gates, h, outcome))
  {
    var found := Lookup(c, h);
    if found.Some? && found.value.state.Pending? {
      var e := found.value;
      forall g: nat | g < |gates|
        ensures CompleteGates(c, gates, h, outcome)[g].pending - gates[g].pending ==
                Registered(Complete(c, h, outcome).active, g) - Registered(c.active, g)
      {
        ReleaseCounts(gates, e.waiters, outcome.Failed?, g);
        RegisteredUpdate(c.active, h.index, Some(e.(state := outcome, waiters := [])), g);
      }
    }
  }

  /** A fetch under way ends with the outcome it is given; nothing else changes, and a report that is late or
      repeated changes nothing at all. */
  lemma CompleteReports(c: Cache, h: Handle, outcome: FetchState, g: Handle)
    requires CacheOk(c)
    ensures Lookup(c, h).Some? && Query(c, h).Pending? ==> Query(Complete(c, h, outcome), h) == outcome
    ensures g != h ==> Query(Complete(c, h, outcome), g) == Query(c, g)
    ensures Lookup(c, h).None? || !Query(c, h).Pending? ==> Complete(c, h, outcome) == c
  {
  }

  /** A gate learns of a failed fetch exactly if it was waiting for it. */
  lemma CompleteTells(c: Cache, gates: seq<Gate>, h: Handle, outcome: FetchState, g: nat)
    requires CacheOk(c) && g < |gates|
    ensures CompleteGates(c, gates, h, outcome)[g].error <==>
            gates[g].error || (outcome.Failed? && Lookup(c, h).Some? && Waits(c, h.index, g))
  {
    var found := Lookup(c, h);
    if found.Some? {
      assert Holds(c, h.index);
      if found.value.state.Pending? { ReleaseTells(gates, found.value.waiters, outcome.Failed?, g); }
    }
  }

  // --- The watermark --------------------------------------------------------------------------------------

  function Unpinned(o: Option<Entry>, watermark: nat): Option<Entry> {
    if o.Some? && !o.value.state.Pending? && o.value.maxOwner < watermark then Some(o.value.(pinned := false)) else o
  }

  function Raised(c: Cache, watermark: nat): (r: Cache)
    ensures |r.active| == |c.active|
  {
    if watermark <= c.watermark then c
    else c.(watermark := watermark,
            active := seq(|c.active|, i requires 0 <= i < |c.active| => Unpinned(c.active[i], watermark)))
  }

  lemma RaisedKeeps(c: Cache, watermark: nat)
    requires CacheOk(c)
    ensures CacheOk(Raised(c, watermark))
    ensures forall g :: Registered(Raised(c, watermark).active, g) == Registered(c.active, g)
  {
    var c' := Raised(c, watermark);
    forall i: nat | Holds(c', i)
      ensures EntryOk(c'.active[i].value, c'.watermark, c'.generation)
    {
      assert Holds(c, i);
    }
    forall i: nat, j: nat | i < j && Holds(c', i) && Holds(c', j)
      ensures c'.active[i].value.key != c'.active[j].value.key
      ensures c'.active[i].value.generation != c'.active[j].value.generation
    {
      assert Holds(c, i) && Holds(c, j);
    }
    forall g ensures Registered(c'.active, g) == Registered(c.active, g) { RegisteredSame(c'.active, c.active, g); }
  }

  // --- Steps and runs ----------------------------------------------------------------------------------------

  datatype CacheStep =
    | HitStep(key: Key, index: nat, owner: nat, gate: nat, oom: bool)
    | MissStep(key: Key, owner: nat, gate: nat, victims: set<nat>, slot: Option<nat>)
    | CompleteStep(handle: Handle, outcome: FetchState)
    | AdvanceStep(watermark: nat)

  ghost predicate StepOk(c: Cache, step: CacheStep) {
    match step
    case HitStep(key, i, _, _, _) => HasKey(c, key, i)
    case MissStep(key, _, _, victims, slot) => MissOk(c, key, victims, slot)
    case CompleteStep(_, outcome) => !outcome.Pending?
    case AdvanceStep(_) => true
  }

  ghost function Apply(c: Cache, step: CacheStep): Cache
    requires StepOk(c, step)
  {
    match step
    case HitStep(_, i, owner, gate, oom) => Hit(c, i, owner, gate, oom)
    case MissStep(key, owner, gate, victims, slot) => Miss(c, key, owner, gate, victims, slot)
    case CompleteStep(h, outcome) => Complete(c, h, outcome)
    case AdvanceStep(w) => Raised(c, w)
  }

  lemma StepKeeps(c: Cache, step: CacheStep)
    requires CacheOk(c) && StepOk(c, step)
    ensures CacheOk(Apply(c, step))
  {
    match step
    case HitStep(_, i, owner, gate, oom) => HitKeeps(c, i, owner, gate, oom);
    case MissStep(key, owner, gate, victims, slot) => MissKeeps(c, key, owner, gate, victims, slot);
    case CompleteStep(h, outcome) => CompleteKeeps(c, h, outcome);
    case AdvanceStep(w) => RaisedKeeps(c, w);
  }

  /** A handle of `key` whose entry an owner at or above the watermark has asked for. */
  ghost predicate Secured(c: Cache, h: Handle, key: Key, owner: nat) {
    && Lookup(c, h).Some?
    && Lookup(c, h).value.key == key && Lookup(c, h).value.minOwner <= owner <= Lookup(c, h).value.maxOwner
  }

  /** A finished fetch never changes again. */
  ghost predicate Settled(before: FetchState, after: FetchState) {
    !before.Pending? ==> after == before
  }

  /** While the watermark is not above an owner, the owner's handles stay resolvable, to the
      same key, and what has been fetched stays as it is. */
  lemma StepKeepsSecured(c: Cache, step: CacheStep, h: Handle, key: Key, owner: nat)
    requires CacheOk(c) && StepOk(c, step) && Secured(c, h, key, owner) && c.watermark <= owner
    ensures Secured(Apply(c, step), h, key, owner)
    ensures Settled(Query(c, h), Query(Apply(c, step), h))
  {
    assert Holds(c, h.index);
    match step {
      case HitStep(_, i, o, gate, oom) => assert Holds(c, i);
      case MissStep(k, o, gate, victims, slot) =>
        assert h.index !in victims;
        assert Holds(Evict(c, victims), h.index);
      case CompleteStep(g, outcome) =>
      case AdvanceStep(w) =>
    }
  }

  /** A step leaves an unfinished fetch unfinished unless it delivers its outcome, and a finished one as it is for
      as long as the handle resolves. */
  lemma StepReports(c: Cache, step: CacheStep, h: Handle)
    requires CacheOk(c) && StepOk(c, step) && Lookup(c, h).Some?
    ensures Query(c, h).Pending? ==>
              && Lookup(Apply(c, step), h).Some?
              && Query(Apply(c, step), h) == if step.CompleteStep? && step.handle == h then step.outcome else Pending
    ensures !Query(c, h).Pending? && Lookup(Apply(c, step), h).Some? ==> Query(Apply(c, step), h) == Query(c, h)
  {
    assert Holds(c, h.index);
    match step {
      case HitStep(_, i, o, gate, oom) => assert Holds(c, i);
      case MissStep(k, o, gate, victims, slot) => assert Holds(Evict(c, victims), h.index) <==> h.index !in victims;
      case CompleteStep(g, outcome) =>
      case AdvanceStep(w) =>
    }
  }

  /** A handle that does not resolve either never does or is issued by the step, for a fetch just begun. */
  lemma StepIssues(c: Cache, step: CacheStep, h: Handle)
    requires CacheOk(c) && StepOk(c, step) && Lookup(c, h).None?
    ensures Lookup(Apply(c, step), h).Some? ==> h.generation > c.generation && Query(Apply(c, step), h).Pending?
  {
    match step {
      case HitStep(_, i, o, gate, oom) =>
      case MissStep(k, o, gate, victims, slot) =>
      case CompleteStep(g, outcome) =>
      case AdvanceStep(w) =>
    }
  }

  /** Any sequence of steps that are each allowed. */
  ghost predicate RunOk(c: Cache, run: seq<CacheStep>)
    decreases |run|
  {
    run == [] || (StepOk(c, run[0]) && RunOk(Apply(c, run[0]), run[1..]))
  }

  ghost function After(c: Cache, run: seq<CacheStep>): Cache
    requires RunOk(c, run)
    decreases |run|
  {
    if run == [] then c else After(Apply(c, run[0]), run[1..])
  }

  /** The outcome that the run delivers for the fetch of a handle: that of the first completion that meets it. */
  ghost function Told(c: Cache, run: seq<CacheStep>, h: Handle): Option<FetchState>
    requires RunOk(c, run)
    decreases |run|
  {
    if run == [] then None
    else if run[0].CompleteStep? && run[0].handle == h && Lookup(c, h).Some? && Query(c, h).Pending?
    then Some(run[0].outcome)
    else Told(Apply(c, run[0]), run[1..], h)
  }

  ghost function OrPending(o: Option<FetchState>): FetchState {
    if o.Some? then o.value else Pending
  }

  /** Once settled, a handle reports the same for as long as it resolves, over any run. */
  lemma {:induction false} RunSettled(c: Cache, run: seq<CacheStep>, h: Handle, state: FetchState)
    requires CacheOk(c) && RunOk(c, run) && h.generation <= c.generation && !state.Pending?
    requires Lookup(c, h).Some? ==> Query(c, h) == state
    ensures Lookup(After(c, run), h).Some? ==> Query(After(c, run), h) == state
    decreases |run|
  {
    hide CacheOk, StepOk, Apply, Lookup, Query;
    if run != [] {
      StepKeeps(c, run[0]);
      if Lookup(c, h).Some? { StepReports(c, run[0], h); } else { StepIssues(c, run[0], h); }
      GenerationRises(c, run[0]);
      RunSettled(Apply(c, run[0]), run[1..], h, state);
    }
  }

  lemma GenerationRises(c: Cache, step: CacheStep)
    requires StepOk(c, step)
    ensures c.generation <= Apply(c, step).generation
  {
  }

  lemma ResolvedBelow(c: Cache, h: Handle)
    requires CacheOk(c) && Lookup(c, h).Some?
    ensures h.generation <= c.generation
  {
    assert Holds(c, h.index);
  }

  /** Over any run, whatever is evicted and reused, what a handle reports is exactly the outcome that was delivered
      for its own fetch, and until then that the fetch is under way. */
  lemma {:induction false} RunReports(c: Cache, run: seq<CacheStep>, h: Handle)
    requires CacheOk(c) && RunOk(c, run) && Query(c, h).Pending?
    ensures Lookup(After(c, run), h).Some? ==> Query(After(c, run), h) == OrPending(Told(c, run, h))
    decreases |run|
  {
    hide CacheOk, StepOk, Apply, Lookup, Query;
    if run != [] {
      StepKeeps(c, run[0]);
      if Lookup(c, h).Some? { StepReports(c, run[0], h); } else { StepIssues(c, run[0], h); }
      if run[0].CompleteStep? && run[0].handle == h && Lookup(c, h).Some? {
        ResolvedBelow(c, h);
        GenerationRises(c, run[0]);
        NotPending(c, run[0]);
        RunSettled(Apply(c, run[0]), run[1..], h, run[0].outcome);
      } else {
        Unresolved(Apply(c, run[0]), h);
        RunReports(Apply(c, run[0]), run[1..], h);
      }
    }
  }

  lemma NotPending(c: Cache, step: CacheStep)
    requires StepOk(c, step) && step.CompleteStep?
    ensures !step.outcome.Pending?
  {
  }

  /** A handle that does not resolve looks like a fetch under way. */
  lemma Unresolved(c: Cache, h: Handle)
    ensures Lookup(c, h).None? ==> Query(c, h).Pending?
  {
  }

  /** No step of the run raises the watermark above `owner`. */
  ghost predicate WatermarkAtMost(c: Cache, run: seq<CacheStep>, owner: nat)
    requires RunOk(c, run)
    decreases |run|
  {
    c.watermark <= owner && (run == [] || WatermarkAtMost(Apply(c, run[0]), run[1..], owner))
  }

  /** Pin safety over whole runs. */
  lemma {:induction false} RunKeepsSecured(c: Cache, run: seq<CacheStep>, h: Handle, key: Key, owner: nat)
    requires CacheOk(c) && RunOk(c, run) && WatermarkAtMost(c, run, owner) && Secured(c, h, key, owner)
    ensures CacheOk(After(c, run)) && Secured(After(c, run), h, key, owner)
    ensures Settled(Query(c, h), Query(After(c, run), h))
    decreases |run|
  {
    if run != [] {
      StepKeeps(c, run[0]);
      StepKeepsSecured(c, run[0], h, key, owner);
      RunKeepsSecured(Apply(c, run[0]), run[1..], h, key, owner);
    }
  }

  /** Generation g was given to `key` at index i, and i never shows g again under another key. */
  ghost predicate Issued(c: Cache, h: Handle, key: Key) {
    h.generation <= c.generation && (Lookup(c, h).Some? ==> Lookup(c, h).value.key == key)
  }

  lemma StepKeepsIssued(c: Cache, step: CacheStep, h: Handle, key: Key)
    requires CacheOk(c) && StepOk(c, step) && Issued(c, h, key)
    ensures Issued(Apply(c, step), h, key)
  {
    match step {
      case HitStep(_, i, o, gate, oom) =>
      case MissStep(k, o, gate, victims, slot) =>
      case CompleteStep(g, outcome) =>
      case AdvanceStep(w) =>
    }
  }

  /** However often a slot is evicted and reused, a handle resolves to the key it was issued
      for or not at all. */
  lemma {:induction false} RunKeepsIssued(c: Cache, run: seq<CacheStep>, h: Handle, key: Key)
    requires CacheOk(c) && RunOk(c, run) && Issued(c, h, key)
    ensures Issued(After(c, run), h, key)
    decreases |run|
  {
    if run != [] {
      StepKeeps(c, run[0]);
      StepKeepsIssued(c, run[0], h, key);
      RunKeepsIssued(Apply(c, run[0]), run[1..], h, key);
    }
  }

  /** The handle a successful request returns is issued for its key and secured for its owner. */
  lemma RequestSecures(c: Cache, step: CacheStep, h: Handle)
    requires CacheOk(c) && StepOk(c, step) && (step.HitStep? || (step.MissStep? && step.slot.Some?))
    requires h == if step.HitStep? then Handle(step.index, c.active[step.index].value.generation)
                  else Handle(step.slot.value, c.generation + 1)
    ensures Secured(Apply(c, step), h, step.key, step.owner) && Issued(Apply(c, step), h, step.key)
  {
    if step.HitStep? { assert Holds(c, step.index); }
  }

  // --- A whole request -----------------------------------------------------------------------------------------

  /** The steps a request for `key` may take; none if memory runs out first. */
  ghost predicate AskOk(c: Cache, ask: Option<CacheStep>, key: Key, owner: nat, gate: nat) {
    ask.Some? ==>
      && (ask.value.HitStep? || ask.value.MissStep?) && StepOk(c, ask.value)
      && ask.value.key == key && ask.value.owner == owner && ask.value.gate == gate
  }

  ghost function AskCache(c: Cache, ask: Option<CacheStep>): Cache
    requires ask.Some? ==> StepOk(c, ask.value)
  {
    if ask.None? then c else Apply(c, ask.value)
  }

  ghost function AskGates(c: Cache, gates: seq<Gate>, ask: Option<CacheStep>): (r: seq<Gate>)
    requires ask.Some? ==> StepOk(c, ask.value)
    ensures |r| == |gates|
  {
    match ask
    case None => gates
    case Some(HitStep(_, i, _, gate, oom)) => HitGates(c.active[i].value, gates, gate, oom)
    case Some(MissStep(_, _, gate, _, slot)) => if slot.Some? then Bump(gates, gate, 1) else gates
    case _ => gates
  }

  ghost function AskResult(c: Cache, ask: Option<CacheStep>): Result
    requires ask.Some? ==> StepOk(c, ask.value)
  {
    match ask
    case None => Result(OOM, NO_HANDLE)
    case Some(HitStep(_, i, _, _, oom)) =>
      var e := c.active[i].value;
      if e.state.Pending? && oom then Result(OOM, NO_HANDLE) else Result(OK, Handle(i, e.generation))
    case Some(MissStep(_, _, _, _, slot)) =>
      if slot.None? then Result(AGAIN, NO_HANDLE) else Result(OK, Handle(slot.value, c.generation + 1))
    case _ => Result(INVAL, NO_HANDLE)
  }

  lemma AskKeeps(c: Cache, gates: seq<Gate>, ask: Option<CacheStep>, key: Key, owner: nat, gate: nat)
    requires CacheOk(c) && AskOk(c, ask, key, owner, gate) && gate < |gates|
    ensures CacheOk(AskCache(c, ask)) && AskCache(c, ask).watermark == c.watermark
    ensures CountsMove(c, gates, AskCache(c, ask), AskGates(c, gates, ask))
    ensures AskResult(c, ask).status == OK ==> Secured(AskCache(c, ask), AskResult(c, ask).handle, key, owner)
    ensures AskResult(c, ask).status in {OK, AGAIN, OOM}
  {
    if ask.Some? {
      StepKeeps(c, ask.value);
      match ask.value
      case HitStep(_, i, _, _, oom) =>
        HitCounts(c, gates, i, owner, gate, oom);
        RequestSecures(c, ask.value, Handle(i, c.active[i].value.generation));
      case MissStep(_, _, _, victims, slot) =>
        MissCounts(c, gates, key, owner, gate, victims, slot);
        if slot.Some? { RequestSecures(c, ask.value, Handle(slot.value, c.generation + 1)); }
    }
  }

  ghost predicate Waits(c: Cache, i: nat, g: nat) {
    Holds(c, i) && g in c.active[i].value.waiters
  }

  /** The only new registration is the request's own, at the handle it returns. */
  lemma AskWaits(c: Cache, ask: Option<CacheStep>, key: Key, owner: nat, gate: nat, i: nat, g: nat)
    requires CacheOk(c) && AskOk(c, ask, key, owner, gate) && Waits(AskCache(c, ask), i, g)
    ensures Waits(c, i, g) || (g == gate && AskResult(c, ask).status == OK && AskResult(c, ask).handle.index == i)
  {
  }

  lemma CompleteWaits(c: Cache, h: Handle, outcome: FetchState, i: nat, g: nat)
    requires Waits(Complete(c, h, outcome), i, g)
    ensures Waits(c, i, g)
  {
  }

  lemma RaisedWaits(c: Cache, watermark: nat, i: nat, g: nat)
    requires Waits(Raised(c, watermark), i, g)
    ensures Waits(c, i, g)
  {
  }

  lemma {:induction false} CountZero(waiters: seq<nat>, g: nat)
    ensures Count(waiters, g) == 0 <==> g !in waiters
    decreases |waiters|
  {
    if waiters != [] { CountZero(waiters[1..], g); }
  }

  lemma NoneRegistered(c: Cache, g: nat)
    requires forall i: nat :: !Waits(c, i, g)
    ensures Registered(c.active, g) == 0
  {
    forall i | 0 <= i < |c.active| ensures Count(WaitersOf(c.active[i]), g) == 0 {
      assert !Waits(c, i, g);
      CountZero(WaitersOf(c.active[i]), g);
    }
    RegisteredNone(c.active, g);
  }

  lemma {:induction false} RegisteredZero(active: seq<Option<Entry>>, g: nat, i: nat)
    requires Registered(active, g) == 0 && i < |active|
    ensures g !in WaitersOf(active[i])
    decreases |active|
  {
    if i == 0 { CountZero(WaitersOf(active[0]), g); } else { RegisteredZero(active[1..], g, i - 1); }
  }

  lemma NoneWaits(c: Cache, g: nat, i: nat)
    requires Registered(c.active, g) == 0
    ensures !Waits(c, i, g)
  {
    if i < |c.active| { RegisteredZero(c.active, g, i); }
  }

  // --- The cache object ----------------------------------------------------------------------------------------

  class GateTable {
    var gates: seq<Gate>

    constructor (n: nat)
      ensures gates == seq(n, _ => Gate(0, false))
    {
      gates := seq(n, _ => Gate(0, false));
    }
  }

  /** The free list names each free index once. */
  ghost predicate FreeListOk(active: seq<Option<Entry>>, free: seq<nat>) {
    && (forall k | 0 <= k < |free| :: free[k] < |active| && active[free[k]].None?)
    && (forall i: nat | i < |active| && active[i].None? :: i in free)
    && (forall a, b | 0 <= a < b < |free| :: free[a] != free[b])
  }

  class PrefetchCache {
    var active: seq<Option<Entry>>
    var free: seq<nat>
    var watermark: nat
    var generation: nat

    ghost function View(): Cache
      reads this
    {
      Cache(active, watermark, generation)
    }

    ghost predicate Valid()
      reads this
    {
      CacheOk(View()) && FreeListOk(active, free)
    }

    constructor (capacity: nat)
      requires capacity > 0
      ensures Valid() && View() == Cache(seq(capacity, _ => None), 0, 0)
    {
      active := seq(capacity, _ => None);
      free := seq(capacity, i requires 0 <= i < capacity => capacity - 1 - i);
      watermark, generation := 0, 0;
      new;
      forall i: nat | i < capacity ensures i in free { assert free[capacity - 1 - i] == i; }
    }

    /** Looks a key up in the index. */
    method Find(key: Key) returns (found: Option<nat>)
      ensures found.Some? ==> HasKey(View(), key, found.value)
      ensures found.None? ==> forall i: nat :: !HasKey(View(), key, i)
    {
      found := None;
      for i := 0 to |active|
        invariant forall k: nat | k < i :: !HasKey(View(), key, k)
      {
        if active[i].Some? && active[i].value.key == key { return Some(i); }
      }
    }

    /** The index drops one unpinned entry and its slot becomes free. */
    method EvictOne(i: nat)
      requires Valid() && Holds(View(), i)
      modifies this`active, this`free
      ensures Valid() && View() == Evict(old(View()), {i}) && |free| == old(|free|) + 1
    {
      EvictKeeps(View(), {i});
      active := active[i := None];
      free := free + [i];
      assert View() == Evict(old(View()), {i});
      forall k: nat | k < |active| && active[k].None? ensures k in free {
        if k == i { assert free[|free| - 1] == k; } else { assert k in old(free); }
      }
    }

    method EvictAll(victims: seq<nat>)
      requires Valid() && (forall k | 0 <= k < |victims| :: Holds(View(), victims[k]))
      requires forall a, b | 0 <= a < b < |victims| :: victims[a] != victims[b]
      modifies this`active, this`free
      ensures Valid() && View() == Evict(old(View()), VictimSet(victims)) && |free| == old(|free|) + |victims|
    {
      ghost var c := View();
      NoVictims(c);
      for n := 0 to |victims|
        invariant Valid() && View() == Evict(c, VictimSet(victims[..n])) && |free| == old(|free|) + n
      {
        assert Holds(c, victims[n]) && victims[n] !in victims[..n];
        assert Holds(View(), victims[n]);
        EvictOne(victims[n]);
        MoreVictims(c, victims, n);
      }
      assert victims[..|victims|] == victims;
    }

    /** A request under the cache lock. The index decides which unpinned entries to evict
        and whether the insertion succeeds; memory may run out. */
    method Request(key: Key, owner: nat, gate: nat, table: GateTable, oom: bool, victims: seq<nat>, inserted: bool)
      returns (r: Result, ghost step: Option<CacheStep>)
      requires Valid() && gate < |table.gates|
      requires forall k | 0 <= k < |victims| :: Holds(View(), victims[k]) && !active[victims[k]].value.pinned
      requires forall a, b | 0 <= a < b < |victims| :: victims[a] != victims[b]
      requires inserted ==> |free| + |victims| > 0
      modifies this, table
      ensures Valid() && |table.gates| == old(|table.gates|)
      ensures CountsMove(old(View()), old(table.gates), View(), table.gates)
      ensures step.None? ==> View() == old(View()) && r.status == OOM
      ensures step.Some? ==> StepOk(old(View()), step.value) && View() == Apply(old(View()), step.value)
      ensures AskOk(old(View()), step, key, owner, gate)
      ensures table.gates == AskGates(old(View()), old(table.gates), step) && r == AskResult(old(View()), step)
      ensures r.status == OK ==> Secured(View(), r.handle, key, owner) && Issued(View(), r.handle, key)
      ensures r.status == OK <==>
                || (exists i: nat :: HasKey(old(View()), key, i) && !(oom && old(active)[i].value.state.Pending?))
                || ((forall i: nat :: !HasKey(old(View()), key, i)) && !oom && inserted)
      ensures r.status == AGAIN <==> (forall i: nat :: !HasKey(old(View()), key, i)) && !oom && !inserted
      ensures r.status in {OK, AGAIN, OOM}
    {
      ghost var c, gates := View(), table.gates;
      var hit := Find(key);
      if hit.Some? {
        var i := hit.value;
        step := Some(HitStep(key, i, owner, gate, oom));
        HitKeeps(c, i, owner, gate, oom);
        HitCounts(c, gates, i, owner, gate, oom);
        RequestSecures(c, step.value, Handle(i, active[i].value.generation));
        var e := active[i].value;
        table.gates := HitGates(e, table.gates, gate, oom);
        active := active[i := Some(HitEntry(e, watermark, owner, gate, oom))];
        if e.state.Pending? && oom { return Result(OOM, NO_HANDLE), step; }
        return Result(OK, Handle(i, e.generation)), step;
      }
      if oom {
        return Result(OOM, NO_HANDLE), None;
      }
      r, step := Insert(key, owner, gate, table, victims, inserted);
    }

    method Insert(key: Key, owner: nat, gate: nat, table: GateTable, victims: seq<nat>, inserted: bool)
      returns (r: Result, ghost step: Option<CacheStep>)
      requires Valid() && gate < |table.gates| && forall i: nat :: !HasKey(View(), key, i)
      requires forall k | 0 <= k < |victims| :: Holds(View(), victims[k]) && !active[victims[k]].value.pinned
      requires forall a, b | 0 <= a < b < |victims| :: victims[a] != victims[b]
      requires inserted ==> |free| + |victims| > 0
      modifies this, table
      ensures Valid() && |table.gates| == old(|table.gates|)
      ensures CountsMove(old(View()), old(table.gates), View(), table.gates)
      ensures step.Some? && step.value.MissStep? && AskOk(old(View()), step, key, owner, gate)
      ensures View() == Apply(old(View()), step.value) && r.status == (if inserted then OK else AGAIN)
      ensures table.gates == AskGates(old(View()), old(table.gates), step) && r == AskResult(old(View()), step)
      ensures r.status == OK ==> Secured(View(), r.handle, key, owner) && Issued(View(), r.handle, key)
    {
      hide CacheOk, Secured, Issued, CountsMove;
      ghost var c, gates := View(), table.gates;
      ghost var gone := VictimSet(victims);
      EvictAll(victims);
      generation := generation + 1;
      var slot: Option<nat> := if inserted then Some(free[|free| - 1]) else None;
      step := Some(MissStep(key, owner, gate, gone, slot));
      MissKeeps(c, key, owner, gate, gone, slot);
      MissCounts(c, gates, key, owner, gate, gone, slot);
      if !inserted { return Result(AGAIN, NO_HANDLE), step; }
      RequestSecures(c, step.value, Handle(slot.value, generation));
      TakeFree(active, free, NewEntry(c, key, owner, gate));
      free := free[..|free| - 1];
      active := active[slot.value := Some(Entry(key, Pending, owner, owner, generation, [gate], true))];
      table.gates := Bump(table.gates, gate, 1);
      return Result(OK, Handle(slot.value, generation)), step;
    }

    /** A fetch reports its outcome. Late or repeated reports change nothing. */
    method CompleteFetch(h: Handle, outcome: FetchState, table: GateTable)
      requires Valid() && !outcome.Pending?
      modifies this`active, table
      ensures Valid() && View() == Complete(old(View()), h, outcome) && |table.gates| == old(|table.gates|)
      ensures CountsMove(old(View()), old(table.gates), View(), table.gates)
      ensures Query(View(), h) == if old(Lookup(View(), h)).Some? && old(Query(View(), h)).Pending? then outcome
                                  else old(Query(View(), h))
      ensures forall g: nat | g < |table.gates| ::
                table.gates[g].error <==>
                || old(table.gates)[g].error
                || (outcome.Failed? && old(Lookup(View(), h).Some? && Waits(View(), h.index, g)))
    {
      CompleteKeeps(View(), h, outcome);
      CompleteReports(View(), h, outcome, h);
      forall g: nat | g < |table.gates| { CompleteTells(View(), table.gates, h, outcome, g); }
      CompleteCounts(View(), table.gates, h, outcome);
      if h.index >= |active| || active[h.index].None? || active[h.index].value.generation != h.generation { return; }
      var e := active[h.index].value;
      if !e.state.Pending? { return; }
      active := active[h.index := Some(e.(state := outcome, waiters := []))];
      table.gates := Release(table.gates, e.waiters, outcome.Failed?);
    }

    /** Lets go of entries no unplanned sample needs. */
    method AdvanceWatermark(upto: nat)
      requires Valid()
      modifies this`active, this`watermark
      ensures Valid() && View() == Raised(old(View()), upto)
    {
      hide CacheOk;
      RaisedKeeps(View(), upto);
      if upto <= watermark { return; }
      watermark := upto;
      ghost var was := active;
      for i := 0 to |active|
        invariant |active| == |was| && watermark == upto
        invariant forall k | 0 <= k < i :: active[k] == Unpinned(was[k], upto)
        invariant forall k | i <= k < |active| :: active[k] == was[k]
      {
        if active[i].Some? && !active[i].value.state.Pending? && active[i].value.maxOwner < upto
            && active[i].value.pinned {
          active := active[i := Some(active[i].value.(pinned := false))];
        }
      }
      assert active == Raised(old(View()), upto).active;
    }
  }

  ghost function VictimSet(victims: seq<nat>): set<nat> {
    set v | v in victims
  }

  lemma NoVictims(c: Cache)
    ensures Evict(c, VictimSet([])) == c
  {
    assert Evict(c, VictimSet([])).active == c.active;
  }

  lemma MoreVictims(c: Cache, victims: seq<nat>, n: nat)
    requires n < |victims|
    ensures Evict(Evict(c, VictimSet(victims[..n])), {victims[n]}) == Evict(c, VictimSet(victims[..n + 1]))
  {
    var a, b := Evict(Evict(c, VictimSet(victims[..n])), {victims[n]}), Evict(c, VictimSet(victims[..n + 1]));
    assert victims[..n + 1] == victims[..n] + [victims[n]];
    assert a.active == b.active;
  }

  lemma TakeFree(active: seq<Option<Entry>>, free: seq<nat>, e: Entry)
    requires FreeListOk(active, free) && free != []
    ensures FreeListOk(active[free[|free| - 1] := Some(e)], free[..|free| - 1])
  {
    var last := |free| - 1;
    var after := active[free[last] := Some(e)];
    forall i: nat | i < |after| && after[i].None? ensures i in free[..last] {
      assert i in free;
      var k :| 0 <= k < |free| && free[k] == i;
      assert free[..last][k] == i;
    }
  }
}
