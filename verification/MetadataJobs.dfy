/** Asynchronous metadata requests on a submission ring: every request is a small machine
    driven by completions in any order. */
module MetadataJobs {
  import opened Statuses

  datatype Kind = ReadFile | ReadRange | StatOnly

  datatype Op = Statx | Open | Read | Close

  /** What the callback is told: a status and a length. */
  datatype Report = Report(status: Status, len: nat)

  /** `flight` are the operations the kernel still holds. `callbacks`, `opens` and `closes`
      count what has happened to the outside, and `report` is what the callback was told. */
  datatype Job = Job(kind: Kind, requested: nat, started: bool, flight: set<Op>, fd: Option<nat>,
                     openDone: bool, statDone: bool, closing: bool, status: Status, len: nat, bytesRead: nat,
                     callbacks: nat, opens: nat, closes: nat, freed: bool, report: Option<Report>)

  /** What an operation returned. */
  datatype Outcome = Good(value: nat) | Bad(code: Status)

  /** Whether an allocation and the next submissions will succeed. */
  datatype Luck = Luck(memory: bool, readSlot: bool, closeSlot: bool)

  function NewJob(kind: Kind, requested: nat): Job {
    Job(kind, requested, false, {}, None, false, false, false, OK, 0, 0, 0, 0, 0, false, None)
  }

  // --- Helpers of the handlers ------------------------------------------------------------------------

  /** Reports to the caller and frees the job, closing a descriptor it still has. */
  function CompleteJob(j: Job): (r: Job)
    ensures r.kind == j.kind && r.requested == j.requested
  {
    j.(callbacks := j.callbacks + 1, closes := j.closes + (if j.fd.Some? then 1 else 0), fd := None, freed := true,
       report := Some(Report(j.status, j.len)))
  }

  /** Queues the close; if that is impossible the job ends here. */
  function FinishJob(j: Job, closeSlot: bool): (r: Job)
    ensures r.kind == j.kind && r.requested == j.requested
  {
    if j.fd.None? || j.closing then j
    else if closeSlot then j.(closing := true, flight := j.flight + {Close})
    else CompleteJob(j)
  }

  function BeginRead(j: Job, allocate: bool, luck: Luck): (r: Job)
    ensures r.kind == j.kind && r.requested == j.requested
  {
    if j.len == 0 then FinishJob(j, luck.closeSlot)
    else if (allocate && !luck.memory) || !luck.readSlot then FinishJob(j.(status := OOM), luck.closeSlot)
    else j.(flight := j.flight + {Read})
  }

  // --- Start and completions ------------------------------------------------------------------------------

  function FailBeforeSubmit(j: Job, code: Status): (r: Job)
    ensures r.kind == j.kind && r.requested == j.requested
  {
    CompleteJob(j.(started := true, status := code, len := 0))
  }

  /** Taking a submission entry: `space` are free, and submitting frees `submitted` of them or fails. */
  function GetEntry(space: nat, submitted: Option<nat>): (bool, nat) {
    if space > 0 then (true, space - 1)
    else if submitted.Some? && submitted.value > 0 then (true, submitted.value - 1)
    else (false, 0)
  }

  function EnsureSpace(space: nat, submitted: Option<nat>, n: nat): (bool, nat) {
    if space >= n then (true, space)
    else if submitted.Some? && submitted.value >= n then (true, submitted.value)
    else (false, space)
  }

  function StartJob(j: Job, space: nat, submitted: Option<nat>, memory: bool): Job {
    match j.kind
    case StatOnly =>
      if GetEntry(space, submitted).0 then j.(started := true, flight := {Statx}) else FailBeforeSubmit(j, OOM)
    case ReadFile =>
      var ensured := EnsureSpace(space, submitted, 2);
      if !ensured.0 then FailBeforeSubmit(j, IO)
      else
        var first := GetEntry(ensured.1, submitted);
        if !first.0 then FailBeforeSubmit(j, OOM)
        else if !GetEntry(first.1, submitted).0 then FailBeforeSubmit(j.(flight := {Statx}), OOM)
        else j.(started := true, flight := {Statx, Open})
    case ReadRange =>
      var k := j.(len := j.requested);
      if j.requested > 0 && !memory then FailBeforeSubmit(k, OOM)
      else if GetEntry(space, submitted).0 then k.(started := true, flight := {Open})
      else FailBeforeSubmit(k, OOM)
  }

  function StatxDone(j: Job, outcome: Outcome, luck: Luck): (r: Job)
    ensures r.kind == j.kind && r.requested == j.requested
  {
    var k := j.(flight := j.flight - {Statx}, statDone := true);
    match outcome
    case Bad(code) =>
      if k.kind.StatOnly? then CompleteJob(k.(status := code)) else AfterStatError(k.(status := code), luck)
    case Good(size) =>
      if k.kind.StatOnly? then CompleteJob(k.(len := size))
      else if size > k.requested || size > U32_MAX then AfterStatError(k.(status := BUDGET), luck)
      else
        var sized := k.(len := size);
        if sized.openDone && sized.fd.None? then CompleteJob(sized)
        else if sized.openDone then BeginRead(sized, true, luck)
        else sized
  }

  function AfterStatError(j: Job, luck: Luck): (r: Job)
    ensures r.kind == j.kind && r.requested == j.requested
  {
    if !j.openDone then j else if j.fd.Some? then FinishJob(j, luck.closeSlot) else CompleteJob(j)
  }

  function OpenDone(j: Job, outcome: Outcome, luck: Luck): (r: Job)
    ensures r.kind == j.kind && r.requested == j.requested
  {
    var k := j.(flight := j.flight - {Open}, openDone := true);
    match outcome
    case Bad(code) =>
      var failed := k.(status := code);
      if k.kind.ReadRange? || k.statDone then CompleteJob(failed) else failed
    case Good(fd) =>
      var open := k.(fd := Some(fd), opens := k.opens + 1);
      if open.kind.ReadRange? then BeginRead(open, false, luck)
      else if !open.statDone then open
      else if open.status != OK then FinishJob(open, luck.closeSlot)
      else BeginRead(open, true, luck)
  }

  function ReadDone(j: Job, outcome: Outcome, luck: Luck): (r: Job)
    ensures r.kind == j.kind && r.requested == j.requested
  {
    var k := j.(flight := j.flight - {Read});
    var done := match outcome
      case Bad(code) => k.(len := 0, status := code)
      case Good(n) => if n != k.len then k.(len := 0, status := IO) else k.(bytesRead := n);
    FinishJob(done, luck.closeSlot)
  }

  /** The kernel has released the descriptor. */
  function CloseDone(j: Job): (r: Job)
    ensures r.kind == j.kind && r.requested == j.requested
  {
    CompleteJob(j.(flight := j.flight - {Close}, fd := None, closes := j.closes + 1))
  }

  function OnCompletion(j: Job, op: Op, outcome: Outcome, luck: Luck): (r: Job)
    ensures r.kind == j.kind && r.requested == j.requested
  {
    match op
    case Statx => StatxDone(j, outcome, luck)
    case Open => OpenDone(j, outcome, luck)
    case Read => ReadDone(j, outcome, luck)
    case Close => CloseDone(j)
  }

  // --- What every job keeps -----------------------------------------------------------------------------------

  /** Freed jobs have called back once, have nothing in flight and have closed what they opened. */
  ghost predicate Ended(j: Job) {
    && j.freed && j.started && j.callbacks == 1 && j.flight == {} && j.fd.None? && j.closes == j.opens <= 1
    && (j.status == OK && !j.kind.StatOnly? ==> j.opens == 1 && j.bytesRead == j.len)
    && (j.status == OK && !j.kind.ReadRange? ==> j.statDone)
    && j.report == Some(Report(j.status, j.len))
  }

  ghost predicate Untouched(j: Job) {
    j == NewJob(j.kind, j.requested)
  }

  /** A running job has exactly the operations of its stage in flight. */
  ghost predicate Running(j: Job) {
    && j.started && !j.freed && j.report.None? && j.callbacks == 0 && j.closes == 0
    && j.opens == (if j.fd.Some? then 1 else 0)
    && j.bytesRead == (if j.closing && j.status == OK then j.len else 0)
    && (j.closing <==> j.flight == {Close})
    && match j.kind
       case StatOnly => j.flight == {Statx} && j.fd.None? && !j.openDone && !j.statDone && j.status == OK && j.len == 0
       case ReadRange =>
         || (j.flight == {Open} && j.fd.None? && !j.openDone && j.status == OK)
         || (j.flight == {Read} && j.fd.Some? && j.openDone && j.status == OK)
         || (j.flight == {Close} && j.fd.Some? && j.openDone)
       case ReadFile =>
         || (j.flight == {Statx, Open} && !j.statDone && !j.openDone && j.fd.None? && j.status == OK)
         || (j.flight == {Statx} && !j.statDone && j.openDone && (j.fd.None? <==> j.status != OK))
         || (j.flight == {Open} && j.statDone && !j.openDone && j.fd.None?)
         || (j.flight == {Read} && j.statDone && j.openDone && j.fd.Some? && j.status == OK)
         || (j.flight == {Close} && j.statDone && j.openDone && j.fd.Some?)
  }

  ghost predicate JobOk(j: Job) {
    Untouched(j) || Running(j) || Ended(j)
  }

  ghost predicate OutcomeOk(outcome: Outcome) {
    outcome.Bad? ==> outcome.code != OK
  }

  /** After the space check both entries are there: no job is freed with an operation in flight. */
  lemma StartKeeps(j: Job, space: nat, submitted: Option<nat>, memory: bool)
    requires Untouched(j)
    ensures Running(StartJob(j, space, submitted, memory)) || Ended(StartJob(j, space, submitted, memory))
  {
  }

  lemma BeginReadKeeps(j: Job, allocate: bool, luck: Luck)
    requires j.started && !j.freed && j.report.None? && j.callbacks == 0 && j.closes == 0 && j.opens == 1 && j.fd.Some?
               && j.flight == {}
               && !j.closing
    requires j.bytesRead == 0 && j.status == OK && j.openDone && !j.kind.StatOnly? && (j.kind.ReadFile? ==> j.statDone)
    ensures Running(BeginRead(j, allocate, luck)) || Ended(BeginRead(j, allocate, luck))
    ensures Rank(BeginRead(j, allocate, luck)) <= 2
  {
  }

  lemma FinishKeeps(j: Job, closeSlot: bool)
    requires j.started && !j.freed && j.report.None? && j.callbacks == 0 && j.closes == 0 && j.opens == 1 && j.fd.Some?
               && j.flight == {}
               && !j.closing
    requires j.bytesRead == (if j.status == OK then j.len else 0) && j.openDone && !j.kind.StatOnly?
               && (j.kind.ReadFile? ==> j.statDone)
    ensures Running(FinishJob(j, closeSlot)) || Ended(FinishJob(j, closeSlot))
    ensures Rank(FinishJob(j, closeSlot)) <= 1
  {
  }

  ghost function Flying(j: Job, op: Op): nat {
    if op in j.flight then 1 else 0
  }

  /** Operations a job may still start: a read and a close, or only a close. */
  ghost function Ahead(j: Job): nat {
    if j.kind.StatOnly? || Close in j.flight then 0 else if Read in j.flight then 1 else 2
  }

  /** The completions a job can still see. */
  ghost function Rank(j: Job): nat {
    if j.freed then 0 else Flying(j, Statx) + Flying(j, Open) + Flying(j, Read) + Flying(j, Close) + Ahead(j)
  }

  /** The completions a whole request can see. */
  function MostCompletions(kind: Kind): nat {
    match kind
    case StatOnly => 1
    case ReadRange => 3
    case ReadFile => 4
  }

  lemma StatxKeeps(j: Job, outcome: Outcome, luck: Luck)
    requires Running(j) && Statx in j.flight && OutcomeOk(outcome)
    ensures JobOk(StatxDone(j, outcome, luck)) && StatxDone(j, outcome, luck).started
    ensures Rank(StatxDone(j, outcome, luck)) < Rank(j)
  {
    var k := j.(flight := j.flight - {Statx}, statDone := true);
    if !j.kind.StatOnly? && j.openDone && j.fd.Some? {
      assert k.flight == {};
      match outcome
      case Bad(code) => FinishKeeps(k.(status := code), luck.closeSlot);
      case Good(size) =>
        if size > k.requested || size > U32_MAX { FinishKeeps(k.(status := BUDGET), luck.closeSlot); }
        else { BeginReadKeeps(k.(len := size), true, luck); }
    }
  }

  lemma OpenKeeps(j: Job, outcome: Outcome, luck: Luck)
    requires Running(j) && Open in j.flight && OutcomeOk(outcome)
    ensures JobOk(OpenDone(j, outcome, luck)) && OpenDone(j, outcome, luck).started
    ensures Rank(OpenDone(j, outcome, luck)) < Rank(j)
  {
    var k := j.(flight := j.flight - {Open}, openDone := true);
    if outcome.Good? {
      var open := k.(fd := Some(outcome.value), opens := k.opens + 1);
      if j.kind.ReadRange? { BeginReadKeeps(open, false, luck); }
      else if j.statDone && j.status != OK { FinishKeeps(open, luck.closeSlot); }
      else if j.statDone { BeginReadKeeps(open, true, luck); }
    }
  }

  lemma ReadKeeps(j: Job, outcome: Outcome, luck: Luck)
    requires Running(j) && Read in j.flight && OutcomeOk(outcome)
    ensures JobOk(ReadDone(j, outcome, luck)) && ReadDone(j, outcome, luck).started
    ensures Rank(ReadDone(j, outcome, luck)) < Rank(j)
  {
    var k := j.(flight := j.flight - {Read});
    assert k.flight == {};
    match outcome
    case Bad(code) => FinishKeeps(k.(len := 0, status := code), luck.closeSlot);
    case Good(n) =>
      if n != k.len { FinishKeeps(k.(len := 0, status := IO), luck.closeSlot); }
      else { FinishKeeps(k.(bytesRead := n), luck.closeSlot); }
  }

  /** Every completion, in any order and with any result, keeps the job in order and brings
      it closer to its end. */
  lemma CompletionKeeps(j: Job, op: Op, outcome: Outcome, luck: Luck)
    requires Running(j) && op in j.flight && OutcomeOk(outcome)
    ensures JobOk(OnCompletion(j, op, outcome, luck)) && OnCompletion(j, op, outcome, luck).started
    ensures Rank(OnCompletion(j, op, outcome, luck)) < Rank(j)
  {
    match op
    case Statx => StatxKeeps(j, outcome, luck);
    case Open => OpenKeeps(j, outcome, luck);
    case Read => ReadKeeps(j, outcome, luck);
    case Close => assert j.flight - {Close} == {};
  }

  // --- Whole lives of a job ---------------------------------------------------------------------------------------

  datatype Event = Event(op: Op, outcome: Outcome, luck: Luck)

  /** Completions that arrive for operations in flight. */
  ghost predicate LifeOk(j: Job, events: seq<Event>)
    decreases |events|
  {
    events == [] ||
    (&& !j.freed && events[0].op in j.flight && OutcomeOk(events[0].outcome)
     && LifeOk(OnCompletion(j, events[0].op, events[0].outcome, events[0].luck), events[1..]))
  }

  ghost function AfterLife(j: Job, events: seq<Event>): Job
    requires LifeOk(j, events)
    decreases |events|
  {
    if events == [] then j else AfterLife(OnCompletion(j, events[0].op, events[0].outcome, events[0].luck), events[1..])
  }

  /** Whatever the kernel answers and in whatever order, a started job ends after at most one, three
      or four completions by its kind, and as long as it has not ended one is still to come. */
  lemma {:induction false} EveryJobEnds(j: Job, events: seq<Event>)
    requires (Running(j) || Ended(j)) && LifeOk(j, events)
    ensures |events| + Rank(AfterLife(j, events)) <= Rank(j) <= MostCompletions(j.kind)
    ensures Ended(AfterLife(j, events)) || (Running(AfterLife(j, events)) && AfterLife(j, events).flight != {})
    decreases |events|
  {
    hide OnCompletion;
    if events != [] {
      CompletionKeeps(j, events[0].op, events[0].outcome, events[0].luck);
      var k := OnCompletion(j, events[0].op, events[0].outcome, events[0].luck);
      StartedIsRunning(k);
      EveryJobEnds(k, events[1..]);
    }
  }

  // --- What a request reports -------------------------------------------------------------------------------------

  /** The completion of an operation, if it has arrived. */
  ghost function Of(h: seq<Event>, op: Op): Option<Event> {
    if h == [] then None else if h[|h| - 1].op == op then Some(h[|h| - 1]) else Of(h[..|h| - 1], op)
  }

  /** The length a request is about: what a range asks for, or the size of the file. */
  ghost function Length(kind: Kind, requested: nat, h: seq<Event>): nat {
    if kind.ReadRange? then requested
    else if Of(h, Statx).Some? && Of(h, Statx).value.outcome.Good? then Of(h, Statx).value.outcome.value
    else 0
  }

  /** Starting to read takes a buffer, unless the range has one already, and a submission entry. */
  ghost function StartFault(kind: Kind, len: nat, luck: Luck): Status {
    if len > 0 && ((kind.ReadFile? && !luck.memory) || !luck.readSlot) then OOM else OK
  }

  /** The error that completion `e` brings, given the completions before it. */
  ghost function Fault(kind: Kind, requested: nat, h: seq<Event>, e: Event): Status
    decreases |h|, 2
  {
    if e.op.Close? then OK
    else if e.outcome.Bad? then e.outcome.code
    else match e.op
      case Statx =>
        if kind.StatOnly? then OK
        else if e.outcome.value > requested || e.outcome.value > U32_MAX then BUDGET
        else if Of(h, Open).Some? && Of(h, Open).value.outcome.Good? then StartFault(kind, e.outcome.value, e.luck)
        else OK
      case Open =>
        if kind.ReadRange? then StartFault(kind, requested, e.luck)
        else if Of(h, Statx).Some? && Verdict(kind, requested, h) == OK
        then StartFault(kind, Length(kind, requested, h), e.luck)
        else OK
      case Read => if e.outcome.value != Length(kind, requested, h) then IO else OK
      case Close => OK
  }

  /** The last error among the completions. */
  ghost function Verdict(kind: Kind, requested: nat, h: seq<Event>): Status
    decreases |h|, 1
  {
    if h == [] then OK
    else
      var before, e := h[..|h| - 1], h[|h| - 1];
      var fault := Fault(kind, requested, before, e);
      if fault != OK then fault else Verdict(kind, requested, before)
  }

  /** A request is well exactly if no completion brought an error. */
  lemma {:induction false} WellIffNoFault(kind: Kind, requested: nat, h: seq<Event>)
    ensures Verdict(kind, requested, h) == OK <==>
            forall k | 0 <= k < |h| :: Fault(kind, requested, h[..k], h[k]) == OK
    decreases |h|
  {
    if h != [] {
      var n := |h| - 1;
      WellIffNoFault(kind, requested, h[..n]);
      assert forall k | 0 <= k < n :: h[..n][..k] == h[..k] && h[..n][k] == h[k];
    }
  }

  /** The job knows what its completions said. */
  ghost predicate Tells(j: Job, h: seq<Event>) {
    || (h == [] && (j.freed || !j.started))
    || (&& j.status == Verdict(j.kind, j.requested, h)
        && (j.statDone <==> Of(h, Statx).Some?)
        && (j.openDone <==> Of(h, Open).Some?)
        && (j.openDone ==> (j.opens == 1 <==> Of(h, Open).value.outcome.Good?))
        && (j.status == OK && (j.statDone || j.kind.ReadRange?) ==> j.len == Length(j.kind, j.requested, h)))
  }

  lemma OfMore(h: seq<Event>, e: Event, op: Op)
    ensures Of(h + [e], op) == if e.op == op then Some(e) else Of(h, op)
  {
    assert (h + [e])[..|h|] == h;
  }

  lemma CompletionTells(j: Job, h: seq<Event>, e: Event)
    requires Running(j) && e.op in j.flight && OutcomeOk(e.outcome) && Tells(j, h)
    ensures Tells(OnCompletion(j, e.op, e.outcome, e.luck), h + [e])
  {
    OfMore(h, e, Statx);
    OfMore(h, e, Open);
    assert (h + [e])[..|h|] == h;
    assert Verdict(j.kind, j.requested, h + [e]) ==
           if Fault(j.kind, j.requested, h, e) != OK then Fault(j.kind, j.requested, h, e)
           else Verdict(j.kind, j.requested, h);
  }

  lemma {:induction false} LifeTells(j: Job, h: seq<Event>, events: seq<Event>)
    requires (Running(j) || Ended(j)) && Tells(j, h) && LifeOk(j, events)
    ensures Tells(AfterLife(j, events), h + events)
    decreases |events|
  {
    hide OnCompletion, Tells, Running, Ended;
    if events == [] {
      assert h + events == h;
    } else {
      var e := events[0];
      NotEnded(j);
      CompletionTells(j, h, e);
      CompletionKeeps(j, e.op, e.outcome, e.luck);
      StartedIsRunning(OnCompletion(j, e.op, e.outcome, e.luck));
      LifeTells(OnCompletion(j, e.op, e.outcome, e.luck), h + [e], events[1..]);
      assert h + [e] + events[1..] == h + events;
    }
  }

  lemma NotEnded(j: Job)
    requires (Running(j) || Ended(j)) && !j.freed
    ensures Running(j)
  {
  }

  /** There are entries for n operations, at once or after submitting. */
  ghost predicate Room(space: nat, submitted: Option<nat>, n: nat) {
    space >= n || (submitted.Some? && submitted.value >= n)
  }

  ghost predicate CanStart(kind: Kind, requested: nat, space: nat, submitted: Option<nat>, memory: bool) {
    && Room(space, submitted, if kind.ReadFile? then 2 else 1)
    && (kind.ReadRange? && requested > 0 ==> memory)
  }

  /** A request starts exactly if there are entries for its first operations, and for a range a buffer;
      otherwise the caller is told at once. */
  lemma StartsIff(kind: Kind, requested: nat, space: nat, submitted: Option<nat>, memory: bool)
    ensures var j := StartJob(NewJob(kind, requested), space, submitted, memory);
            && (Running(j) <==> CanStart(kind, requested, space, submitted, memory))
            && (!Running(j) ==> Ended(j) && j.report == Some(Report(if kind.ReadFile? then IO else OOM, 0)))
            && Tells(j, []) && j.kind == kind && j.requested == requested
  {
    StartKeeps(NewJob(kind, requested), space, submitted, memory);
  }

  /** The callback was told the last error among the completions, or the length the request is about, all of
      which has been read. */
  ghost predicate Reported(j: Job, kind: Kind, requested: nat, h: seq<Event>) {
    && j.report.Some? && j.report.value.status == Verdict(kind, requested, h)
    && (j.report.value.status == OK ==>
          && j.report.value.len == Length(kind, requested, h)
          && (!kind.StatOnly? ==> j.bytesRead == j.report.value.len))
  }

  /** Whatever the order of the completions, the callback is told the last error among them, and if there is none
      the length the request is about, all of which has been read. */
  lemma ReportsVerdict(kind: Kind, requested: nat, space: nat, submitted: Option<nat>, memory: bool,
                       events: seq<Event>)
    requires CanStart(kind, requested, space, submitted, memory)
    requires LifeOk(StartJob(NewJob(kind, requested), space, submitted, memory), events)
    requires AfterLife(StartJob(NewJob(kind, requested), space, submitted, memory), events).freed
    ensures Reported(AfterLife(StartJob(NewJob(kind, requested), space, submitted, memory), events),
                     kind, requested, events)
  {
    hide OnCompletion, StartJob;
    var j := StartJob(NewJob(kind, requested), space, submitted, memory);
    StartsIff(kind, requested, space, submitted, memory);
    EveryJobEnds(j, events);
    LifeTells(j, [], events);
    assert [] + events == events;
    SameRequest(j, events);
  }

  /** Every operation succeeds, the file is within the limit, all of it is read, and memory and entries are there. */
  ghost predicate AllWell(kind: Kind, requested: nat, h: seq<Event>) {
    forall k | 0 <= k < |h| ::
      && h[k].outcome.Good? && h[k].luck.memory && h[k].luck.readSlot
      && (h[k].op.Statx? && !kind.StatOnly? ==> h[k].outcome.value <= requested && h[k].outcome.value <= U32_MAX)
      && (h[k].op.Read? ==> h[k].outcome.value == Length(kind, requested, h[..k]))
  }

  /** A request to which nothing bad happens ends well, whatever the size of the file within the limit. */
  lemma WellEndsWell(kind: Kind, requested: nat, space: nat, submitted: Option<nat>, memory: bool, events: seq<Event>)
    requires CanStart(kind, requested, space, submitted, memory)
    requires LifeOk(StartJob(NewJob(kind, requested), space, submitted, memory), events)
    requires AfterLife(StartJob(NewJob(kind, requested), space, submitted, memory), events).freed
    requires AllWell(kind, requested, events)
    ensures AfterLife(StartJob(NewJob(kind, requested), space, submitted, memory), events).report
            == Some(Report(OK, Length(kind, requested, events)))
  {
    hide StartJob;
    ReportsVerdict(kind, requested, space, submitted, memory, events);
    WellIffNoFault(kind, requested, events);
  }

  /** A file within the limit is read to its end in four completions: the bound is tight. */
  lemma FourCompletions(requested: nat, size: nat, fd: nat) returns (events: seq<Event>)
    requires 0 < size <= U32_MAX && size <= requested
    ensures var j := StartJob(NewJob(ReadFile, requested), 2, None, true);
            && LifeOk(j, events) && |events| == MostCompletions(ReadFile)
            && AfterLife(j, events).report == Some(Report(OK, size)) && AfterLife(j, events).bytesRead == size
  {
    var luck := Luck(true, true, true);
    var a, b := Event(Statx, Good(size), luck), Event(Open, Good(fd), luck);
    var c, d := Event(Read, Good(size), luck), Event(Close, Good(0), luck);
    events := [a, b, c, d];
    var j := StartJob(NewJob(ReadFile, requested), 2, None, true);
    var j1 := OnCompletion(j, Statx, Good(size), luck);
    var j2 := OnCompletion(j1, Open, Good(fd), luck);
    var j3 := OnCompletion(j2, Read, Good(size), luck);
    var j4 := OnCompletion(j3, Close, Good(0), luck);
    assert j1.flight == {Open} && j2.flight == {Read} && j3.flight == {Close} && j4.freed;
    assert LifeOk(j4, []) && LifeOk(j3, [d]) && LifeOk(j2, [c, d]) && LifeOk(j1, [b, c, d]) by {
      assert [d][1..] == [] && [c, d][1..] == [d] && [b, c, d][1..] == [c, d];
    }
    assert events[1..] == [b, c, d] && [b, c, d][1..] == [c, d] && [c, d][1..] == [d] && [d][1..] == [];
    assert AfterLife(j3, [d]) == j4 && AfterLife(j2, [c, d]) == j4 && AfterLife(j1, [b, c, d]) == j4;
  }

  lemma {:induction false} SameRequest(j: Job, events: seq<Event>)
    requires LifeOk(j, events)
    ensures AfterLife(j, events).kind == j.kind && AfterLife(j, events).requested == j.requested
    decreases |events|
  {
    hide OnCompletion;
    if events != [] { SameRequest(OnCompletion(j, events[0].op, events[0].outcome, events[0].luck), events[1..]); }
  }

  lemma StartedIsRunning(j: Job)
    requires JobOk(j) && j.started
    ensures Running(j) || Ended(j)
  {
  }

  // --- The store -----------------------------------------------------------------------------------------------------

  /** Jobs that have left the pending list and have not ended. */
  ghost function ActiveJobs(jobs: map<nat, Job>, pending: seq<nat>): set<nat> {
    set id | id in jobs && id !in pending && !jobs[id].freed
  }

  class MetadataStore {
    const concurrency: nat
    var pending: seq<nat>
    var jobs: map<nat, Job>
    var active: nat
    var nextId: nat
    /** The completions each request has seen. */
    ghost var histories: map<nat, seq<Event>>

    ghost predicate Valid()
      reads this
    {
      && (forall id | id in jobs :: JobOk(jobs[id]) && id < nextId && id in histories && Tells(jobs[id], histories[id]))
      && (forall k | 0 <= k < |pending| :: pending[k] in jobs && Untouched(jobs[pending[k]]))
      && (forall a, b | 0 <= a < b < |pending| :: pending[a] != pending[b])
      && active == |ActiveJobs(jobs, pending)| <= concurrency
    }

    constructor (limit: nat)
      ensures Valid() && concurrency == limit && jobs == map[] && pending == []
    {
      concurrency := limit;
      pending, jobs, active, nextId := [], map[], 0, 0;
      histories := map[];
      new;
      assert ActiveJobs(jobs, pending) == {};
    }

    /** Accepts a request. */
    method Submit(kind: Kind, requested: nat) returns (id: nat)
      requires Valid()
      modifies this`pending, this`jobs, this`nextId, this`histories
      ensures Valid() && id !in old(jobs) && jobs == old(jobs)[id := NewJob(kind, requested)]
                && pending == old(pending) + [id] && histories == old(histories)[id := []]
    {
      id := nextId;
      nextId := nextId + 1;
      jobs, histories := jobs[id := NewJob(kind, requested)], histories[id := []];
      pending := pending + [id];
      assert ActiveJobs(jobs, pending) == ActiveJobs(old(jobs), old(pending)) by {
        assert forall k | k in old(jobs) :: k != id;
        assert forall k :: k in pending <==> k in old(pending) || k == id;
      }
    }

    /** One round of drain_pending_locked: the oldest request starts if there is room. */
    method DrainOne() returns (id: Option<nat>)
      requires Valid()
      modifies this`pending, this`active
      ensures Valid()
      ensures id.Some? <==> old(pending) != [] && old(active) < concurrency
      ensures id.Some? ==>
                id.value == old(pending[0]) && pending == old(pending[1..]) && id.value in jobs
                  && Untouched(jobs[id.value])
      ensures id.None? ==> pending == old(pending) && active == old(active)
      ensures id.Some? ==> id.value !in pending
    {
      if pending == [] || active >= concurrency { return None; }
      var first := pending[0];
      id := Some(first);
      pending := pending[1..];
      active := active + 1;
      assert first !in pending by {
        assert forall k | 0 <= k < |pending| :: pending[k] == old(pending)[k + 1] != first;
      }
      assert forall k :: k in old(pending) <==> k in pending || k == first by {
        assert old(pending) == [first] + pending;
      }
      assert ActiveJobs(jobs, pending) == ActiveJobs(jobs, old(pending)) + {first};
    }

    /** A job becomes `j`; if that ends it, its place is given up. */
    method Replace(id: nat, j: Job, ghost h: seq<Event>)
      requires Valid() && id in jobs && id !in pending && !jobs[id].freed && JobOk(j) && j.started && Tells(j, h)
      modifies this`jobs, this`active, this`histories
      ensures Valid() && jobs == old(jobs)[id := j] && active == old(active) - (if j.freed then 1 else 0)
      ensures histories == old(histories)[id := h]
    {
      ghost var was := ActiveJobs(jobs, pending);
      assert id in was;
      jobs, histories := jobs[id := j], histories[id := h];
      assert ActiveJobs(jobs, pending) == if j.freed then was - {id} else was;
      if j.freed { active := active - 1; }
    }

    method Start(id: nat, space: nat, submitted: Option<nat>, memory: bool)
      requires Valid() && id in jobs && id !in pending && Untouched(jobs[id])
      modifies this`jobs, this`active, this`histories
      ensures Valid() && jobs == old(jobs)[id := StartJob(old(jobs)[id], space, submitted, memory)]
      ensures Running(jobs[id]) <==> CanStart(old(jobs)[id].kind, old(jobs)[id].requested, space, submitted, memory)
      ensures histories == old(histories)[id := []]
    {
      hide StartJob, Tells;
      StartKeeps(jobs[id], space, submitted, memory);
      StartsIff(jobs[id].kind, jobs[id].requested, space, submitted, memory);
      Replace(id, StartJob(jobs[id], space, submitted, memory), []);
    }

    /** A completion arrives for an operation in flight. If it is the last one the callback is told what all of
        them amount to. */
    method HandleCompletion(id: nat, op: Op, outcome: Outcome, luck: Luck)
      requires Valid() && id in jobs && id !in pending && Running(jobs[id]) && op in jobs[id].flight
                 && OutcomeOk(outcome)
      modifies this`jobs, this`active, this`histories
      ensures Valid() && jobs == old(jobs)[id := OnCompletion(old(jobs)[id], op, outcome, luck)]
      ensures id in old(histories) && histories == old(histories)[id := old(histories)[id] + [Event(op, outcome, luck)]]
      ensures jobs[id].freed <==> jobs[id].report.Some?
      ensures jobs[id].freed ==> Reported(jobs[id], old(jobs)[id].kind, old(jobs)[id].requested, histories[id])
    {
      hide OnCompletion;
      var e := Event(op, outcome, luck);
      CompletionKeeps(jobs[id], op, outcome, luck);
      CompletionTells(jobs[id], histories[id], e);
      Replace(id, OnCompletion(jobs[id], op, outcome, luck), histories[id] + [e]);
    }
  }
}
