/** The I/O queue: a growing ring of jobs, workers that take them in order and finish in any
    order, and events that retire when everything posted before them has finished. Each
    method is one critical section; a run is any sequence of calls. */
module IoQueues {
  import opened Statuses
  import opened Rings

  datatype Job = Job(work: nat, seqNo: nat)

  const IDLE: nat := U64_MAX
  const INITIAL_CAPACITY: nat := 512

  // --- The abstract state -------------------------------------------------------------------------

  /** What the queue has been asked to do and has done. Sequence numbers count from 1. */
  datatype History = History(posted: seq<Job>, started: nat, finished: set<nat>)

  ghost predicate Held(workers: seq<nat>, s: nat) {
    exists w :: 0 <= w < |workers| && workers[w] == s
  }

  ghost predicate HistoryOk(h: History) {
    && h.started <= |h.posted| < IDLE
    && (forall i | 0 <= i < |h.posted| :: h.posted[i].seqNo == i + 1)
    && (forall s | s in h.finished :: 1 <= s <= h.started)
  }

  /** A started job is held by exactly one worker until it has finished. */
  ghost predicate WorkersOk(h: History, workers: seq<nat>) {
    && (forall w | 0 <= w < |workers| ::
        workers[w] == IDLE || (1 <= workers[w] <= h.started && workers[w] !in h.finished))
    && (forall v, w | 0 <= v < w < |workers| :: workers[v] != IDLE ==> workers[v] != workers[w])
    && (forall s: nat | 1 <= s <= h.started && s !in h.finished :: Held(workers, s))
  }

  /** Everything up to `retired` has finished, and the next one has not. */
  ghost predicate RetiredExact(h: History, retired: nat) {
    && retired <= |h.posted|
    && (forall s: nat | 1 <= s <= retired :: s in h.finished)
    && (retired < |h.posted| ==> retired + 1 !in h.finished)
  }

  /** The retired number is one less than the least unfinished one, or the last one posted. */
  lemma RetiredIsLeast(h: History, retired: nat)
    requires HistoryOk(h) && RetiredExact(h, retired)
    ensures (forall s: nat | 1 <= s <= |h.posted| :: s in h.finished) ==> retired == |h.posted|
    ensures forall s: nat | 1 <= s <= |h.posted| && s !in h.finished :: retired + 1 <= s
    ensures retired < |h.posted| ==> retired + 1 !in h.finished
  {
    assert retired < |h.posted| ==> 1 <= retired + 1 <= |h.posted|;
  }

  /** An event has retired exactly when every job posted before it was recorded has finished. */
  lemma EventMeaning(h: History, retired: nat, event: nat)
    requires HistoryOk(h) && RetiredExact(h, retired) && event <= |h.posted|
    ensures retired >= event <==> forall s: nat | 1 <= s <= event :: s in h.finished
  {
    if retired < event { assert retired + 1 !in h.finished; }
  }

  lemma PostKeeps(h: History, workers: seq<nat>, retired: nat, work: nat)
    requires HistoryOk(h) && WorkersOk(h, workers) && RetiredExact(h, retired) && |h.posted| + 1 < IDLE
    ensures var h' := h.(posted := h.posted + [Job(work, |h.posted| + 1)]);
            HistoryOk(h') && WorkersOk(h', workers) && RetiredExact(h', retired)
  {
    assert |h.posted| + 1 !in h.finished;
  }

  lemma BeginKeeps(h: History, workers: seq<nat>, retired: nat, w: nat)
    requires HistoryOk(h) && WorkersOk(h, workers) && RetiredExact(h, retired)
    requires w < |workers| && workers[w] == IDLE && h.started < |h.posted|
    ensures var h' := h.(started := h.started + 1);
            HistoryOk(h') && WorkersOk(h', workers[w := h.started + 1]) && RetiredExact(h', retired)
  {
    var h', workers' := h.(started := h.started + 1), workers[w := h.started + 1];
    forall s: nat | 1 <= s <= h'.started && s !in h.finished ensures Held(workers', s) {
      if s == h'.started {
        assert workers'[w] == s;
      } else {
        assert Held(workers, s);
        var v :| 0 <= v < |workers| && workers[v] == s;
        assert workers'[v] == s;
      }
    }
  }

  lemma FinishKeeps(h: History, workers: seq<nat>, w: nat)
    requires HistoryOk(h) && WorkersOk(h, workers) && w < |workers| && workers[w] != IDLE
    ensures var h' := h.(finished := h.finished + {workers[w]});
            HistoryOk(h') && WorkersOk(h', workers[w := IDLE])
  {
    var h', workers' := h.(finished := h.finished + {workers[w]}), workers[w := IDLE];
    forall s: nat | 1 <= s <= h.started && s !in h'.finished ensures Held(workers', s) {
      assert Held(workers, s);
      var v :| 0 <= v < |workers| && workers[v] == s;
      assert workers'[v] == s;
    }
  }

  /** The least number held by a worker or still queued. */
  ghost predicate IsLeastPending(h: History, workers: seq<nat>, least: nat) {
    && (h.started < |h.posted| ==> least <= h.started + 1)
    && (forall w | 0 <= w < |workers| :: least <= workers[w])
    && (least == IDLE || (h.started < |h.posted| && least == h.started + 1) || Held(workers, least))
  }

  lemma PendingAbove(h: History, workers: seq<nat>, least: nat, s: nat)
    requires HistoryOk(h) && WorkersOk(h, workers) && IsLeastPending(h, workers, least) && 1 <= s <= |h.posted|
    ensures s !in h.finished ==> least <= s
  {
    if s !in h.finished && s <= h.started {
      assert Held(workers, s);
      var w :| 0 <= w < |workers| && workers[w] == s;
      assert least <= workers[w];
    }
  }

  /** What advance_retired computes is exact, and never below the number already retired. */
  lemma LeastPendingRetires(h: History, workers: seq<nat>, least: nat, was: History, retired: nat)
    requires HistoryOk(h) && WorkersOk(h, workers) && IsLeastPending(h, workers, least)
    requires was.posted == h.posted && was.finished <= h.finished && RetiredExact(was, retired)
    ensures least > 0
    ensures var next := if least == IDLE then |h.posted| else least - 1;
            RetiredExact(h, next) && retired <= next
  {
    if Held(workers, least) {
      var v :| 0 <= v < |workers| && workers[v] == least;
    }
    var next := if least == IDLE then |h.posted| else least - 1;
    forall s: nat | 1 <= s <= next ensures s in h.finished { PendingAbove(h, workers, least, s); }
    assert next < |h.posted| ==> next + 1 !in h.finished;
    assert next < retired ==> next + 1 in was.finished;
  }

  // --- The ring -----------------------------------------------------------------------------------------

  ghost predicate PowerOfTwo(n: nat) {
    n == 1 || (n > 1 && n % 2 == 0 && PowerOfTwo(n / 2))
  }

  lemma MovedHolds(ring: seq<Job>, queue: seq<Job>)
    requires 0 < |ring| && |queue| <= |ring| && forall i | 0 <= i < |queue| :: ring[i] == queue[i]
    ensures Holds(ring, 0, queue)
  {
    forall i | 0 <= i < |queue| ensures SlotIs(ring, 0, i, queue[i]) { assert At(0, i, |ring|) == i; }
  }

  class IoQueue {
    var ring: array<Job>
    var head: nat
    var tail: nat
    var workerSeq: array<nat>
    var nextSeq: nat
    var retiredSeq: nat
    ghost var history: History

    /** The jobs waiting in the ring. */
    ghost function Queue(): seq<Job>
      requires history.started <= |history.posted|
      reads this
    {
      history.posted[history.started..]
    }

    ghost predicate Valid()
      reads this, ring, workerSeq
    {
      && HistoryOk(history) && WorkersOk(history, workerSeq[..])
      && nextSeq == |history.posted| && RetiredExact(history, retiredSeq)
      && PowerOfTwo(ring.Length) && tail <= head && head - tail == |Queue()|
      && Holds(ring[..], tail, Queue())
    }

    constructor (workers: nat)
      requires workers > 0
      ensures Valid() && fresh(ring) && fresh(workerSeq) && workerSeq.Length == workers
      ensures history == History([], 0, {}) && nextSeq == retiredSeq == 0
    {
      ring := new Job[INITIAL_CAPACITY](_ => Job(0, 0));
      workerSeq := new nat[workers](_ => IDLE);
      head, tail, nextSeq, retiredSeq := 0, 0, 0, 0;
      history := History([], 0, {});
      new;
      PowersDown();
    }

    /** Doubles the ring and moves the waiting jobs to its start, in order. */
    method Grow()
      requires Valid()
      modifies this`ring, this`head, this`tail
      ensures Valid() && fresh(ring) && ring.Length == 2 * old(ring.Length)
      ensures tail == 0 && head == |Queue()|
    {
      var capacity := ring.Length * 2;
      var bigger := new Job[capacity](_ => Job(0, 0));
      var count := head - tail;
      ghost var queue := Queue();
      for i := 0 to count
        invariant ring == old(ring) && ring[..] == old(ring[..]) && tail == old(tail)
        invariant forall j | 0 <= j < i :: bigger[j] == queue[j]
      {
        assert SlotIs(ring[..], tail, i, queue[i]);
        bigger[i] := ring[At(tail, i, ring.Length)];
      }
      MovedHolds(bigger[..], queue);
      ring, head, tail := bigger, count, 0;
    }

    /** Appends a job. It fails only when the ring is full and cannot grow, and then leaves
        the queue as it was. */
    method Post(work: nat, canAllocate: bool) returns (ok: bool)
      requires Valid() && nextSeq + 1 < IDLE
      modifies this, ring
      ensures Valid() && workerSeq == old(workerSeq) && (ring == old(ring) || fresh(ring))
      ensures ok <==> canAllocate || old(head - tail < ring.Length)
      ensures history == if ok then old(history).(posted := old(history.posted) + [Job(work, old(nextSeq) + 1)])
                else old(history)
      ensures retiredSeq == old(retiredSeq)
    {
      hide HistoryOk, WorkersOk, RetiredExact, PowerOfTwo, Holds;
      Lengths();
      if head - tail == ring.Length {
        if !canAllocate { return false; }
        Grow();
      }
      PostKeeps(history, workerSeq[..], retiredSeq, work);
      PushHolds(ring[..], tail, Queue(), Job(work, nextSeq + 1));
      nextSeq := nextSeq + 1;
      ghost var slots := ring[..];
      var k := At(tail, head - tail, ring.Length);
      ring[k] := Job(work, nextSeq);
      assert ring[..] == slots[k := Job(work, nextSeq)];
      head := head + 1;
      history := history.(posted := history.posted + [Job(work, nextSeq)]);
      assert Queue() == old(Queue()) + [Job(work, nextSeq)];
      return true;
    }

    lemma Lengths()
      requires Valid()
      ensures 0 < ring.Length && |Queue()| <= ring.Length && history.started <= |history.posted|
    {
    }

    /** A worker takes the oldest waiting job. */
    method Begin(w: nat) returns (job: Job)
      requires Valid() && w < workerSeq.Length && workerSeq[w] == IDLE && tail < head
      modifies this`tail, this`history, workerSeq
      ensures Valid()
      ensures old(history.started) < |old(history.posted)|
      ensures job == old(history.posted[history.started])
      ensures history == old(history).(started := old(history.started) + 1)
      ensures workerSeq[..] == old(workerSeq[..])[w := job.seqNo]
    {
      hide RetiredExact, PowerOfTwo, Holds, WorkersOk;
      PopHolds(ring[..], tail, Queue(), Job(0, 0));
      BeginKeeps(history, workerSeq[..], retiredSeq, w);
      job := ring[At(tail, 0, ring.Length)];
      tail := tail + 1;
      ghost var seqs := workerSeq[..];
      workerSeq[w] := job.seqNo;
      assert workerSeq[..] == seqs[w := job.seqNo];
      history := history.(started := history.started + 1);
      assert Queue() == old(Queue())[1..];
    }

    /** The least number still queued or held, or IDLE. */
    method LeastPending() returns (least: nat)
      requires HistoryOk(history) && Holds(ring[..], tail, Queue()) && head == tail + |Queue()|
      ensures IsLeastPending(history, workerSeq[..], least)
    {
      if tail < head { PopHolds(ring[..], tail, Queue(), Job(0, 0)); }
      least := if tail < head then ring[At(tail, 0, ring.Length)].seqNo else IDLE;
      assert tail < head ==> least == history.started + 1;
      for i := 0 to workerSeq.Length
        invariant history.started < |history.posted| ==> least <= history.started + 1
        invariant forall w | 0 <= w < i :: least <= workerSeq[w]
        invariant least == IDLE || (history.started < |history.posted| && least == history.started + 1)
                  || Held(workerSeq[..], least)
        invariant least <= IDLE
      {
        if workerSeq[i] < least {
          least := workerSeq[i];
          assert workerSeq[..][i] == least;
        }
      }
    }

    /** A worker reports its job done, and the retired number catches up. */
    method Finish(w: nat)
      requires Valid() && w < workerSeq.Length && workerSeq[w] != IDLE
      modifies this`retiredSeq, this`history, workerSeq
      ensures Valid()
      ensures history == old(history).(finished := old(history.finished) + {old(workerSeq[w])})
      ensures workerSeq[..] == old(workerSeq[..])[w := IDLE] && retiredSeq >= old(retiredSeq)
    {
      hide RetiredExact, PowerOfTwo, Holds, WorkersOk, IsLeastPending;
      ghost var was := history;
      FinishKeeps(history, workerSeq[..], w);
      ghost var seqs := workerSeq[..];
      history := history.(finished := history.finished + {workerSeq[w]});
      workerSeq[w] := IDLE;
      assert workerSeq[..] == seqs[w := IDLE];
      var least := LeastPending();
      LeastPendingRetires(history, workerSeq[..], least, was, retiredSeq);
      var next := if least == IDLE then nextSeq else least - 1;
      if next > retiredSeq { retiredSeq := next; }
    }

    /** Records an event after everything posted so far. */
    method Record() returns (event: nat)
      requires Valid()
      ensures event == |history.posted|
    {
      event := nextSeq;
    }

    /** Tells, without error either way, whether all jobs posted before the event have finished. */
    method Query(event: nat) returns (done: bool)
      requires Valid() && event <= nextSeq
      ensures done <==> forall s: nat | 1 <= s <= event :: s in history.finished
    {
      EventMeaning(history, retiredSeq, event);
      done := retiredSeq >= event;
    }
  }

  lemma PowersDown()
    ensures PowerOfTwo(INITIAL_CAPACITY)
  {
    assert PowerOfTwo(1);
    assert PowerOfTwo(2);
    assert PowerOfTwo(4);
    assert PowerOfTwo(8);
    assert PowerOfTwo(16);
    assert PowerOfTwo(32);
    assert PowerOfTwo(64);
    assert PowerOfTwo(128);
    assert PowerOfTwo(256);
  }
}
