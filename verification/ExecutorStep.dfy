/** The step function of the CPU executor and the calls made on it, as runs of the loader's machine; and that
    stepping finishes every submitted batch when reads and decodes succeed. */
module ExecutorSteps {
  import opened Statuses
  import opened Seqs
  import X = CpuExecutors
  import C = CpuReadPlans
  import Items = Dispatch
  import L = Loaders

  /** What happens outside during one step: the results of the wave being decoded, whether the store takes the
      reads of a wave, and what it says about reads under way, None if they have not arrived. */
  datatype Outside = Outside(results: seq<Status>, accepted: seq<Status>, polled: seq<Option<Status>>)

  ghost predicate Fits(x: X.CpuExecutor, o: Outside)
    reads x
  {
    && |o.accepted| == |o.polled| == 2
    && (x.decoding.Some? && x.decoding.value < |x.waves| ==> |o.results| == |x.waves[x.decoding.value].chunks|)
  }

  /** The executor in memory is that of the machine. */
  ghost predicate Mirrors(x: X.CpuExecutor, cfg: L.Config, l: L.Loader)
    reads x
  {
    x.Valid() && x.View() == l.exec && x.cfg == cfg.exec && x.fixedBytes == cfg.fixed && L.Inv(cfg, l)
  }

  // --- Runs ----------------------------------------------------------------------------------------------------

  ghost predicate RunTo(cfg: L.Config, l: L.Loader, run: seq<L.Step>, e: L.Loader) {
    L.RunFrom(cfg, l, run) && L.EndOf(cfg, l, run) == e
  }

  ghost predicate Reaches(cfg: L.Config, l: L.Loader, e: L.Loader) {
    exists run :: RunTo(cfg, l, run, e)
  }

  lemma ReachesItself(cfg: L.Config, l: L.Loader)
    ensures Reaches(cfg, l, l)
  {
    assert RunTo(cfg, l, [], l);
  }

  lemma ReachesBy(cfg: L.Config, l: L.Loader, m: L.Loader, step: L.Step)
    requires Reaches(cfg, l, m) && L.Enabled(cfg, m, step)
    ensures Reaches(cfg, l, L.Do(cfg, m, step))
  {
    hide L.Enabled, L.Do;
    var run :| RunTo(cfg, l, run, m);
    RunGoesOn(cfg, l, run, step);
    assert RunTo(cfg, l, run + [step], L.Do(cfg, m, step));
  }

  lemma {:induction false} RunGoesOn(cfg: L.Config, l: L.Loader, run: seq<L.Step>, step: L.Step)
    requires L.RunFrom(cfg, l, run) && L.Enabled(cfg, L.EndOf(cfg, l, run), step)
    ensures L.RunFrom(cfg, l, run + [step])
    ensures L.EndOf(cfg, l, run + [step]) == L.Do(cfg, L.EndOf(cfg, l, run), step)
    decreases |run|
  {
    hide L.Enabled, L.Do;
    if run == [] {
      assert [step][1..] == [];
    } else {
      assert (run + [step])[1..] == run[1..] + [step];
      RunGoesOn(cfg, L.Do(cfg, l, run[0]), run[1..], step);
    }
  }

  // --- The stages of a step ------------------------------------------------------------------------------------

  lemma DecodingKnown(cfg: L.Config, l: L.Loader)
    requires L.Inv(cfg, l) && l.exec.decoding.Some?
    ensures X.Shape(l.exec) && l.exec.decoding.value < 2 && l.exec.waves[l.exec.decoding.value].slot < 2
    ensures l.exec.waves[l.exec.decoding.value].state.Decoding?
    ensures l.exec.slots[l.exec.waves[l.exec.decoding.value].slot].state.Rendering?
  {
    hide L.InSequence;
    X.WritesAreSafe(cfg.exec, cfg.fixed, l.exec);
  }

  lemma HasShape(x: X.CpuExecutor)
    requires x.Valid()
    ensures X.Shape(x.View())
  {
  }

  lemma InvShape(cfg: L.Config, l: L.Loader)
    requires L.Inv(cfg, l)
    ensures X.Shape(l.exec) && !l.exec.stopped
  {
  }

  /** Each stage is a step of the machine or none, and adds no work. A finished decode is collected. */
  method Collect(x: X.CpuExecutor, results: seq<Status>, ghost cfg: L.Config, ghost l: L.Loader, ghost m: L.Loader)
    returns (status: Status, ghost e: L.Loader)
    requires Mirrors(x, cfg, m) && m.status == OK && Reaches(cfg, l, m)
    requires x.decoding.Some? && x.decoding.value < |x.waves| ==> |results| == |x.waves[x.decoding.value].chunks|
    modifies x
    ensures Mirrors(x, cfg, e) && Reaches(cfg, l, e)
    ensures x.batches == old(x.batches) && x.refs == old(x.refs)
    ensures e == m.(exec := x.View(), status := if status == AGAIN then OK else status)
    ensures status == if old(x.decoding).Some? && x.decodeDone then X.FirstBad(results) else OK
    ensures x.decodeDone == old(x.decodeDone) && X.WorkLeft(x.View()) <= old(X.WorkLeft(x.View()))
    ensures old(x.decoding).Some? && x.decodeDone && status == OK ==> X.WorkLeft(x.View()) < old(X.WorkLeft(x.View()))
    ensures status != OK || old(x.decoding).None? || !x.decodeDone ==> x.View() == old(x.View())
    ensures |x.waves| == |old(x.waves)| == 2
    ensures forall w | 0 <= w < 2 && !old(x.waves)[w].state.Decoding? :: x.waves[w] == old(x.waves)[w]
    ensures |x.slots| == |old(x.slots)| == 2
    ensures forall i | 0 <= i < 2 && !old(x.slots)[i].state.Rendering? :: x.slots[i] == old(x.slots)[i]
  {
    hide X.ExecOk, L.Inv, X.WorkLeft;
    InvShape(cfg, m);
    ghost var before := x.decoding.Some? && x.decodeDone;
    if before { DecodingKnown(cfg, m); }
    status := x.Collect(results);
    e := m;
    if before {
      ghost var step := L.CollectStep(results);
      L.StepKeepsInv(cfg, m, step);
      ReachesBy(cfg, l, m, step);
      e := L.Do(cfg, m, step);
    }
  }

  /** Slot i is freed if its batch has been released. */
  lemma FreeSlot(cfg: L.Config, l: L.Loader, m: L.Loader, i: nat)
    requires L.Inv(cfg, m) && m.status == OK && Reaches(cfg, l, m) && i < 2
    ensures X.Shape(m.exec)
    ensures var freed := m.exec.slots[i].state.Held? && m.exec.refs[i] == 1;
            var e := m.(exec := m.exec.(slots := m.exec.slots[i := X.FreedIf(m.exec.slots[i], freed)]));
            && L.Inv(cfg, e) && Reaches(cfg, l, e) && X.WorkLeft(e.exec) == X.WorkLeft(m.exec)
  {
    hide X.ExecOk, L.Inv;
    InvShape(cfg, m);
    if m.exec.slots[i].state.Held? && m.exec.refs[i] == 1 {
      L.StepKeepsInv(cfg, m, L.FreeStep(i));
      ReachesBy(cfg, l, m, L.FreeStep(i));
    } else {
      assert m.exec.slots[i := m.exec.slots[i]] == m.exec.slots;
    }
  }

  method FreeHeld(x: X.CpuExecutor, ghost cfg: L.Config, ghost l: L.Loader, ghost m: L.Loader)
    returns (ghost e: L.Loader)
    requires Mirrors(x, cfg, m) && m.status == OK && Reaches(cfg, l, m)
    modifies x
    ensures Mirrors(x, cfg, e) && Reaches(cfg, l, e) && e == m.(exec := x.View())
    ensures x.decodeDone == old(x.decodeDone) && X.WorkLeft(x.View()) == old(X.WorkLeft(x.View()))
    ensures x.View() == old(x.View()).(slots := x.slots)
    ensures |x.slots| == |old(x.slots)| == |x.refs| == 2
    ensures forall i | 0 <= i < 2 ::
              x.slots[i] == X.FreedIf(old(x.slots)[i], old(x.slots)[i].state.Held? && x.refs[i] == 1)
  {
    hide X.ExecOk, L.Inv, X.WorkLeft;
    InvShape(cfg, m);
    FreeSlot(cfg, l, m, 0);
    var first := X.FreedIf(m.exec.slots[0], m.exec.slots[0].state.Held? && m.exec.refs[0] == 1);
    e := m.(exec := m.exec.(slots := m.exec.slots[0 := first]));
    FreeSlot(cfg, l, e, 1);
    var second := X.FreedIf(m.exec.slots[1], m.exec.slots[1].state.Held? && m.exec.refs[1] == 1);
    e := e.(exec := e.exec.(slots := e.exec.slots[1 := second]));
    x.FreeHeld();
    HasShape(x);
    assert x.slots == e.exec.slots;
  }

  /** A free wave takes the next reads, if there are any and the store accepts them. */
  method Dispatch(x: X.CpuExecutor, w: nat, accepted: Status, ghost cfg: L.Config, ghost l: L.Loader,
                  ghost m: L.Loader)
    returns (status: Status, ghost e: L.Loader)
    requires Mirrors(x, cfg, m) && m.status == OK && Reaches(cfg, l, m) && w < 2
    modifies x
    ensures Mirrors(x, cfg, e) && Reaches(cfg, l, e)
    ensures x.batches == old(x.batches)
    ensures e == m.(exec := x.View(), status := if status == AGAIN then OK else status)
    ensures x.decodeDone == old(x.decodeDone) && x.decoding == old(x.decoding)
    ensures X.WorkLeft(x.View()) < old(X.WorkLeft(x.View())) || x.View() == old(x.View())
    ensures |x.waves| == |old(x.waves)| == 2
    ensures forall k | 0 <= k < 2 && (k != w || !old(x.waves)[k].state.InputFree?) :: x.waves[k] == old(x.waves)[k]
    ensures old(x.waves)[w].state.InputFree? && old(X.Dispatchable(x.slots[0]) || X.Dispatchable(x.slots[1])) ==>
              && status == accepted && (status == OK ==> X.WorkLeft(x.View()) < old(X.WorkLeft(x.View())))
    ensures !old(x.waves)[w].state.InputFree? || old(!X.Dispatchable(x.slots[0]) && !X.Dispatchable(x.slots[1])) ==>
              status == OK && x.View() == old(x.View())
    ensures status != OK ==> x.View() == old(x.View())
    ensures |x.slots| == |old(x.slots)| == 2
    ensures forall i | 0 <= i < 2 && !old(x.slots)[i].state.Rendering? :: x.slots[i] == old(x.slots)[i]
  {
    hide X.CpuExecutor.Valid, L.Inv, X.WorkLeft, X.CanDispatch, X.WaveFull, Reaches;
    InvShape(cfg, m);
    e := m;
    if !x.waves[w].state.InputFree? { return OK, m; }
    ghost var some := X.Dispatchable(x.slots[0]) || X.Dispatchable(x.slots[1]);
    status := x.DispatchWave(w, accepted);
    if some && accepted == OK {
      SentTo(cfg, l, m, w, x.waves[w], x.slots[x.waves[w].slot].dispatched);
      e := m.(exec := x.View());
    } else if some {
      FailedTo(cfg, l, m, accepted);
      e := L.Stopped(m, accepted);
    }
  }

  lemma SentTo(cfg: L.Config, l: L.Loader, m: L.Loader, w: nat, sent: X.Wave, upto: nat)
    requires L.Inv(cfg, m) && m.status == OK && Reaches(cfg, l, m) && X.Shape(m.exec) && w < 2
    requires X.CanDispatch(cfg.exec, m.exec, w, sent, upto)
    ensures var e := m.(exec := X.Sent(m.exec, w, sent, upto)); L.Inv(cfg, e) && Reaches(cfg, l, e)
  {
    hide L.Inv, Reaches, X.CanDispatch;
    L.StepKeepsInv(cfg, m, L.DispatchStep(w, sent, upto));
    ReachesBy(cfg, l, m, L.DispatchStep(w, sent, upto));
  }

  lemma FailedTo(cfg: L.Config, l: L.Loader, m: L.Loader, code: Status)
    requires L.Inv(cfg, m) && m.status == OK && Reaches(cfg, l, m) && code != OK
    ensures L.Inv(cfg, L.Stopped(m, code)) && Reaches(cfg, l, L.Stopped(m, code))
  {
    hide L.Inv, Reaches;
    L.StepKeepsInv(cfg, m, L.FailStep(code));
    ReachesBy(cfg, l, m, L.FailStep(code));
  }

  /** The reads of a wave have arrived, or failed, or are still under way. */
  method Poll(x: X.CpuExecutor, w: nat, polled: Option<Status>, ghost cfg: L.Config, ghost l: L.Loader,
              ghost m: L.Loader)
    returns (status: Status, ghost e: L.Loader)
    requires Mirrors(x, cfg, m) && m.status == OK && Reaches(cfg, l, m) && w < 2
    modifies x
    ensures Mirrors(x, cfg, e) && Reaches(cfg, l, e)
    ensures x.batches == old(x.batches)
    ensures e == m.(exec := x.View(), status := if status == AGAIN then OK else status)
    ensures x.decodeDone == old(x.decodeDone) && x.decoding == old(x.decoding)
    ensures status == if old(x.waves)[w].state.Reading? && polled.Some? then polled.value else OK
    ensures if old(x.waves)[w].state.Reading? && polled == Some(OK)
            then x.View() == X.WaveMoved(old(x.View()), w, X.ReadReady)
                 && X.WorkLeft(x.View()) < old(X.WorkLeft(x.View()))
            else x.View() == old(x.View())
    ensures |x.slots| == |old(x.slots)| == 2
    ensures forall i | 0 <= i < 2 && !old(x.slots)[i].state.Rendering? :: x.slots[i] == old(x.slots)[i]
  {
    hide X.ExecOk, L.Inv, X.WorkLeft;
    InvShape(cfg, m);
    e := m;
    if !x.waves[w].state.Reading? || polled.None? { return OK, m; }
    status := x.ReadsArrived(w, polled.value);
    ghost var step := if polled.value == OK then L.ArriveStep(w) else L.FailStep(polled.value);
    L.StepKeepsInv(cfg, m, step);
    ReachesBy(cfg, l, m, step);
    e := L.Do(cfg, m, step);
  }

  /** The oldest wave that is ready goes to the decoder. */
  method StartDecode(x: X.CpuExecutor, ghost cfg: L.Config, ghost l: L.Loader, ghost m: L.Loader)
    returns (ghost e: L.Loader)
    requires Mirrors(x, cfg, m) && m.status == OK && Reaches(cfg, l, m)
    modifies x
    ensures Mirrors(x, cfg, e) && Reaches(cfg, l, e) && e == m.(exec := x.View())
    ensures x.batches == old(x.batches)
    ensures X.WorkLeft(x.View()) < old(X.WorkLeft(x.View())) || x.View() == old(x.View())
    ensures |old(x.waves)| == 2
    ensures old(x.decoding).None? && (old(x.waves)[0].state.ReadReady? || old(x.waves)[1].state.ReadReady?) ==>
              X.WorkLeft(x.View()) < old(X.WorkLeft(x.View()))
    ensures |x.slots| == |old(x.slots)| == 2
    ensures forall i | 0 <= i < 2 && !old(x.slots)[i].state.Rendering? :: x.slots[i] == old(x.slots)[i]
  {
    hide X.ExecOk, L.Inv, X.WorkLeft;
    InvShape(cfg, m);
    ghost var none := x.decoding.None?;
    x.StartDecode();
    e := m;
    if none && x.decoding.Some? {
      ghost var step := L.DecodeStep(x.decoding.value);
      L.StepKeepsInv(cfg, m, step);
      ReachesBy(cfg, l, m, step);
      e := L.Do(cfg, m, step);
    }
  }

  // --- The step ------------------------------------------------------------------------------------------------

  /** Wave w is the first free one. */
  ghost predicate FirstFree(waves: seq<X.Wave>, w: nat) {
    w < |waves| && waves[w].state.InputFree? && forall k | 0 <= k < w :: !waves[k].state.InputFree?
  }

  ghost predicate SomeDispatchable(slots: seq<X.Slot>) {
    exists i :: 0 <= i < |slots| && X.Dispatchable(slots[i])
  }

  /** The outside gives reason to stop with this status. */
  ghost predicate Reason(o: Outside, status: Status) {
    (status in o.accepted && status != AGAIN) || Some(status) in o.polled
  }

  /** Free waves are sent out, the first one first. */
  method SendBoth(x: X.CpuExecutor, o: Outside, ghost cfg: L.Config, ghost l: L.Loader, ghost m: L.Loader)
    returns (status: Status, ghost e: L.Loader)
    requires Mirrors(x, cfg, m) && m.status == OK && Reaches(cfg, l, m) && |o.accepted| == 2
    modifies x
    ensures Mirrors(x, cfg, e) && Reaches(cfg, l, e) && e == m.(exec := x.View(), status := status)
    ensures x.batches == old(x.batches)
    ensures x.decodeDone == old(x.decodeDone) && x.decoding == old(x.decoding)
    ensures X.WorkLeft(x.View()) < old(X.WorkLeft(x.View())) || x.View() == old(x.View())
    ensures |x.waves| == |old(x.waves)| == 2
    ensures forall w | 0 <= w < 2 && !old(x.waves)[w].state.InputFree? :: x.waves[w] == old(x.waves)[w]
    ensures status == OK || (status in o.accepted && status != AGAIN)
    ensures old(SomeDispatchable(x.slots)) ==>
              forall w: nat | FirstFree(old(x.waves), w) ::
                if o.accepted[w] == OK then X.WorkLeft(x.View()) < old(X.WorkLeft(x.View()))
                else o.accepted[w] == AGAIN || status == o.accepted[w]
    ensures |x.slots| == |old(x.slots)| == 2
    ensures forall i | 0 <= i < 2 && !old(x.slots)[i].state.Rendering? :: x.slots[i] == old(x.slots)[i]
  {
    hide X.CpuExecutor.Valid, L.Inv, X.WorkLeft, Reaches;
    InvShape(cfg, m);
    ghost var some := SomeDispatchable(x.slots);
    assert some ==> X.Dispatchable(x.slots[0]) || X.Dispatchable(x.slots[1]);
    status, e := Dispatch(x, 0, o.accepted[0], cfg, l, m);
    InvShape(cfg, e);
    if status != OK && status != AGAIN { return; }
    status, e := Dispatch(x, 1, o.accepted[1], cfg, l, e);
    InvShape(cfg, e);
    if status == AGAIN { status := OK; }
  }

  /** Arrived reads are noted, and the oldest wave that is ready goes to the decoder. */
  method PollBoth(x: X.CpuExecutor, o: Outside, ghost cfg: L.Config, ghost l: L.Loader, ghost m: L.Loader)
    returns (status: Status, ghost e: L.Loader)
    requires Mirrors(x, cfg, m) && m.status == OK && Reaches(cfg, l, m) && |o.polled| == 2
    modifies x
    ensures Mirrors(x, cfg, e) && Reaches(cfg, l, e)
    ensures x.batches == old(x.batches)
    ensures e == m.(exec := x.View(), status := if status == AGAIN then OK else status)
    ensures X.WorkLeft(x.View()) < old(X.WorkLeft(x.View())) || x.View() == old(x.View())
    ensures status == OK || Some(status) in o.polled
    ensures |old(x.waves)| == 2
    ensures status == OK ==>
              forall w | 0 <= w < 2 && old(x.waves)[w].state.Reading? ::
                || o.polled[w] == None
                || (o.polled[w] == Some(OK) && X.WorkLeft(x.View()) < old(X.WorkLeft(x.View())))
    ensures status == OK && old(x.decoding).None? ==>
              forall w | 0 <= w < 2 && old(x.waves)[w].state.ReadReady? ::
                X.WorkLeft(x.View()) < old(X.WorkLeft(x.View()))
    ensures |x.slots| == |old(x.slots)| == 2
    ensures forall i | 0 <= i < 2 && !old(x.slots)[i].state.Rendering? :: x.slots[i] == old(x.slots)[i]
  {
    hide X.CpuExecutor.Valid, L.Inv, X.WorkLeft, Reaches;
    InvShape(cfg, m);
    status, e := Poll(x, 0, o.polled[0], cfg, l, m);
    if status != OK { return; }
    InvShape(cfg, e);
    status, e := Poll(x, 1, o.polled[1], cfg, l, e);
    if status != OK { return; }
    InvShape(cfg, e);
    e := StartDecode(x, cfg, l, e);
  }

  /** A batch is being rendered. */
  ghost predicate Busy(slots: seq<X.Slot>) {
    exists i :: 0 <= i < |slots| && slots[i].state.Rendering?
  }

  /** Reads are accepted and have arrived. */
  ghost predicate Smooth(o: Outside) {
    o.accepted == [OK, OK] && o.polled == [Some(OK), Some(OK)]
  }

  /** Reads are under way, or a wave waits for the decoder, or there are reads for the first wave. */
  ghost predicate Movable(e: X.Exec) {
    || (exists w :: 0 <= w < |e.waves| && (e.waves[w].state.Reading? || e.waves[w].state.ReadReady?))
    || (FirstFree(e.waves, 0) && SomeDispatchable(e.slots))
  }

  lemma CanGoOn(cfg: L.Config, l: L.Loader)
    requires L.Inv(cfg, l) && Busy(l.exec.slots)
    ensures l.exec.decoding.Some? || Movable(l.exec)
  {
    hide L.InSequence, X.SlotsOk, X.WavesOk, X.BuffersOk, X.SlotOrder, X.BudgetOk;
    var i :| 0 <= i < |l.exec.slots| && l.exec.slots[i].state.Rendering?;
    if !X.Outstanding(l.exec) { X.NeverStuck(cfg.exec, cfg.fixed, l.exec, i); }
  }

  lemma FreedMovable(e: X.Exec, e': X.Exec)
    requires e'.waves == e.waves && |e'.slots| == |e.slots|
    requires forall i | 0 <= i < |e.slots| && !e.slots[i].state.Held? :: e'.slots[i] == e.slots[i]
    ensures Movable(e) ==> Movable(e')
    ensures SomeDispatchable(e.slots) ==> SomeDispatchable(e'.slots)
  {
    if SomeDispatchable(e.slots) {
      var i :| 0 <= i < |e.slots| && X.Dispatchable(e.slots[i]);
      assert X.Dispatchable(e'.slots[i]);
    }
  }

  /** What follows the collection of a decode. */
  method SendAndPoll(x: X.CpuExecutor, o: Outside, ghost cfg: L.Config, ghost l: L.Loader, ghost m: L.Loader)
    returns (status: Status, ghost e: L.Loader)
    requires Mirrors(x, cfg, m) && m.status == OK && Reaches(cfg, l, m) && |o.accepted| == |o.polled| == 2
    modifies x
    ensures Mirrors(x, cfg, e) && Reaches(cfg, l, e) && x.batches == old(x.batches)
    ensures e == m.(exec := x.View(), status := if status == AGAIN then OK else status)
    ensures X.WorkLeft(x.View()) < old(X.WorkLeft(x.View())) || x.View() == old(x.View())
    ensures status == OK || Reason(o, status)
    ensures status == OK ==> ReadsWell(old(x.waves), o) && SendsWell(old(x.View()), o)
    ensures status == OK && Smooth(o) && old(x.decoding).None? && Movable(old(x.View())) ==>
              X.WorkLeft(x.View()) < old(X.WorkLeft(x.View()))
    ensures |x.slots| == |old(x.slots)| == 2
    ensures forall i | 0 <= i < 2 && !old(x.slots)[i].state.Rendering? :: x.slots[i] == old(x.slots)[i]
  {
    hide X.CpuExecutor.Valid, L.Inv, X.WorkLeft, Reaches, X.Dispatchable;
    InvShape(cfg, m);
    status, e := SendBoth(x, o, cfg, l, m);
    if status != OK { return; }
    status, e := PollBoth(x, o, cfg, l, e);
  }

  /** No reads that were under way have failed. */
  ghost predicate ReadsWell(waves: seq<X.Wave>, o: Outside) {
    forall w | 0 <= w < |waves| && w < |o.polled| && waves[w].state.Reading? ::
      o.polled[w] == None || o.polled[w] == Some(OK)
  }

  /** If there are reads to send, the first free wave was not refused for good. */
  ghost predicate SendsWell(e: X.Exec, o: Outside) {
    SomeDispatchable(e.slots) ==>
      forall w: nat | FirstFree(e.waves, w) && w < |o.accepted| :: o.accepted[w] == OK || o.accepted[w] == AGAIN
  }

  /** One call of the executor's step function is a run of the machine. A chunk that could not be decoded decides
      the status; otherwise it is that of a refused dispatch or of failed reads, if there are any. Unless reads or
      a decode are still under way, a call brings every batch closer to its end. */
  method Step(x: X.CpuExecutor, o: Outside, ghost cfg: L.Config, ghost l: L.Loader)
    returns (status: Status, ghost e: L.Loader)
    requires Mirrors(x, cfg, l) && l.status == OK && Fits(x, o)
    modifies x
    ensures Mirrors(x, cfg, e) && Reaches(cfg, l, e) && x.batches == old(x.batches)
    ensures e == l.(exec := x.View(), status := if status == AGAIN then OK else status)
    ensures old(x.decoding.Some? && x.decodeDone) && X.FirstBad(o.results) != OK ==>
              status == X.FirstBad(o.results) && x.View() == old(x.View())
    ensures status == OK || Reason(o, status)
              || (old(x.decoding.Some? && x.decodeDone) && status == X.FirstBad(o.results))
    ensures status == OK ==> ReadsWell(old(x.waves), o)
    ensures status == OK && old(x.decoding.None? || !x.decodeDone) ==> SendsWell(old(x.View()), o)
    ensures status == OK && old(Busy(x.slots)) && old(x.decoding.Some? ==> x.decodeDone) && Smooth(o) ==>
              X.WorkLeft(x.View()) < old(X.WorkLeft(x.View()))
    ensures |x.slots| == |old(x.slots)| == |old(x.refs)| == 2
    ensures !(old(x.decoding.Some? && x.decodeDone) && X.FirstBad(o.results) != OK) ==>
              forall i | 0 <= i < 2 && old(x.slots)[i].state.Held? ::
                x.slots[i] == X.FreedIf(old(x.slots)[i], old(x.refs)[i] == 1)
  {
    hide X.CpuExecutor.Valid, L.Inv, X.WorkLeft, Reaches, X.Dispatchable, Movable, Busy, SomeDispatchable, FirstFree;
    ReachesItself(cfg, l);
    InvShape(cfg, l);
    ghost var was := x.View();
    if Busy(was.slots) { CanGoOn(cfg, l); }
    status, e := Collect(x, o.results, cfg, l, l);
    if status != OK { return; }
    InvShape(cfg, e);
    ghost var taken := x.View();
    e := FreeHeld(x, cfg, l, e);
    FreedMovable(taken, x.View());
    status, e := SendAndPoll(x, o, cfg, l, e);
  }

  // --- Finishing --------------------------------------------------------------------------------------------------

  lemma {:induction false} NoneBad(n: nat)
    ensures X.FirstBad(seq(n, _ => OK)) == OK
  {
    if n > 0 {
      assert seq(n, _ => OK)[1..] == seq(n - 1, _ => OK);
      NoneBad(n - 1);
    }
  }

  /** From every state that a run can lead to: if the store accepts and delivers all reads and all chunks can be
      decoded, finitely many calls finish every submitted batch, and the next one can be taken. */
  method FinishAll(x: X.CpuExecutor, ghost cfg: L.Config, ghost l: L.Loader) returns (ghost e: L.Loader)
    requires Mirrors(x, cfg, l) && l.status == OK
    modifies x
    ensures Mirrors(x, cfg, e) && Reaches(cfg, l, e) && e == l.(exec := x.View())
    ensures x.batches == old(x.batches)
    ensures |x.slots| == 2 && forall i | 0 <= i < 2 :: !x.slots[i].state.Rendering?
    ensures x.taken == old(x.taken) && x.submitted == old(x.submitted)
    ensures x.taken < x.submitted ==>
              exists i: nat :: i < 2 && x.slots[i].batch == x.taken && L.Enabled(cfg, e, L.PopStep(i))
  {
    hide X.CpuExecutor.Valid, L.Inv, X.WorkLeft, Reaches, L.Enabled;
    InvShape(cfg, l);
    ReachesItself(cfg, l);
    e := l;
    var busy := x.slots[0].state.Rendering? || x.slots[1].state.Rendering?;
    while busy
      invariant Mirrors(x, cfg, e) && Reaches(cfg, l, e) && e == l.(exec := x.View()) && X.Shape(x.View())
      invariant x.batches == old(x.batches)
      invariant busy <==> x.slots[0].state.Rendering? || x.slots[1].state.Rendering?
      decreases X.WorkLeft(x.View())
    {
      var n := 0;
      if x.decoding.Some? {
        DecodingKnown(cfg, e);
        n := |x.waves[x.decoding.value].chunks|;
        x.DecodeFinished();
      }
      NoneBad(n);
      var o := Outside(seq(n, _ => OK), [OK, OK], [Some(OK), Some(OK)]);
      ghost var before := e;
      var status: Status;
      status, e := Step(x, o, cfg, before);
      Through(cfg, l, before, e);
      InvShape(cfg, e);
      busy := x.slots[0].state.Rendering? || x.slots[1].state.Rendering?;
    }
    Counted(cfg, l);
    Counted(cfg, e);
    if e.exec.taken < e.exec.submitted { NextFinished(cfg, e); }
  }

  /** The machine's own counts are those of the executor. */
  lemma Counted(cfg: L.Config, l: L.Loader)
    requires L.Inv(cfg, l)
    ensures l.exec.submitted == l.nextBatch && l.exec.taken == |l.popped|
  {
    hide X.ExecOk;
  }

  lemma NextFinished(cfg: L.Config, l: L.Loader)
    requires L.Inv(cfg, l) && l.status == OK && l.exec.taken < l.exec.submitted
    requires X.Shape(l.exec) && forall i | 0 <= i < 2 :: !l.exec.slots[i].state.Rendering?
    ensures exists i: nat :: i < 2 && l.exec.slots[i].batch == l.exec.taken && L.Enabled(cfg, l, L.PopStep(i))
  {
    hide L.InSequence, X.SlotsOk, X.WavesOk, X.BuffersOk, X.BudgetOk;
    assert X.InSlots(l.exec.slots, l.exec.taken);
    var i: nat :| i < 2 && X.Pending(l.exec.slots[i]) && l.exec.slots[i].batch == l.exec.taken;
    assert L.Enabled(cfg, l, L.PopStep(i));
  }

  lemma Through(cfg: L.Config, l: L.Loader, m: L.Loader, e: L.Loader)
    requires Reaches(cfg, l, m) && Reaches(cfg, m, e)
    ensures Reaches(cfg, l, e)
  {
    var run :| RunTo(cfg, l, run, m);
    var more :| RunTo(cfg, m, more, e);
    Joined(cfg, l, run, more);
    assert RunTo(cfg, l, run + more, e);
  }

  lemma {:induction false} Joined(cfg: L.Config, l: L.Loader, run: seq<L.Step>, more: seq<L.Step>)
    requires L.RunFrom(cfg, l, run) && L.RunFrom(cfg, L.EndOf(cfg, l, run), more)
    ensures L.RunFrom(cfg, l, run + more)
    ensures L.EndOf(cfg, l, run + more) == L.EndOf(cfg, L.EndOf(cfg, l, run), more)
    decreases |run|
  {
    hide L.Enabled, L.Do;
    if run == [] {
      assert [] + more == more;
    } else {
      assert (run + more)[1..] == run[1..] + more;
      Joined(cfg, L.Do(cfg, l, run[0]), run[1..], more);
    }
  }

  // --- Handing out --------------------------------------------------------------------------------------------------

  /** pop takes the next batch in sequence as soon as it is finished. */
  method TakeNext(x: X.CpuExecutor, memory: bool, ghost cfg: L.Config, ghost l: L.Loader)
    returns (status: Status, batch: nat, ghost e: L.Loader)
    requires Mirrors(x, cfg, l) && l.status == OK
    modifies x
    ensures Mirrors(x, cfg, e) && Reaches(cfg, l, e) && |old(x.slots)| == |x.slots| == 2
    ensures status == if X.NextNotReady(old(x.slots), old(x.taken)) then AGAIN else if memory then OK else OOM
    ensures status != OK ==> e == l && x.View() == old(x.View())
    ensures status == OK ==>
              && batch == |l.popped| < |l.planner.batches|
              && e == l.(exec := x.View(), popped := l.popped + [l.planner.batches[batch]])
              && x.taken == old(x.taken) + 1 && x.submitted == old(x.submitted)
              && batch !in old(x.batches) && batch in x.batches && x.batches[batch].refs == 1
              && x.batches - {batch} == old(x.batches)
              && forall i | 0 <= i < 2 :: x.slots[i].state.Rendering? ==> old(x.slots)[i].state.Rendering?
  {
    hide X.ExecOk, L.Inv;
    InvShape(cfg, l);
    Counted(cfg, l);
    ReachesItself(cfg, l);
    e := l;
    status, batch := x.Take(memory);
    if status == OK {
      ghost var i := x.batches[batch].slot;
      L.PopKeeps(cfg, l, i);
      ReachesBy(cfg, l, l, L.PopStep(i));
      HasHeld(cfg, l);
      e := L.Do(cfg, l, L.PopStep(i));
      assert x.batches - {batch} == old(x.batches);
    }
  }

  lemma HasHeld(cfg: L.Config, l: L.Loader)
    requires L.Inv(cfg, l)
    ensures |l.held| == 2
  {
    hide X.ExecOk;
  }

  /** The caller lets go of its batch. */
  method LetGo(x: X.CpuExecutor, batch: nat, ghost cfg: L.Config, ghost l: L.Loader) returns (ghost e: L.Loader)
    requires Mirrors(x, cfg, l) && batch in x.batches
    modifies x
    ensures Mirrors(x, cfg, e) && Reaches(cfg, l, e) && e == l.(exec := x.View())
    ensures x.slots == old(x.slots) && x.taken == old(x.taken) && x.submitted == old(x.submitted)
    ensures old(x.batches)[batch].refs == 1 ==> x.batches == old(x.batches) - {batch}
  {
    hide X.ExecOk, L.Inv;
    InvShape(cfg, l);
    Referred(cfg, l, batch);
    ReachesItself(cfg, l);
    L.StepKeepsInv(cfg, l, L.ReleaseStep(batch));
    ReachesBy(cfg, l, l, L.ReleaseStep(batch));
    x.Release(batch);
    e := L.Do(cfg, l, L.ReleaseStep(batch));
  }

  /** The caller takes another reference to its batch. */
  method Share(x: X.CpuExecutor, batch: nat, ghost cfg: L.Config, ghost l: L.Loader) returns (ghost e: L.Loader)
    requires Mirrors(x, cfg, l) && batch in x.batches
    modifies x
    ensures Mirrors(x, cfg, e) && Reaches(cfg, l, e) && e == l.(exec := x.View())
    ensures x.batches == old(x.batches)[batch := old(x.batches)[batch].(refs := old(x.batches)[batch].refs + 1)]
  {
    hide X.ExecOk, L.Inv;
    ReachesItself(cfg, l);
    L.StepKeepsInv(cfg, l, L.RetainStep(batch));
    ReachesBy(cfg, l, l, L.RetainStep(batch));
    x.Retain(batch);
    e := L.Do(cfg, l, L.RetainStep(batch));
  }

  lemma Referred(cfg: L.Config, l: L.Loader, b: nat)
    requires L.Inv(cfg, l) && b in l.exec.batches
    ensures X.Shape(l.exec) && l.exec.batches[b].slot < 2
  {
    hide L.InSequence;
    X.LiveHasRef(l.exec, b);
  }

  /** All submitted batches are taken, in order, and let go. */
  method HandOutAll(x: X.CpuExecutor, ghost cfg: L.Config, ghost l: L.Loader) returns (ghost e: L.Loader)
    requires Mirrors(x, cfg, l) && l.status == OK && x.batches == map[]
    modifies x
    ensures Mirrors(x, cfg, e) && Reaches(cfg, l, e) && e == l.(exec := x.View(), popped := e.popped)
    ensures x.batches == map[] && x.taken == x.submitted == old(x.submitted)
    ensures |x.slots| == 2 && forall i | 0 <= i < 2 :: !x.slots[i].state.Rendering?
  {
    hide X.ExecOk, L.Inv, Reaches, L.Enabled;
    e := FinishAll(x, cfg, l);
    Ordered(cfg, e);
    var status := OK;
    while status == OK
      invariant Mirrors(x, cfg, e) && Reaches(cfg, l, e) && e == l.(exec := x.View(), popped := e.popped)
      invariant x.batches == map[] && x.taken <= x.submitted == old(x.submitted)
      invariant |x.slots| == 2 && forall i | 0 <= i < 2 :: !x.slots[i].state.Rendering?
      invariant status != OK ==> x.taken == x.submitted
      decreases x.submitted - x.taken, status == OK
    {
      InvShape(cfg, e);
      if e.exec.taken < e.exec.submitted { NextReady(cfg, e); }
      ghost var before := e;
      var batch: nat;
      status, batch, e := TakeNext(x, true, cfg, before);
      Through(cfg, l, before, e);
      Ordered(cfg, e);
      if status == OK {
        before := e;
        e := LetGo(x, batch, cfg, before);
        Through(cfg, l, before, e);
      }
    }
  }

  lemma Ordered(cfg: L.Config, l: L.Loader)
    requires L.Inv(cfg, l)
    ensures l.exec.taken <= l.exec.submitted
  {
    hide L.InSequence, X.SlotsOk, X.WavesOk, X.BuffersOk, X.BudgetOk;
  }

  lemma NextReady(cfg: L.Config, l: L.Loader)
    requires L.Inv(cfg, l) && l.exec.taken < l.exec.submitted
    requires X.Shape(l.exec) && forall i | 0 <= i < 2 :: !l.exec.slots[i].state.Rendering?
    ensures !X.NextNotReady(l.exec.slots, l.exec.taken)
  {
    hide L.InSequence, X.SlotsOk, X.WavesOk, X.BuffersOk, X.BudgetOk;
    assert X.InSlots(l.exec.slots, l.exec.taken);
  }

  // --- Submitting ---------------------------------------------------------------------------------------------------

  ghost predicate ItemsOk(items: seq<Items.Item>) {
    |items| <= U32_MAX && forall i | 0 <= i < |items| :: Items.ItemOk(items[i])
  }

  /** The plan of a batch fits an executor that is otherwise idle. */
  ghost predicate Renderable(cfg: L.Config, rows: L.Rows) {
    var items := cfg.items(rows);
    && items != [] && ItemsOk(items) && X.AllFit(cfg.exec, items)
    && cfg.fixed + C.Need(|items|) <= cfg.exec.maxMemory
  }

  /** The oldest prepared plan is submitted under the next number. AGAIN leaves it where it is, any other refusal
      stops the loader. */
  method SubmitNext(x: X.CpuExecutor, cfg: L.Config, rows: L.Rows, batch: nat, memory: bool, ghost l: L.Loader)
    returns (status: Status, ghost e: L.Loader)
    requires Mirrors(x, cfg, l) && l.status == OK && l.ring != [] && rows == l.ring[0] && batch == l.nextBatch
    requires ItemsOk(cfg.items(rows))
    modifies x
    ensures Mirrors(x, cfg, e) && Reaches(cfg, l, e) && x.batches == old(x.batches) && |old(x.slots)| == 2
    ensures status == OK ==>
              && e.ring == l.ring[1..] && e.nextBatch == l.nextBatch + 1 && e.planner == l.planner
              && e.popped == l.popped && e.status == OK
    ensures status != OK ==> e == l.(status := if status == AGAIN then OK else status)
    ensures memory && Renderable(cfg, rows) && old(x.HasFree()) && old(x.committed) == cfg.fixed ==> status == OK
  {
    hide X.ExecOk, L.Inv, C.PlanOk, C.PlanMerged, C.Need, X.AllFit;
    InvShape(cfg, l);
    Counted(cfg, l);
    ReachesItself(cfg, l);
    var items := cfg.items(rows);
    status := x.Submit(items, batch, memory);
    ghost var step := L.FailStep(status);
    if status == OK {
      ghost var i: nat, p, m: Items.Merge :|
        && i < 2 && l.exec.slots[i].state.Free? && C.PlanOk(cfg.exec, items, p, m.index)
        && C.PlanMerged(cfg.exec, items, p, m) && x.View() == X.Submitted(l.exec, i, items, p, m.index, batch);
      WithinBudget(cfg, x);
      step := L.SubmitStep(i, p, m.index);
    }
    L.StepKeepsInv(cfg, l, step);
    ReachesBy(cfg, l, l, step);
    e := L.Do(cfg, l, step);
  }

  lemma WithinBudget(cfg: L.Config, x: X.CpuExecutor)
    requires x.Valid() && x.cfg == cfg.exec
    ensures x.committed <= cfg.exec.maxMemory
  {
  }

  // --- Every prepared batch can be popped ---------------------------------------------------------------------------

  lemma IdleIsFree(cfg: L.Config, l: L.Loader)
    requires L.Inv(cfg, l) && X.Shape(l.exec) && l.exec.batches == map[] && l.exec.taken == l.exec.submitted
    requires forall i | 0 <= i < 2 :: !l.exec.slots[i].state.Rendering?
    ensures l.exec.committed == cfg.fixed
    ensures forall i | 0 <= i < 2 :: l.exec.refs[i] == 1 && (l.exec.slots[i].state.Free? || l.exec.slots[i].state.Held?)
  {
    hide L.InSequence, X.WavesOk;
    forall i: nat | i < 2 ensures l.exec.refs[i] == 1 && l.exec.slots[i].plan == X.NO_PLAN {
      assert X.BufferOk(l.exec.slots, l.exec.refs, l.exec.batches, l.exec.stopped, i);
      assert X.LiveOf(l.exec.batches, i) == {};
      assert X.SlotOk(cfg.exec, l.exec.slots[i], l.exec.indexes[i]);
    }
  }

  /** From every state that a run can lead to, once the caller has let go of its batches: if reads and decodes
      succeed and the plans in the ring fit an idle executor, every planned batch can be popped, in order. */
  method PopAll(x: X.CpuExecutor, cfg: L.Config, ring: seq<L.Rows>, first: nat, ghost l: L.Loader)
    returns (ghost e: L.Loader)
    requires Mirrors(x, cfg, l) && l.status == OK && x.batches == map[] && ring == l.ring && first == l.nextBatch
    requires forall k | 0 <= k < |ring| :: Renderable(cfg, ring[k])
    modifies x
    ensures Mirrors(x, cfg, e) && Reaches(cfg, l, e)
    ensures e.status == OK && e.ring == [] && e.planner == l.planner && e.popped == l.planner.batches
  {
    hide X.ExecOk, L.Inv, Reaches, Renderable;
    e := HandOutAll(x, cfg, l);
    for k := 0 to |ring|
      invariant Mirrors(x, cfg, e) && Reaches(cfg, l, e) && e.status == OK && e.planner == l.planner
      invariant e.ring == ring[k..] && e.nextBatch == first + k
      invariant x.batches == map[] && x.taken == x.submitted
      invariant |x.slots| == 2 && forall i | 0 <= i < 2 :: !x.slots[i].state.Rendering?
    {
      InvShape(cfg, e);
      IdleIsFree(cfg, e);
      ghost var before := e;
      e := FreeNow(x, cfg, before);
      Through(cfg, l, before, e);
      before := e;
      RenderableOk(cfg, ring[k]);
      var status: Status;
      status, e := SubmitNext(x, cfg, ring[k], first + k, true, before);
      Through(cfg, l, before, e);
      before := e;
      e := HandOutAll(x, cfg, before);
      Through(cfg, l, before, e);
    }
    AllPopped(cfg, e);
  }

  lemma RenderableOk(cfg: L.Config, rows: L.Rows)
    requires Renderable(cfg, rows)
    ensures ItemsOk(cfg.items(rows))
  {
  }

  method FreeNow(x: X.CpuExecutor, ghost cfg: L.Config, ghost l: L.Loader) returns (ghost e: L.Loader)
    requires Mirrors(x, cfg, l) && l.status == OK && X.Shape(l.exec)
    requires forall i | 0 <= i < 2 :: x.refs[i] == 1 && (x.slots[i].state.Free? || x.slots[i].state.Held?)
    modifies x
    ensures Mirrors(x, cfg, e) && Reaches(cfg, l, e) && e == l.(exec := x.View())
    ensures x.batches == old(x.batches) && x.committed == old(x.committed)
    ensures x.taken == old(x.taken) && x.submitted == old(x.submitted)
    ensures |x.slots| == 2 && x.HasFree() && forall i | 0 <= i < 2 :: x.slots[i].state.Free?
  {
    hide X.ExecOk, L.Inv, Reaches;
    ReachesItself(cfg, l);
    e := FreeHeld(x, cfg, l, l);
  }

  lemma AllPopped(cfg: L.Config, l: L.Loader)
    requires L.Inv(cfg, l) && l.ring == [] && l.exec.taken == l.exec.submitted
    ensures l.popped == l.planner.batches
  {
    hide X.ExecOk;
    assert l.planner.batches[..|l.planner.batches|] == l.planner.batches;
  }
}
