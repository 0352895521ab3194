/** The scheduler: plans flow from the planner through a ring of prepared batches to the
    executor, and batches come out in the order of their numbers. */
module Pipelines {
  import opened Statuses
  import Ring = Rings

  /** A prepared plan, named by the samples of its rows. */
  type Rows = seq<nat>

  /** What the planner answers when asked for the next plan. */
  datatype Answer = Plan(rows: Rows) | NoPlan(code: Status)

  /** The plans among the first n answers, up to the first one that is not a plan. */
  ghost function Plans(answers: seq<Answer>, n: nat): seq<Rows>
    requires n <= |answers| && forall k | 0 <= k < n :: answers[k].Plan?
  {
    if n == 0 then [] else Plans(answers, n - 1) + [answers[n - 1].rows]
  }

  lemma {:induction false} PlansLength(answers: seq<Answer>, n: nat)
    requires n <= |answers| && forall k | 0 <= k < n :: answers[k].Plan?
    ensures |Plans(answers, n)| == n
  {
    if n > 0 { PlansLength(answers, n - 1); }
  }

  class Pipeline {
    var plans: array<Rows>
    var head: nat
    var count: nat
    var nextBatch: nat
    var failed: Status
    /** All plans the planner has made, in order. */
    ghost var produced: seq<Rows>

    /** The ring holds the plans made and not yet submitted; batch numbers count submissions. */
    ghost predicate Valid()
      reads this, plans
    {
      && nextBatch <= |produced| && count == |produced| - nextBatch
      && head < plans.Length && Ring.Holds(plans[..], head, produced[nextBatch..])
    }

    constructor (prepared: nat)
      requires prepared > 0
      ensures Valid() && fresh(plans) && plans.Length == prepared && produced == [] && nextBatch == 0 && failed == OK
    {
      plans := new Rows[prepared](_ => []);
      head, count, nextBatch, failed := 0, 0, 0, OK;
      produced := [];
    }

    /** Fills the ring until it is full or the planner has no plan. AGAIN from the planner
        only ends the round; any other refusal is a failure. */
    method Prepare(answers: seq<Answer>) returns (status: Status, asked: nat)
      requires Valid() && forall k | 0 <= k < |answers| && answers[k].NoPlan? :: answers[k].code != OK
      modifies this`count, this`produced, plans
      ensures Valid() && asked <= |answers| && nextBatch == old(nextBatch)
      ensures forall k | 0 <= k < asked :: answers[k].Plan?
      ensures produced == old(produced) + Plans(answers, asked)
      ensures status != OK ==>
                count < plans.Length && asked < |answers| && answers[asked] == NoPlan(status) && status != AGAIN
      ensures status == OK && count < plans.Length && asked < |answers| ==> answers[asked] == NoPlan(AGAIN)
    {
      asked := 0;
      while count < plans.Length && asked < |answers|
        invariant Valid() && asked <= |answers| && nextBatch == old(nextBatch) && plans == old(plans)
                    && head == old(head)
        invariant forall k | 0 <= k < asked :: answers[k].Plan?
        invariant produced == old(produced) + Plans(answers, asked)
        decreases |answers| - asked
      {
        match answers[asked]
        case NoPlan(code) =>
          if code == AGAIN { return OK, asked; }
          return code, asked;
        case Plan(rows) =>
          Append(rows);
          asked := asked + 1;
      }
      return OK, asked;
    }

    method Append(rows: Rows)
      requires Valid() && count < plans.Length
      modifies this`count, this`produced, plans
      ensures Valid() && produced == old(produced) + [rows] && count == old(count) + 1
    {
      ghost var was, waiting := plans[..], produced[nextBatch..];
      Ring.PushHolds(was, head, waiting, rows);
      var k := (head + count) % plans.Length;
      plans[k] := rows;
      assert plans[..] == was[Ring.At(head, |waiting|, |was|) := rows];
      count := count + 1;
      produced := produced + [rows];
      assert produced[nextBatch..] == waiting + [rows];
    }

    /** Hands plans to the executor, oldest first, until it refuses one or none is left.
        Batch k is submitted with the k-th plan the planner made. */
    method SubmitReady(answers: seq<Status>) returns (status: Status, submitted: seq<Rows>)
      requires Valid()
      modifies this`head, this`count, this`nextBatch, plans
      ensures Valid() && produced == old(produced)
      ensures nextBatch == old(nextBatch) + |submitted| <= |produced|
                && submitted == produced[old(nextBatch)..nextBatch]
      ensures status != OK ==> count > 0 && |submitted| < |answers| && answers[|submitted|] == status
      ensures status == OK ==> count == 0 || |submitted| == |answers|
      ensures forall k | 0 <= k < |submitted| :: k < |answers| && answers[k] == OK
    {
      submitted := [];
      while count > 0 && |submitted| < |answers|
        invariant Valid() && produced == old(produced) && plans == old(plans)
        invariant nextBatch == old(nextBatch) + |submitted| <= |produced|
                    && submitted == produced[old(nextBatch)..nextBatch]
        invariant |submitted| <= |answers| && forall k | 0 <= k < |submitted| :: answers[k] == OK
        decreases |answers| - |submitted|
      {
        var answer := answers[|submitted|];
        if answer != OK { return answer, submitted; }
        var rows := Remove();
        submitted := submitted + [rows];
      }
      return OK, submitted;
    }

    /** One step of the scheduler. The executor has answered `executor`, having changed something if `moved`; the
        planner and the executor answer the requests for plans and the submissions that follow. AGAIN only ends a
        stage; the first other error is kept for pop to report, and no step does anything after it. */
    method Step(stopping: bool, executor: Status, moved: bool, planner: seq<Answer>, submits: seq<Status>)
      returns (changed: bool, asked: nat, submitted: seq<Rows>)
      requires Valid() && |planner| >= plans.Length && |submits| >= plans.Length
      requires forall k | 0 <= k < |planner| && planner[k].NoPlan? :: planner[k].code != OK
      modifies this`head, this`count, this`nextBatch, this`failed, this`produced, plans
      ensures Valid() && plans == old(plans)
      ensures stopping || old(failed) != OK ==>
                unchanged(this) && unchanged(plans) && !changed && asked == 0 && submitted == []
      ensures !stopping && old(failed) == OK ==>
                && (changed <==> moved || asked > 0 || submitted != [] || failed != OK)
                && asked <= |planner| && (forall k | 0 <= k < asked :: planner[k].Plan?)
                && produced == old(produced) + Plans(planner, asked)
                && old(nextBatch) <= nextBatch <= |produced| && submitted == produced[old(nextBatch)..nextBatch]
                && |submitted| <= |submits| && (forall k | 0 <= k < |submitted| :: submits[k] == OK)
      ensures !stopping && old(failed) == OK && executor != OK && executor != AGAIN ==>
                failed == executor && asked == 0 && submitted == []
      ensures !stopping && old(failed) == OK && (executor == OK || executor == AGAIN) ==>
                if |produced| - old(nextBatch) < plans.Length && asked < |planner|
                    && planner[asked] != NoPlan(AGAIN) then
                  planner[asked] == NoPlan(failed) && failed != OK && submitted == []
                else if count > 0 then
                  |submitted| < |submits| && submits[|submitted|] != OK
                  && failed == if submits[|submitted|] == AGAIN then OK else submits[|submitted|]
                else
                  failed == OK
    {
      asked, submitted := 0, [];
      if stopping || failed != OK { return false, 0, []; }
      changed := moved;
      var status := if executor == AGAIN then OK else executor;
      if status == OK {
        RingBound();
        status, asked := Prepare(planner);
        PlansLength(planner, asked);
        RingBound();
        assert asked < |planner| || count == plans.Length;
        changed := changed || asked > 0;
      }
      if status == OK {
        status, submitted := SubmitReady(submits);
        assert status == OK ==> count == 0;
        changed := changed || submitted != [];
        if status == AGAIN { return; }
      }
      if status != OK {
        failed := status;
        changed := true;
      }
    }

    lemma RingBound()
      requires Valid()
      ensures count <= plans.Length
    {
    }

    method Remove() returns (rows: Rows)
      requires Valid() && count > 0
      modifies this`head, this`count, this`nextBatch, plans
      ensures Valid() && produced == old(produced) && plans == old(plans)
      ensures nextBatch == old(nextBatch) + 1 <= |produced| && rows == produced[old(nextBatch)]
    {
      ghost var was, waiting := plans[..], produced[nextBatch..];
      Ring.PopHolds(was, head, waiting, []);
      var k := head;
      assert Ring.At(head, 0, |was|) == k;
      rows := plans[k];
      plans[k] := [];
      assert plans[..] == was[k := []];
      Ring.WrappedBase(plans[..], head + 1, waiting[1..]);
      head := (head + 1) % plans.Length;
      count := count - 1;
      nextBatch := nextBatch + 1;
      assert produced[nextBatch..] == waiting[1..];
    }
  }
}
