/** The lookahead queue: a fixed ring of samples, first in first out. */
module Lookaheads {
  import opened Statuses
  import opened Rings

  /** A queued sample and its sequence number. */
  datatype Queued = Queued(query: nat, sample: nat)

  const CLEARED := Queued(0, 0)

  /** Moving the head past one element leaves the tail where it is. */
  lemma NextTail(head: nat, size: nat, capacity: nat)
    requires head < capacity && 0 < size
    ensures At(head, 0, capacity) == head
    ensures At((head + 1) % capacity, size - 1, capacity) == At(head, size, capacity)
  {
    ModPlus(head + 1, size - 1, capacity);
  }

  lemma NextFree(head: nat, size: nat, capacity: nat)
    requires capacity > 0
    ensures (At(head, size, capacity) + 1) % capacity == At(head, size + 1, capacity)
  {
    ModPlus(head + size, 1, capacity);
  }

  class Lookahead {
    var slots: array<Queued>
    var head: nat
    var tail: nat
    var size: nat
    ghost var contents: seq<Queued>

    ghost predicate Valid()
      reads this, slots
    {
      && Holds(slots[..], head, contents) && size == |contents| && head < slots.Length
      && tail == At(head, size, slots.Length)
    }

    constructor (capacity: nat)
      requires capacity > 0
      ensures Valid() && fresh(slots) && slots.Length == capacity && contents == []
    {
      slots := new Queued[capacity](_ => CLEARED);
      head, tail, size := 0, 0, 0;
      contents := [];
    }

    /** Appends a sample, unless the queue is full. */
    method Push(x: Queued) returns (ok: bool)
      requires Valid()
      modifies this, slots
      ensures Valid() && slots == old(slots)
      ensures ok <==> old(|contents|) < slots.Length
      ensures contents == if ok then old(contents) + [x] else old(contents)
    {
      if size == slots.Length { return false; }
      hide Holds, At;
      PushHolds(slots[..], head, contents, x);
      NextFree(head, size, slots.Length);
      ghost var was := slots[..];
      var k := tail;
      slots[k] := x;
      assert slots[..] == was[k := x];
      tail := (tail + 1) % slots.Length;
      size := size + 1;
      contents := contents + [x];
      return true;
    }

    /** Removes the oldest sample, if there is one. */
    method TryPop() returns (popped: Option<Queued>)
      requires Valid()
      modifies this, slots
      ensures Valid() && slots == old(slots)
      ensures old(contents) == [] ==> popped.None? && contents == []
      ensures old(contents) != [] ==> popped == Some(old(contents[0])) && contents == old(contents[1..])
    {
      if size == 0 { return None; }
      hide SlotIs;
      ghost var was := slots[..];
      var k := head;
      NextTail(head, size, slots.Length);
      PopHolds(was, head, contents, CLEARED);
      popped := Some(slots[k]);
      slots[k] := CLEARED;
      assert slots[..] == was[k := CLEARED];
      WrappedBase(slots[..], head + 1, contents[1..]);
      head := (head + 1) % slots.Length;
      size := size - 1;
      contents := contents[1..];
    }
  }
}
