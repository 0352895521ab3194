/** Ring buffers: a window of consecutive positions, taken modulo the capacity. */
module Rings {
  import opened Arith

  /** The slot of the i-th element of a window that starts at `base`. */
  function At(base: nat, i: nat, capacity: nat): (k: nat)
    requires capacity > 0
    ensures k < capacity
  {
    (base + i) % capacity
  }

  lemma ModPlus(x: nat, y: nat, n: nat)
    requires n > 0
    ensures (x % n + y) % n == (x + y) % n
  {
    DivBounds(x, n);
    DivBounds(x % n + y, n);
    var q, p := x / n, (x % n + y) / n;
    assert n * (q + p) == n * q + n * p;
    DivUnique(x + y, n, q + p);
  }

  /** Elements less than one capacity apart are in different slots. */
  lemma AtApart(base: nat, i: nat, j: nat, capacity: nat)
    requires i < j < i + capacity && capacity > 0
    ensures At(base, i, capacity) != At(base, j, capacity)
  {
    var x := base + i;
    DivBounds(x, capacity);
    var q, r := x / capacity, x % capacity + (j - i);
    assert capacity * (q + 1) == capacity * q + capacity;
    if r < capacity { DivUnique(base + j, capacity, q); } else { DivUnique(base + j, capacity, q + 1); }
  }

  ghost predicate SlotIs<T>(slots: seq<T>, base: nat, i: nat, x: T)
    requires slots != []
  {
    slots[At(base, i, |slots|)] == x
  }

  /** The ring holds `contents` from `base` on. */
  ghost predicate Holds<T>(slots: seq<T>, base: nat, contents: seq<T>) {
    && slots != [] && |contents| <= |slots|
    && forall i | 0 <= i < |contents| :: SlotIs(slots, base, i, contents[i])
  }

  lemma PushHolds<T>(slots: seq<T>, base: nat, contents: seq<T>, x: T)
    requires Holds(slots, base, contents) && |contents| < |slots|
    ensures Holds(slots[At(base, |contents|, |slots|) := x], base, contents + [x])
  {
    var slots', contents' := slots[At(base, |contents|, |slots|) := x], contents + [x];
    forall i | 0 <= i < |contents'| ensures SlotIs(slots', base, i, contents'[i]) {
      if i < |contents| {
        assert SlotIs(slots, base, i, contents[i]);
        AtApart(base, i, |contents|, |slots|);
      }
    }
  }

  lemma NextIs<T>(slots: seq<T>, base: nat, i: nat, x: T)
    requires slots != []
    ensures SlotIs(slots, base, i + 1, x) <==> SlotIs(slots, base + 1, i, x)
  {
    assert base + (i + 1) == (base + 1) + i;
  }

  /** Taking the first element, whatever is left in its slot. */
  lemma PopHolds<T>(slots: seq<T>, base: nat, contents: seq<T>, left: T)
    requires Holds(slots, base, contents) && contents != []
    ensures slots[At(base, 0, |slots|)] == contents[0]
    ensures Holds(slots[At(base, 0, |slots|) := left], base + 1, contents[1..])
    ensures Holds(slots, base + 1, contents[1..])
  {
    assert SlotIs(slots, base, 0, contents[0]);
    var slots' := slots[At(base, 0, |slots|) := left];
    forall i | 0 <= i < |contents| - 1
      ensures SlotIs(slots', base + 1, i, contents[1..][i]) && SlotIs(slots, base + 1, i, contents[1..][i])
    {
      assert SlotIs(slots, base, i + 1, contents[i + 1]);
      AtApart(base, 0, i + 1, |slots|);
      NextIs(slots, base, i, contents[i + 1]);
      NextIs(slots', base, i, contents[i + 1]);
    }
  }

  /** Only the base's slot matters. */
  lemma WrappedBase<T>(slots: seq<T>, base: nat, contents: seq<T>)
    requires Holds(slots, base, contents)
    ensures Holds(slots, base % |slots|, contents)
    ensures At(base % |slots|, |contents|, |slots|) == At(base, |contents|, |slots|)
  {
    forall i: nat ensures At(base % |slots|, i, |slots|) == At(base, i, |slots|) {
      ModPlus(base, i, |slots|);
    }
    forall i | 0 <= i < |contents| ensures SlotIs(slots, base % |slots|, i, contents[i]) {
      hide At;
      assert SlotIs(slots, base, i, contents[i]);
    }
  }
}
