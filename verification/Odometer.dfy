/** Mixed-radix odometers: the carry loop shared by the selection grid iterator
    and the chunk assembly loops, and the Cartesian product it walks. */
module Odometer {
  import opened Seqs

  import opened Statuses

  function Zeros(n: nat): (z: seq<nat>)
    ensures |z| == n
  {
    seq(n, _ => 0)
  }

  ghost predicate InRange(p: seq<nat>, lens: seq<nat>) {
    |p| == |lens| && forall d | 0 <= d < |p| :: p[d] < lens[d]
  }

  function Lengths(lists: seq<seq<nat>>): (lens: seq<nat>)
    ensures |lens| == |lists|
  {
    seq(|lists|, d requires 0 <= d < |lists| => |lists[d]|)
  }

  /** The digit vector after `p`, or None when every digit is at its maximum. */
  function Next(lens: seq<nat>, p: seq<nat>): (r: Option<seq<nat>>)
    requires |p| == |lens|
    ensures r.Some? ==> |r.value| == |p|
  {
    if p == [] then None
    else match Next(lens[1..], p[1..])
      case Some(t) => Some([p[0]] + t)
      case None => if p[0] + 1 < lens[0] then Some([p[0] + 1] + Zeros(|p| - 1)) else None
  }

  function Prepend(h: nat, tails: seq<seq<nat>>): (r: seq<seq<nat>>)
    ensures |r| == |tails|
  {
    seq(|tails|, i requires 0 <= i < |tails| => [h] + tails[i])
  }

  function PrependEach(heads: seq<nat>, tails: seq<seq<nat>>): seq<seq<nat>> {
    if heads == [] then [] else Prepend(heads[0], tails) + PrependEach(heads[1..], tails)
  }

  /** All coordinates whose d-th component is drawn from lists[d], first list slowest. */
  function Product(lists: seq<seq<nat>>): seq<seq<nat>> {
    if lists == [] then [[]] else PrependEach(lists[0], Product(lists[1..]))
  }

  /** The part of Product(lists) from digit vector `p` on. */
  function From(lists: seq<seq<nat>>, p: seq<nat>): seq<seq<nat>>
    requires InRange(p, Lengths(lists))
    decreases |lists|
  {
    if lists == [] then [[]]
    else
      assert InRange(p[1..], Lengths(lists[1..]));
      Prepend(lists[0][p[0]], From(lists[1..], p[1..])) + PrependEach(lists[0][p[0] + 1..], Product(lists[1..]))
  }

  function Pick(lists: seq<seq<nat>>, p: seq<nat>): (c: seq<nat>)
    requires InRange(p, Lengths(lists))
    ensures |c| == |lists|
  {
    seq(|lists|, d requires 0 <= d < |lists| => lists[d][p[d]])
  }

  lemma LengthsTail(lists: seq<seq<nat>>)
    requires lists != []
    ensures Lengths(lists[1..]) == Lengths(lists)[1..]
  {
  }

  lemma {:induction false} FromStart(lists: seq<seq<nat>>)
    requires forall d | 0 <= d < |lists| :: lists[d] != []
    ensures InRange(Zeros(|lists|), Lengths(lists))
    ensures From(lists, Zeros(|lists|)) == Product(lists)
    decreases |lists|
  {
    if lists != [] {
      FromStart(lists[1..]);
      assert Zeros(|lists|)[1..] == Zeros(|lists| - 1);
    }
  }

  lemma {:induction false} NextInRange(lens: seq<nat>, p: seq<nat>)
    requires InRange(p, lens)
    ensures Next(lens, p).Some? ==> InRange(Next(lens, p).value, lens)
    decreases |p|
  {
    if p != [] {
      NextInRange(lens[1..], p[1..]);
      var r := Next(lens, p);
      if r.Some? {
        forall d | 0 <= d < |p| ensures r.value[d] < lens[d] {
          if d > 0 { assert r.value[d] == r.value[1..][d - 1]; assert lens[d] == lens[1..][d - 1]; }
        }
      }
    }
  }

  lemma PrependSplit(h: nat, first: seq<nat>, rest: seq<seq<nat>>)
    ensures Prepend(h, [first] + rest) == [[h] + first] + Prepend(h, rest)
  {
  }

  lemma PickTail(lists: seq<seq<nat>>, p: seq<nat>)
    requires lists != [] && InRange(p, Lengths(lists))
    ensures InRange(p[1..], Lengths(lists[1..]))
    ensures Pick(lists, p) == [lists[0][p[0]]] + Pick(lists[1..], p[1..])
  {
  }

  lemma FromUnfolds(lists: seq<seq<nat>>, p: seq<nat>)
    requires lists != [] && InRange(p, Lengths(lists))
    ensures InRange(p[1..], Lengths(lists[1..]))
    ensures From(lists, p) ==
            Prepend(lists[0][p[0]], From(lists[1..], p[1..])) + PrependEach(lists[0][p[0] + 1..], Product(lists[1..]))
  {
    LengthsTail(lists);
  }

  /** When the tail digits wrap, the remaining product continues at the next head. */
  lemma FromWrapped(lists: seq<seq<nat>>, p: seq<nat>)
    requires lists != [] && InRange(p, Lengths(lists)) && p[0] + 1 < |lists[0]|
    ensures var q := [p[0] + 1] + Zeros(|p| - 1);
            && InRange(q, Lengths(lists))
            && From(lists, q) == PrependEach(lists[0][p[0] + 1..], Product(lists[1..]))
  {
    hide From, Product;
    var q, rest := [p[0] + 1] + Zeros(|p| - 1), lists[1..];
    assert q[1..] == Zeros(|rest|);
    forall d | 0 <= d < |rest| ensures rest[d] != [] { assert p[d + 1] < Lengths(lists)[d + 1]; }
    assert InRange(q, Lengths(lists));
    FromStart(rest);
    FromUnfolds(lists, q);
    assert lists[0][p[0] + 1..][1..] == lists[0][q[0] + 1..];
  }

  /** When only the tail digits move, the head stays. */
  lemma FromMovedTail(lists: seq<seq<nat>>, p: seq<nat>, t: seq<nat>)
    requires lists != [] && InRange(p, Lengths(lists)) && InRange(t, Lengths(lists[1..]))
    ensures InRange([p[0]] + t, Lengths(lists))
    ensures From(lists, [p[0]] + t) ==
            Prepend(lists[0][p[0]], From(lists[1..], t)) + PrependEach(lists[0][p[0] + 1..], Product(lists[1..]))
  {
    hide From, Product, PrependEach;
    assert ([p[0]] + t)[1..] == t;
    LengthsTail(lists);
    FromUnfolds(lists, [p[0]] + t);
  }

  /** One odometer step consumes exactly the head of the remaining product. */
  lemma {:induction false} FromStep(lists: seq<seq<nat>>, p: seq<nat>)
    requires InRange(p, Lengths(lists))
    ensures Next(Lengths(lists), p).Some? ==> InRange(Next(Lengths(lists), p).value, Lengths(lists))
    ensures From(lists, p) == [Pick(lists, p)] + Rest(lists, Next(Lengths(lists), p))
    decreases |lists|
  {
    NextInRange(Lengths(lists), p);
    if lists == [] {
      assert From(lists, p) == [Pick(lists, p)] + [];
    } else {
      LengthsTail(lists);
      PickTail(lists, p);
      FromStep(lists[1..], p[1..]);
      FromUnfolds(lists, p);
      StepWhole(lists, p);
    }
  }

  lemma StepWhole(lists: seq<seq<nat>>, p: seq<nat>)
    requires lists != [] && InRange(p, Lengths(lists)) && InRange(p[1..], Lengths(lists[1..]))
    requires Lengths(lists[1..]) == Lengths(lists)[1..]
    requires Pick(lists, p) == [lists[0][p[0]]] + Pick(lists[1..], p[1..])
    requires var n := Next(Lengths(lists[1..]), p[1..]);
             && (n.Some? ==> InRange(n.value, Lengths(lists[1..])))
             && From(lists[1..], p[1..]) == [Pick(lists[1..], p[1..])] + Rest(lists[1..], n)
    requires var m := Next(Lengths(lists), p); m.Some? ==> InRange(m.value, Lengths(lists))
    requires From(lists, p) ==
             Prepend(lists[0][p[0]], From(lists[1..], p[1..])) + PrependEach(lists[0][p[0] + 1..], Product(lists[1..]))
    ensures From(lists, p) == [Pick(lists, p)] + Rest(lists, Next(Lengths(lists), p))
  {
    hide Product, From, Pick, Next, PrependEach;
    var h := lists[0][p[0]];
    var n := Next(Lengths(lists[1..]), p[1..]);
    var moved, more := Prepend(h, Rest(lists[1..], n)), PrependEach(lists[0][p[0] + 1..], Product(lists[1..]));
    PrependSplit(h, Pick(lists[1..], p[1..]), Rest(lists[1..], n));
    StepHead(lists, p, n);
    assert ([Pick(lists, p)] + moved) + more == [Pick(lists, p)] + (moved + more);
  }

  ghost function Rest(lists: seq<seq<nat>>, n: Option<seq<nat>>): seq<seq<nat>>
    requires n.Some? ==> InRange(n.value, Lengths(lists))
  {
    if n.Some? then From(lists, n.value) else []
  }

  /** What remains after the head, in terms of what remains of the tail digits. */
  lemma StepHead(lists: seq<seq<nat>>, p: seq<nat>, n: Option<seq<nat>>)
    requires lists != [] && InRange(p, Lengths(lists))
    requires |p[1..]| == |Lengths(lists)[1..]| && n == Next(Lengths(lists)[1..], p[1..])
    requires n.Some? ==> InRange(n.value, Lengths(lists[1..]))
    requires var m := Next(Lengths(lists), p); m.Some? ==> InRange(m.value, Lengths(lists))
    ensures Prepend(lists[0][p[0]], Rest(lists[1..], n)) + PrependEach(lists[0][p[0] + 1..], Product(lists[1..]))
            == Rest(lists, Next(Lengths(lists), p))
  {
    hide Product, From;
    var h := lists[0][p[0]];
    if n.Some? {
      FromMovedTail(lists, p, n.value);
    } else if p[0] + 1 < |lists[0]| {
      FromWrapped(lists, p);
      assert Prepend(h, []) == [];
    } else {
      assert Prepend(h, []) == [];
      assert lists[0][p[0] + 1..] == [];
    }
  }

  // What the product contains, how long it is, and in which order.

  function LengthProduct(lens: seq<nat>): nat {
    if lens == [] then 1 else lens[0] * LengthProduct(lens[1..])
  }

  lemma {:induction false} LengthProductSnoc(lens: seq<nat>, n: nat)
    ensures LengthProduct(lens + [n]) == LengthProduct(lens) * n
    decreases |lens|
  {
    if lens == [] {
      assert lens + [n] == [n] && [n][1..] == [];
    } else {
      assert (lens + [n])[1..] == lens[1..] + [n];
      LengthProductSnoc(lens[1..], n);
    }
  }

  lemma {:induction false} PrependEachLength(heads: seq<nat>, tails: seq<seq<nat>>)
    ensures |PrependEach(heads, tails)| == |heads| * |tails|
    decreases |heads|
  {
    if heads != [] {
      PrependEachLength(heads[1..], tails);
      assert |heads| * |tails| == |tails| + (|heads| - 1) * |tails|;
    }
  }

  lemma {:induction false} ProductLength(lists: seq<seq<nat>>)
    ensures |Product(lists)| == LengthProduct(Lengths(lists))
    decreases |lists|
  {
    if lists != [] {
      LengthsTail(lists);
      ProductLength(lists[1..]);
      PrependEachLength(lists[0], Product(lists[1..]));
    }
  }

  lemma {:induction false} PrependEachMembers(heads: seq<nat>, tails: seq<seq<nat>>, c: seq<nat>)
    ensures c in PrependEach(heads, tails) <==> c != [] && c[0] in heads && c[1..] in tails
    decreases |heads|
  {
    if heads != [] {
      PrependEachMembers(heads[1..], tails, c);
      if c != [] && c[0] == heads[0] && c[1..] in tails {
        var i :| 0 <= i < |tails| && tails[i] == c[1..];
        assert Prepend(heads[0], tails)[i] == c;
      }
    }
  }

  lemma {:induction false} ProductMembers(lists: seq<seq<nat>>, c: seq<nat>)
    ensures c in Product(lists) <==> |c| == |lists| && forall d | 0 <= d < |c| :: c[d] in lists[d]
    decreases |lists|
  {
    if lists != [] {
      PrependEachMembers(lists[0], Product(lists[1..]), c);
      if c != [] {
        ProductMembers(lists[1..], c[1..]);
        if |c| == |lists| && forall d | 0 <= d < |c| :: c[d] in lists[d] {
          forall d | 0 <= d < |c[1..]| ensures c[1..][d] in lists[1..][d] { assert c[d + 1] in lists[d + 1]; }
        }
        if |c[1..]| == |lists[1..]| && c[0] in lists[0] && forall d | 0 <= d < |c[1..]| :: c[1..][d] in lists[1..][d] {
          forall d | 0 <= d < |c| ensures c[d] in lists[d] {
            if d > 0 { assert c[1..][d - 1] in lists[1..][d - 1]; }
          }
        }
      }
    }
  }

  /** Lexicographic order of equally long coordinates. */
  ghost predicate LexLess(a: seq<nat>, b: seq<nat>)
    requires |a| == |b|
  {
    a != [] && (a[0] < b[0] || (a[0] == b[0] && LexLess(a[1..], b[1..])))
  }

  ghost predicate LexIncreasing(cs: seq<seq<nat>>, rank: nat) {
    && (forall i | 0 <= i < |cs| :: |cs[i]| == rank)
    && (forall i, j | 0 <= i < j < |cs| :: LexLess(cs[i], cs[j]))
  }

  lemma {:induction false} PrependEachLex(heads: seq<nat>, tails: seq<seq<nat>>, rank: nat)
    requires Increasing(heads) && LexIncreasing(tails, rank)
    ensures LexIncreasing(PrependEach(heads, tails), rank + 1)
    decreases |heads|
  {
    if heads != [] {
      var first, rest := Prepend(heads[0], tails), PrependEach(heads[1..], tails);
      PrependEachLex(heads[1..], tails, rank);
      forall i, j | 0 <= i < j < |first| ensures LexLess(first[i], first[j]) {
        assert first[i][1..] == tails[i] && first[j][1..] == tails[j];
      }
      forall i, j | 0 <= i < |first| && 0 <= j < |rest| ensures LexLess(first[i], rest[j]) {
        PrependEachMembers(heads[1..], tails, rest[j]);
        assert rest[j] in PrependEach(heads[1..], tails);
        var k :| 0 <= k < |heads[1..]| && heads[1..][k] == rest[j][0];
        assert heads[0] < heads[k + 1];
      }
    }
  }

  /** Increasing axes give a product that is strictly lexicographically increasing. */
  lemma {:induction false} ProductLex(lists: seq<seq<nat>>)
    requires forall d | 0 <= d < |lists| :: Increasing(lists[d])
    ensures LexIncreasing(Product(lists), |lists|)
    decreases |lists|
  {
    if lists != [] {
      ProductLex(lists[1..]);
      PrependEachLex(lists[0], Product(lists[1..]), |lists| - 1);
    }
  }

  lemma {:induction false} LexLessIrreflexive(a: seq<nat>)
    ensures !LexLess(a, a)
    decreases |a|
  {
    if a != [] { LexLessIrreflexive(a[1..]); }
  }

  lemma LexIncreasingDistinct(cs: seq<seq<nat>>, rank: nat)
    requires LexIncreasing(cs, rank)
    ensures forall i, j | 0 <= i < j < |cs| :: cs[i] != cs[j]
  {
    forall i, j | 0 <= i < j < |cs| ensures cs[i] != cs[j] {
      LexLessIrreflexive(cs[i]);
    }
  }

  /** Carry lemma for the right-to-left loop: digits from `d` on have wrapped to
      zero, and digit d - 1 either advances (ending the loop) or wraps as well. */
  lemma {:induction false} NextThroughPrefix(lens: seq<nat>, p: seq<nat>, d: nat)
    requires |p| == |lens| && 0 < d <= |p|
    requires Next(lens[d..], p[d..]).None?
    ensures p[d - 1] + 1 < lens[d - 1] ==>
              Next(lens, p) == Some(p[..d - 1] + [p[d - 1] + 1] + Zeros(|p| - d))
    ensures p[d - 1] + 1 >= lens[d - 1] ==> Next(lens[d - 1..], p[d - 1..]).None?
    decreases |p|
  {
    assert lens[d - 1..][1..] == lens[d..] && p[d - 1..][1..] == p[d..];
    if d == 1 {
      assert lens[0..] == lens && p[0..] == p;
      assert p[..0] + [p[0] + 1] + Zeros(|p| - 1) == [p[0] + 1] + Zeros(|p| - 1);
    } else {
      assert lens[1..][d - 1..] == lens[d..] && p[1..][d - 1..] == p[d..];
      NextThroughPrefix(lens[1..], p[1..], d - 1);
      if p[d - 1] + 1 < lens[d - 1] {
        assert [p[0]] + (p[1..][..d - 2] + [p[d - 1] + 1] + Zeros(|p| - d))
            == p[..d - 1] + [p[d - 1] + 1] + Zeros(|p| - d);
      }
    }
  }

  lemma CarryDigits(lens: seq<nat>, p: seq<nat>, d: nat)
    requires d < |p| == |lens| && Next(lens[d + 1..], p[d + 1..]).None?
    ensures var q := p[..d + 1] + Zeros(|p| - d - 1);
            && q[d] == p[d]
            && (p[d] + 1 < lens[d] ==> Next(lens, p) == Some(q[d := p[d] + 1]))
            && (p[d] + 1 >= lens[d] ==> Next(lens[d..], p[d..]).None? && q[d := 0] == p[..d] + Zeros(|p| - d))
  {
    var q := p[..d + 1] + Zeros(|p| - d - 1);
    NextThroughPrefix(lens, p, d + 1);
    assert q[d := p[d] + 1] == p[..d] + [p[d] + 1] + Zeros(|p| - d - 1);
    assert q[d := 0] == p[..d] + Zeros(|p| - d);
  }

  /** The carry loop: digits from `top` on are already wrapped. */
  method Advance(lens: seq<nat>, p: seq<nat>, top: nat) returns (more: bool, q: seq<nat>)
    requires InRange(p, lens) && top <= |p|
    requires p == p[..top] + Zeros(|p| - top) && Next(lens[top..], p[top..]).None?
    ensures more <==> Next(lens, p).Some?
    ensures more ==> q == Next(lens, p).value
    ensures |q| == |p|
  {
    q := p;
    var d := top;
    while d > 0
      invariant 0 <= d <= top
      invariant q == p[..d] + Zeros(|p| - d) && Next(lens[d..], p[d..]).None?
    {
      d := d - 1;
      CarryDigits(lens, p, d);
      if q[d] + 1 < lens[d] {
        return true, q[d := q[d] + 1];
      }
      q := q[d := 0];
    }
    assert lens[0..] == lens && p[0..] == p;
    return false, q;
  }
}
