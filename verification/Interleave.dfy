/** Spreading merged reads over files: round-robin over the runs of equal paths. */
module Interleave {
  import opened Seqs

  /** Where the run of equal paths around `k` starts. */
  ghost function RunStart(paths: seq<string>, k: nat): (s: nat)
    requires k < |paths|
    ensures s <= k
  {
    if k > 0 && paths[k] == paths[k - 1] then RunStart(paths, k - 1) else k
  }

  /** The number of the run that holds `k`. */
  ghost function Run(paths: seq<string>, k: nat): nat
    requires k < |paths|
  {
    if k == 0 then 0 else Run(paths, k - 1) + if paths[k] == paths[k - 1] then 0 else 1
  }

  /** The place of `k` in its run. */
  ghost function Round(paths: seq<string>, k: nat): nat
    requires k < |paths|
  {
    k - RunStart(paths, k)
  }

  /** Turn order: first the round, then the run. */
  ghost predicate KeyLess(paths: seq<string>, a: nat, b: nat)
    requires a < |paths| && b < |paths|
  {
    Round(paths, a) < Round(paths, b) || (Round(paths, a) == Round(paths, b) && Run(paths, a) < Run(paths, b))
  }

  function RunEnd(starts: seq<nat>, ri: nat, n: nat): nat {
    if ri + 1 < |starts| then starts[ri + 1] else n
  }

  ghost predicate InRun(starts: seq<nat>, n: nat, ri: nat, k: nat) {
    ri < |starts| && starts[ri] <= k < RunEnd(starts, ri, n)
  }

  /** `starts` lists the first position of every run among the first n positions. */
  ghost predicate StartsOf(paths: seq<string>, starts: seq<nat>, n: nat) {
    && n <= |paths|
    && (forall k: nat | k < n :: InRun(starts, n, Run(paths, k), k) && starts[Run(paths, k)] == RunStart(paths, k))
    && (forall ri: nat, k: nat | k < n && InRun(starts, n, ri, k) :: Run(paths, k) == ri)
    && (forall ri | 0 <= ri < |starts| :: starts[ri] < n)
    && (n > 0 ==> |starts| == Run(paths, n - 1) + 1)
  }

  method RunStarts(paths: seq<string>) returns (starts: seq<nat>)
    ensures StartsOf(paths, starts, |paths|)
  {
    starts := [];
    for k := 0 to |paths|
      invariant StartsOf(paths, starts, k) && (k == 0 ==> starts == [])
    {
      if k == 0 || paths[k] != paths[k - 1] {
        NewRun(paths, starts, k);
        starts := starts + [k];
      } else {
        SameRun(paths, starts, k);
      }
    }
  }

  lemma NewRun(paths: seq<string>, starts: seq<nat>, n: nat)
    requires n < |paths| && StartsOf(paths, starts, n) && (n == 0 ==> starts == [])
               && (n > 0 ==> paths[n] != paths[n - 1])
    ensures StartsOf(paths, starts + [n], n + 1)
  {
    hide RunStart;
    var more := starts + [n];
    assert RunStart(paths, n) == n by { RunStartHere(paths, n); }
    forall k: nat | k < n + 1
      ensures InRun(more, n + 1, Run(paths, k), k) && more[Run(paths, k)] == RunStart(paths, k)
    {
      if k < n { assert InRun(starts, n, Run(paths, k), k); }
    }
    var end := n + 1;
    forall ri: nat, k: nat | k < end && InRun(more, end, ri, k) ensures Run(paths, k) == ri {
      if k < n && ri < |starts| { assert InRun(starts, n, ri, k); }
    }
  }

  lemma RunStartHere(paths: seq<string>, n: nat)
    requires n < |paths| && (n > 0 ==> paths[n] != paths[n - 1])
    ensures RunStart(paths, n) == n
  {
  }

  lemma SameRun(paths: seq<string>, starts: seq<nat>, n: nat)
    requires 0 < n < |paths| && StartsOf(paths, starts, n) && paths[n] == paths[n - 1]
    ensures StartsOf(paths, starts, n + 1)
  {
    assert InRun(starts, n, Run(paths, n - 1), n - 1);
    forall k: nat | k < n + 1
      ensures InRun(starts, n + 1, Run(paths, k), k) && starts[Run(paths, k)] == RunStart(paths, k)
    {
      if k < n { assert InRun(starts, n, Run(paths, k), k); }
    }
    var end := n + 1;
    forall ri: nat, k: nat | k < end && InRun(starts, end, ri, k) ensures Run(paths, k) == ri {
      if k < n { assert InRun(starts, n, ri, k); }
    }
  }

  // --- The turns ----------------------------------------------------------------------------------

  /** `k` has its turn before run `ri` of round `round`. */
  ghost predicate Earlier(paths: seq<string>, k: nat, round: nat, ri: nat)
    requires k < |paths|
  {
    Round(paths, k) < round || (Round(paths, k) == round && Run(paths, k) < ri)
  }

  /** `order` lists the positions in turn order, and `pos` inverts it on them. */
  ghost predicate Turns(paths: seq<string>, order: seq<nat>, pos: seq<nat>) {
    && |pos| == |paths|
    && (forall i | 0 <= i < |order| :: order[i] < |paths| && pos[order[i]] == i)
    && (forall i, j | 0 <= i < j < |order| :: KeyLess(paths, order[i], order[j]))
  }

  ghost predicate TurnsUpTo(paths: seq<string>, order: seq<nat>, pos: seq<nat>, round: nat, ri: nat) {
    && Turns(paths, order, pos)
    && forall k: nat | k < |paths| :: k in order <==> Earlier(paths, k, round, ri)
  }

  lemma TurnsDistinct(paths: seq<string>, order: seq<nat>, pos: seq<nat>)
    requires Turns(paths, order, pos)
    ensures Distinct(order) && |order| <= |paths|
  {
    forall i, j | 0 <= i < j < |order| ensures order[i] != order[j] { assert KeyLess(paths, order[i], order[j]); }
    Pigeonhole(order, |paths|);
  }

  /** While slots are left, some position has not had its turn. */
  lemma SomeLeft(paths: seq<string>, order: seq<nat>, pos: seq<nat>) returns (k: nat)
    requires Turns(paths, order, pos) && |order| < |paths|
    ensures k < |paths| && k !in order
  {
    k := 0;
    if forall k: nat | k < |paths| :: k in order {
      RangeFits(order, |paths|);
      assert false;
    }
    k :| 0 <= k < |paths| && k !in order;
  }

  lemma {:induction false} RangeFits(s: seq<nat>, n: nat)
    requires forall k: nat | k < n :: k in s
    ensures n <= |s|
    decreases n
  {
    if n > 0 {
      var last: nat := n - 1;
      assert last in s;
      var i :| 0 <= i < |s| && s[i] == last;
      var t := s[..i] + s[i + 1..];
      forall k: nat | k < n - 1 ensures k in t {
        assert k in s;
        var j :| 0 <= j < |s| && s[j] == k;
        assert t[if j < i then j else j - 1] == k;
      }
      RangeFits(t, n - 1);
    }
  }

  lemma TakeTurn(paths: seq<string>, starts: seq<nat>, order: seq<nat>, pos: seq<nat>, round: nat, ri: nat)
    requires StartsOf(paths, starts, |paths|) && ri < |starts| && TurnsUpTo(paths, order, pos, round, ri)
    ensures var k := starts[ri] + round;
            if k < RunEnd(starts, ri, |paths|)
            then k < |paths| && TurnsUpTo(paths, order + [k], pos[k := |order|], round, ri + 1)
            else TurnsUpTo(paths, order, pos, round, ri + 1)
  {
    hide Run, RunStart;
    var n, k := |paths|, starts[ri] + round;
    forall j: nat | j < n && Run(paths, j) == ri && Round(paths, j) == round
      ensures j == k && k < RunEnd(starts, ri, n)
    {
      assert InRun(starts, n, Run(paths, j), j);
    }
    if k < RunEnd(starts, ri, n) {
      assert ri + 1 < |starts| ==> starts[ri + 1] < n;
      assert InRun(starts, n, ri, k);
      assert Run(paths, k) == ri && Round(paths, k) == round;
      assert k !in order;
      var order', pos' := order + [k], pos[k := |order|];
      forall i, j | 0 <= i < j < |order'| ensures KeyLess(paths, order'[i], order'[j]) {
        if j == |order| { assert order[i] in order; }
      }
      forall j: nat | j < n ensures j in order' <==> Earlier(paths, j, round, ri + 1) { }
    }
  }

  /** One pass over all runs. */
  method PlayRound(paths: seq<string>, starts: seq<nat>, pos: seq<nat>, outk: nat, round: nat, ghost order: seq<nat>)
    returns (pos': seq<nat>, outk': nat, ghost order': seq<nat>)
    requires StartsOf(paths, starts, |paths|) && outk == |order| && TurnsUpTo(paths, order, pos, round, 0)
    ensures outk' == |order'| && TurnsUpTo(paths, order', pos', round, |starts|) && order <= order'
  {
    hide StartsOf, TurnsUpTo;
    pos', outk', order' := pos, outk, order;
    PosLength(paths, order, pos, round, 0);
    for ri := 0 to |starts|
      invariant outk' == |order'| && |pos'| == |paths| && order <= order'
      invariant TurnsUpTo(paths, order', pos', round, ri)
    {
      TakeTurn(paths, starts, order', pos', round, ri);
      var k := starts[ri] + round;
      if k < RunEnd(starts, ri, |paths|) {
        pos', order' := pos'[k := outk'], order' + [k];
        outk' := outk' + 1;
      }
    }
  }

  lemma PosLength(paths: seq<string>, order: seq<nat>, pos: seq<nat>, round: nat, ri: nat)
    requires TurnsUpTo(paths, order, pos, round, ri)
    ensures |pos| == |paths|
  {
  }

  /** After all runs of a round have had their turn the next round begins. */
  lemma RoundDone(paths: seq<string>, starts: seq<nat>, order: seq<nat>, pos: seq<nat>, round: nat)
    requires StartsOf(paths, starts, |paths|) && TurnsUpTo(paths, order, pos, round, |starts|)
    ensures TurnsUpTo(paths, order, pos, round + 1, 0)
  {
    hide Run, RunStart;
    forall k: nat | k < |paths| ensures Earlier(paths, k, round, |starts|) <==> Earlier(paths, k, round + 1, 0) {
      assert InRun(starts, |paths|, Run(paths, k), k);
    }
  }

  /** A round that starts with slots left fills at least one of them. */
  lemma RoundProgress(paths: seq<string>, starts: seq<nat>, order: seq<nat>, pos: seq<nat>,
                      order': seq<nat>, pos': seq<nat>, round: nat)
    requires StartsOf(paths, starts, |paths|) && |order| < |paths|
    requires TurnsUpTo(paths, order, pos, round, 0) && TurnsUpTo(paths, order', pos', round, |starts|)
               && order <= order'
    ensures |order| < |order'|
  {
    hide Run, RunStart;
    var n := |paths|;
    var k := SomeLeft(paths, order, pos);
    var ri := Run(paths, k);
    assert InRun(starts, n, ri, k);
    var j := starts[ri] + round;
    assert InRun(starts, n, ri, j);
    assert InRun(starts, n, Run(paths, j), j);
    assert j !in order && j in order';
    if |order| == |order'| {
      assert order == order';
    }
  }

  /** Output slots: a bijection that follows turn order. */
  ghost predicate Interleaved(paths: seq<string>, pos: seq<nat>, order: seq<nat>) {
    && |pos| == |order| == |paths|
    && (forall k | 0 <= k < |pos| :: pos[k] < |order| && order[pos[k]] == k)
    && (forall i | 0 <= i < |order| :: order[i] < |pos| && pos[order[i]] == i)
    && (forall i, j | 0 <= i < j < |order| :: KeyLess(paths, order[i], order[j]))
  }

  method Positions(paths: seq<string>) returns (pos: seq<nat>, ghost order: seq<nat>)
    ensures Interleaved(paths, pos, order)
  {
    hide StartsOf, TurnsUpTo;
    var n := |paths|;
    var starts := RunStarts(paths);
    pos, order := seq(n, _ => 0), [];
    NoTurns(paths, pos);
    var outk, round := 0, 0;
    while outk < n
      invariant outk == |order| && TurnsUpTo(paths, order, pos, round, 0)
      decreases n - outk
    {
      var pos', outk', order' := PlayRound(paths, starts, pos, outk, round, order);
      RoundProgress(paths, starts, order, pos, order', pos', round);
      RoundDone(paths, starts, order', pos', round);
      pos, outk, order := pos', outk', order';
      round := round + 1;
    }
    AllPlayed(paths, order, pos, round);
  }

  lemma NoTurns(paths: seq<string>, pos: seq<nat>)
    requires |pos| == |paths|
    ensures TurnsUpTo(paths, [], pos, 0, 0)
  {
  }

  lemma AllPlayed(paths: seq<string>, order: seq<nat>, pos: seq<nat>, round: nat)
    requires TurnsUpTo(paths, order, pos, round, 0) && |order| >= |paths|
    ensures Interleaved(paths, pos, order)
  {
    TurnsDistinct(paths, order, pos);
    forall k | 0 <= k < |pos| ensures pos[k] < |order| && order[pos[k]] == k {
      if k !in order {
        OneTooMany(order, k, |paths|);
        assert false;
      }
      var i :| 0 <= i < |order| && order[i] == k;
      assert pos[order[i]] == i;
    }
  }

  lemma OneTooMany(s: seq<nat>, k: nat, n: nat)
    requires Distinct(s) && k !in s && k < n && forall i | 0 <= i < |s| :: s[i] < n
    ensures |s| < n
  {
    Pigeonhole(s + [k], n);
  }

  // --- What the order achieves ------------------------------------------------------------------------

  /** Reads of one file keep their order. */
  lemma FileOrderKept(paths: seq<string>, pos: seq<nat>, order: seq<nat>, a: nat, b: nat)
    requires Interleaved(paths, pos, order) && a < b < |paths| && Run(paths, a) == Run(paths, b)
    ensures pos[a] < pos[b]
  {
    var starts := SomeStarts(paths);
    assert InRun(starts, |paths|, Run(paths, a), a) && InRun(starts, |paths|, Run(paths, b), b);
    assert pos[b] < pos[a] ==> KeyLess(paths, order[pos[b]], order[pos[a]]);
  }

  /** Position `k` of a run at round `round`, if the run is that long. */
  lemma AtRound(paths: seq<string>, c: nat, round: nat) returns (k: nat)
    requires c < |paths| && round <= Round(paths, c)
    ensures k < |paths| && Run(paths, k) == Run(paths, c) && Round(paths, k) == round
  {
    var starts := SomeStarts(paths);
    var n, ri := |paths|, Run(paths, c);
    assert InRun(starts, n, ri, c);
    k := starts[ri] + round;
    assert InRun(starts, n, ri, k);
    assert InRun(starts, n, Run(paths, k), k);
  }

  lemma SomeStarts(paths: seq<string>) returns (starts: seq<nat>)
    ensures StartsOf(paths, starts, |paths|)
  {
    starts := [];
    var k := 0;
    while k < |paths|
      invariant k <= |paths| && StartsOf(paths, starts, k) && (k == 0 ==> starts == [])
    {
      if k == 0 || paths[k] != paths[k - 1] {
        NewRun(paths, starts, k);
        starts := starts + [k];
      } else {
        SameRun(paths, starts, k);
      }
      k := k + 1;
    }
  }

  /** Two reads of one file are issued back to back only when no other file has reads left. */
  lemma SpreadAcrossFiles(paths: seq<string>, pos: seq<nat>, order: seq<nat>, i: nat, j: nat)
    requires Interleaved(paths, pos, order) && i + 1 < |order| && j < |order|
    requires Run(paths, order[i]) == Run(paths, order[i + 1])
    requires Run(paths, order[j]) != Run(paths, order[i])
    ensures j < i
  {
    hide Run, RunStart;
    var a, b, c := order[i], order[i + 1], order[j];
    if j > i {
      assert KeyLess(paths, a, b) && KeyLess(paths, b, c);
      var round := if Run(paths, c) > Run(paths, a) then Round(paths, a) else Round(paths, b);
      var k := AtRound(paths, c, round);
      BetweenTurns(paths, pos, order, i, k);
    }
  }

  lemma BetweenTurns(paths: seq<string>, pos: seq<nat>, order: seq<nat>, i: nat, k: nat)
    requires Interleaved(paths, pos, order) && i + 1 < |order| && k < |paths|
    ensures !(KeyLess(paths, order[i], k) && KeyLess(paths, k, order[i + 1]))
  {
    hide Run, RunStart;
    assert order[pos[k]] == k;
    if pos[k] < i { assert KeyLess(paths, k, order[i]); }
    if pos[k] > i + 1 { assert KeyLess(paths, order[i + 1], k); }
  }
}
