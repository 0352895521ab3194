/** Sequences without repeats, as sets and multisets. */
module Seqs {

  ghost predicate Distinct<T>(s: seq<T>) {
    forall i, j | 0 <= i < j < |s| :: s[i] != s[j]
  }

  lemma {:induction false} DistinctCount<T>(s: seq<T>, e: T)
    requires Distinct(s)
    ensures multiset(s)[e] == if e in s then 1 else 0
    decreases |s|
  {
    if s != [] {
      var n := |s| - 1;
      DistinctCount(s[..n], e);
      assert s == s[..n] + [s[n]];
    }
  }

  lemma CountTwice<T>(s: seq<T>, a: nat, b: nat)
    requires a < b < |s| && s[a] == s[b]
    ensures multiset(s)[s[a]] >= 2
  {
    assert s == s[..b] + s[b..];
    assert s[a] in s[..b] && s[a] in s[b..];
    assert s[a] in multiset(s[..b]) && s[a] in multiset(s[b..]);
  }

  /** Two sequences without repeats and with the same members are permutations of each other. */
  lemma DistinctSameMembers<T>(s: seq<T>, t: seq<T>)
    requires Distinct(s) && Distinct(t)
    requires forall e :: e in s <==> e in t
    ensures multiset(s) == multiset(t) && |s| == |t|
  {
    forall e ensures multiset(s)[e] == multiset(t)[e] {
      DistinctCount(s, e);
      DistinctCount(t, e);
    }
    assert |multiset(s)| == |s| && |multiset(t)| == |t|;
  }

  lemma DistinctAppend<T>(s: seq<T>, t: seq<T>)
    requires Distinct(s) && Distinct(t)
    requires forall e | e in s :: e !in t
    ensures Distinct(s + t)
  {
    var u := s + t;
    forall i, j | 0 <= i < j < |u| ensures u[i] != u[j] {
      if i < |s| <= j {
        assert u[i] == s[i] && u[j] == t[j - |s|];
        assert s[i] in s && t[j - |s|] in t;
      }
    }
  }

  /** Pigeonhole: naturals below n without repeats are at most n many. */
  lemma {:induction false} Pigeonhole(s: seq<nat>, n: nat)
    requires Distinct(s) && forall i | 0 <= i < |s| :: s[i] < n
    ensures |s| <= n
    decreases n
  {
    if s == [] { return; }
    assert s[0] < n;
    if k :| 0 <= k < |s| && s[k] == n - 1 {
      var t := s[..k] + s[k + 1..];
      forall i, j | 0 <= i < j < |t| ensures t[i] != t[j] {
        assert t[i] == s[if i < k then i else i + 1] && t[j] == s[if j < k then j else j + 1];
      }
      forall i | 0 <= i < |t| ensures t[i] < n - 1 {
        assert t[i] == s[if i < k then i else i + 1];
      }
      Pigeonhole(t, n - 1);
    } else {
      Pigeonhole(s, n - 1);
    }
  }

  function Concat<T>(parts: seq<seq<T>>): seq<T> {
    if parts == [] then [] else Concat(parts[..|parts| - 1]) + parts[|parts| - 1]
  }

  lemma ConcatSnoc<T>(parts: seq<seq<T>>, part: seq<T>)
    ensures Concat(parts + [part]) == Concat(parts) + part
  {
    assert (parts + [part])[..|parts|] == parts;
  }

  /** Where part k starts when all parts have the same length. */
  lemma {:induction false} ConcatAt<T>(parts: seq<seq<T>>, width: nat, k: nat, i: nat)
    requires (forall p | 0 <= p < |parts| :: |parts[p]| == width) && k < |parts| && i < width
    ensures |Concat(parts)| == |parts| * width && k * width + i < |Concat(parts)|
    ensures Concat(parts)[k * width + i] == parts[k][i]
    decreases |parts|
  {
    var n := |parts| - 1;
    ConcatLength(parts[..n], width);
    assert |parts| * width == n * width + width;
    if k < n {
      ConcatAt(parts[..n], width, k, i);
    }
  }

  lemma {:induction false} ConcatLength<T>(parts: seq<seq<T>>, width: nat)
    requires forall p | 0 <= p < |parts| :: |parts[p]| == width
    ensures |Concat(parts)| == |parts| * width
    decreases |parts|
  {
    if parts != [] {
      var n := |parts| - 1;
      ConcatLength(parts[..n], width);
      assert |parts| * width == n * width + width;
    }
  }

  // --- Increasing sequences with gaps ------------------------------------------------------

  ghost predicate Increasing(s: seq<nat>) {
    forall i, j | 0 <= i < j < |s| :: s[i] < s[j]
  }

  /** An increasing sequence and its gaps split the naturals below n. */
  ghost predicate Splits(s: seq<nat>, gaps: set<nat>, n: nat) {
    && Increasing(s)
    && (forall k | k in s :: k < n && k !in gaps)
    && (forall k | k in gaps :: k < n)
    && (forall k: nat | k < n :: k in s || k in gaps)
  }

  lemma SplitsTake(s: seq<nat>, gaps: set<nat>, n: nat)
    requires Splits(s, gaps, n)
    ensures Splits(s + [n], gaps, n + 1)
  {
    forall i | 0 <= i < |s| ensures s[i] < n { assert s[i] in s; }
    forall k: nat | k < n + 1 ensures k in s + [n] || k in gaps {
      if k < n { assert k in s || k in gaps; }
    }
  }

  lemma SplitsSkip(s: seq<nat>, gaps: set<nat>, n: nat)
    requires Splits(s, gaps, n)
    ensures Splits(s, gaps + {n}, n + 1)
  {
  }

  /** Giving up the end of the sequence. */
  lemma SplitsLose(s: seq<nat>, end: seq<nat>, gaps: set<nat>, n: nat)
    requires Splits(s + end, gaps, n)
    ensures var lost := set k | k in end; Splits(s, gaps + lost, n) && gaps !! lost && |lost| == |end|
  {
    var all := s + end;
    var lost := set k | k in end;
    forall i, j | 0 <= i < j < |s| ensures s[i] < s[j] { assert all[i] < all[j]; }
    forall k | k in s ensures k < n && k !in gaps + lost {
      assert k in all;
      var i :| 0 <= i < |s| && s[i] == k;
      forall j | 0 <= j < |end| ensures end[j] != k { assert all[i] < all[|s| + j]; }
    }
    forall k | k in lost ensures k < n && k !in gaps { assert k in all; }
    forall k: nat | k < n ensures k in s || k in gaps + lost { assert k in all || k in gaps; }
    forall i, j | 0 <= i < j < |end| ensures end[i] != end[j] { assert all[|s| + i] < all[|s| + j]; }
    DistinctSize(end);
  }

  lemma {:induction false} DistinctSize<T>(s: seq<T>)
    requires Distinct(s)
    ensures |set e | e in s| == |s|
    decreases |s|
  {
    var all := set e | e in s;
    if s != [] {
      var n := |s| - 1;
      DistinctSize(s[..n]);
      var init := set e | e in s[..n];
      assert s == s[..n] + [s[n]];
      assert s[n] !in init;
      assert all == init + {s[n]};
    }
  }

  ghost function UpTo(n: nat): set<nat> {
    if n == 0 then {} else UpTo(n - 1) + {n - 1}
  }

  lemma {:induction false} UpToMembers(n: nat)
    ensures |UpTo(n)| == n && forall k: nat :: k in UpTo(n) <==> k < n
    decreases n
  {
    if n > 0 { UpToMembers(n - 1); }
  }

  ghost function Below(gaps: set<nat>, n: nat): set<nat> {
    set k | k in gaps && k < n
  }

  /** Element j is j moved up by the gaps below it. */
  lemma SplitsShift(s: seq<nat>, gaps: set<nat>, n: nat, j: nat)
    requires Splits(s, gaps, n) && j < |s|
    ensures s[j] == j + |Below(gaps, s[j])|
  {
    var x := s[j];
    var before := set k | k in s[..j];
    forall a, b | 0 <= a < b < j ensures s[..j][a] != s[..j][b] { assert s[a] < s[b]; }
    DistinctSize(s[..j]);
    UpToMembers(x);
    assert x in s;
    forall k: nat ensures k in UpTo(x) <==> k in before + Below(gaps, x) { SplitsBelow(s, gaps, n, j, k); }
    assert UpTo(x) == before + Below(gaps, x);
    forall k | k in before ensures k !in gaps { assert k in s; }
    assert before !! Below(gaps, x);
  }

  lemma SplitsBelow(s: seq<nat>, gaps: set<nat>, n: nat, j: nat, k: nat)
    requires Splits(s, gaps, n) && j < |s|
    ensures k < s[j] <==> k in s[..j] || (k in gaps && k < s[j])
  {
    if k in s[..j] {
      var i :| 0 <= i < j && s[i] == k;
      assert s[i] < s[j];
    }
    if k < s[j] && k !in gaps {
      assert s[j] in s;
      assert k in s;
      var i :| 0 <= i < |s| && s[i] == k;
      assert i < j;
      assert s[..j][i] == k;
    }
  }

  lemma CountsUp(s: seq<nat>, k: nat)
    requires forall j | 0 <= j < |s| :: s[j] == j
    ensures k in s <==> k < |s|
  {
    if k < |s| { assert s[k] == k; }
  }

  lemma SplitsCount(s: seq<nat>, gaps: set<nat>, n: nat)
    requires Splits(s, gaps, n)
    ensures |s| + |gaps| == n
  {
    var all := set k | k in s;
    forall a, b | 0 <= a < b < |s| ensures s[a] != s[b] { assert s[a] < s[b]; }
    DistinctSize(s);
    UpToMembers(n);
    assert UpTo(n) == all + gaps;
    assert all !! gaps;
  }

  lemma {:induction false} ConcatPrefix<T>(parts: seq<seq<T>>, n: nat)
    requires n <= |parts|
    ensures Concat(parts[..n]) <= Concat(parts)
    decreases |parts|
  {
    if n < |parts| {
      ConcatPrefix(parts[..|parts| - 1], n);
      assert parts[..|parts| - 1][..n] == parts[..n];
    } else {
      assert parts[..n] == parts;
    }
  }

  /** A beginning of the sequence counts up from zero exactly if no gap comes before one of its elements. */
  lemma SplitsInOrder(s: seq<nat>, t: seq<nat>, gaps: set<nat>, n: nat)
    requires Splits(s, gaps, n) && t <= s
    ensures (forall j | 0 <= j < |t| :: t[j] == j) <==> forall g, k | g in gaps && k in t :: k < g
  {
    if forall j | 0 <= j < |t| :: t[j] == j {
      forall g, k | g in gaps && k in t ensures k < g {
        CountsUp(t, k);
        CountsUp(t, g);
        assert g in t ==> g in s;
      }
    } else {
      var j :| 0 <= j < |t| && t[j] != j;
      SplitsShift(s, gaps, n, j);
      assert Below(gaps, t[j]) != {};
      var g :| g in Below(gaps, t[j]);
      assert t[j] in t && g in gaps && g < t[j];
    }
  }
}
