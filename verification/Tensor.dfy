/** Row-major tensors: flat positions of coordinates, and the batch layout. */
module Tensor {
  import opened Statuses
  import opened Odometer
  import opened Arith

  /** The number of elements of a tensor. */
  function Size(shape: seq<nat>): nat {
    LengthProduct(shape)
  }

  /** The row-major position of coordinate `c`. */
  function Ravel(shape: seq<nat>, c: seq<nat>): nat
    requires |c| == |shape|
  {
    if c == [] then 0 else c[0] * Size(shape[1..]) + Ravel(shape[1..], c[1..])
  }

  /** The coordinate at row-major position `x`. */
  function Unravel(shape: seq<nat>, x: nat): (c: seq<nat>)
    requires x < Size(shape)
    ensures |c| == |shape|
    decreases |shape|
  {
    if shape == [] then []
    else
      var n := Size(shape[1..]);
      SizePositive(shape, x);
      DivBounds(x, n);
      [x / n] + Unravel(shape[1..], x % n)
  }

  lemma SizePositive(shape: seq<nat>, x: nat)
    requires shape != [] && x < Size(shape)
    ensures shape[0] > 0 && Size(shape[1..]) > 0
  {
  }

  lemma {:induction false} RavelBound(shape: seq<nat>, c: seq<nat>)
    requires InRange(c, shape)
    ensures Ravel(shape, c) < Size(shape)
    decreases |c|
  {
    if c != [] {
      assert InRange(c[1..], shape[1..]);
      RavelBound(shape[1..], c[1..]);
      var n := Size(shape[1..]);
      MulMono(c[0] + 1, shape[0], n);
      assert (c[0] + 1) * n == c[0] * n + n;
    }
  }

  lemma {:induction false} UnravelRavel(shape: seq<nat>, c: seq<nat>)
    requires InRange(c, shape)
    ensures Ravel(shape, c) < Size(shape) && Unravel(shape, Ravel(shape, c)) == c
    decreases |c|
  {
    RavelBound(shape, c);
    if c != [] {
      assert InRange(c[1..], shape[1..]);
      UnravelRavel(shape[1..], c[1..]);
      SplitPosition(Size(shape[1..]), c[0], Ravel(shape[1..], c[1..]));
      assert c == [c[0]] + c[1..];
    }
  }

  lemma SplitPosition(n: nat, q: nat, r: nat)
    requires r < n
    ensures (q * n + r) / n == q && (q * n + r) % n == r
  {
    assert n * q == q * n;
    DivUnique(q * n + r, n, q);
  }

  lemma {:induction false} RavelUnravel(shape: seq<nat>, x: nat)
    requires x < Size(shape)
    ensures InRange(Unravel(shape, x), shape) && Ravel(shape, Unravel(shape, x)) == x
    decreases |shape|
  {
    if shape != [] {
      var n := Size(shape[1..]);
      SizePositive(shape, x);
      DivBounds(x, n);
      RavelUnravel(shape[1..], x % n);
      var c := Unravel(shape, x);
      assert c[1..] == Unravel(shape[1..], x % n);
      assert x / n < shape[0] by {
        if x / n >= shape[0] {
          MulMono(shape[0], x / n, n);
          assert false;
        }
      }
      forall d | 0 <= d < |c| ensures c[d] < shape[d] {
        if d > 0 { assert c[1..][d - 1] < shape[1..][d - 1]; }
      }
    }
  }

  /** Distinct coordinates have distinct positions, and every position has a coordinate. */
  lemma RavelBijective(shape: seq<nat>, a: seq<nat>, b: seq<nat>)
    requires InRange(a, shape) && InRange(b, shape)
    ensures Ravel(shape, a) == Ravel(shape, b) <==> a == b
  {
    UnravelRavel(shape, a);
    UnravelRavel(shape, b);
  }

  /** Moving along the last axis moves one position at a time. */
  lemma {:induction false} RavelLast(shape: seq<nat>, c: seq<nat>, j: nat)
    requires |c| == |shape| && c != []
    ensures Ravel(shape, c[|c| - 1 := c[|c| - 1] + j]) == Ravel(shape, c) + j
    decreases |c|
  {
    var moved := c[|c| - 1 := c[|c| - 1] + j];
    if |c| == 1 {
      assert shape[1..] == [] && moved[1..] == [] && c[1..] == [];
    } else {
      assert moved[1..] == c[1..][|c| - 2 := c[|c| - 1] + j];
      RavelLast(shape[1..], c[1..], j);
    }
  }

  /** Horner's rule, as the chunk-local and shard-entry positions are computed. */
  function Horner(acc: nat, shape: seq<nat>, c: seq<nat>): nat
    requires |c| == |shape|
    decreases |c|
  {
    if c == [] then acc else Horner(acc * shape[0] + c[0], shape[1..], c[1..])
  }

  lemma {:induction false} HornerIsRavel(acc: nat, shape: seq<nat>, c: seq<nat>)
    requires |c| == |shape|
    ensures Horner(acc, shape, c) == acc * Size(shape) + Ravel(shape, c)
    decreases |c|
  {
    if c != [] {
      var n := Size(shape[1..]);
      HornerIsRavel(acc * shape[0] + c[0], shape[1..], c[1..]);
      SplitProduct(acc, shape[0], c[0], n);
    }
  }

  lemma SplitProduct(a: nat, b: nat, c: nat, n: nat)
    ensures (a * b + c) * n == a * (b * n) + c * n
  {
    assert a * (b * n) == (a * b) * n;
    assert (a * b + c) * n == (a * b) * n + c * n;
  }

  method HornerPosition(shape: seq<nat>, c: seq<nat>) returns (position: nat)
    requires |c| == |shape|
    ensures position == Ravel(shape, c)
  {
    position := 0;
    for d := 0 to |c|
      invariant Horner(position, shape[d..], c[d..]) == Horner(0, shape, c)
    {
      assert shape[d..][1..] == shape[d + 1..] && c[d..][1..] == c[d + 1..];
      position := position * shape[d] + c[d];
    }
    assert shape[|c|..] == [] && c[|c|..] == [];
    HornerIsRavel(0, shape, c);
  }

  /** Positions computed as a dot product with strides. */
  ghost predicate StridesOf(shape: seq<nat>, strides: seq<nat>) {
    |strides| == |shape| && forall d | 0 <= d < |shape| :: strides[d] == Size(shape[d + 1..])
  }

  method StridePosition(ghost shape: seq<nat>, strides: seq<nat>, c: seq<nat>) returns (position: nat)
    requires |c| == |shape| && StridesOf(shape, strides)
    ensures position == Ravel(shape, c)
  {
    position := 0;
    for d := 0 to |c|
      invariant position + Ravel(shape[d..], c[d..]) == Ravel(shape, c)
    {
      assert shape[d..][1..] == shape[d + 1..] && c[d..][1..] == c[d + 1..];
      position := position + c[d] * strides[d];
    }
  }

  /** The output of a batch: a row of samples, each of the same shape. */
  datatype BatchSpec = BatchSpec(samples: nat, sampleShape: seq<int>, elementBytes: nat)

  ghost function BatchShape(spec: BatchSpec): (shape: seq<nat>)
    requires forall d | 0 <= d < |spec.sampleShape| :: spec.sampleShape[d] > 0
    ensures |shape| == |spec.sampleShape| + 1
  {
    [spec.samples] + seq(|spec.sampleShape|, d requires 0 <= d < |spec.sampleShape| => spec.sampleShape[d])
  }

  ghost predicate SpecOk(spec: BatchSpec) {
    && 0 < spec.samples <= 0xFFFF && 0 < |spec.sampleShape| <= MAX_RANK && 0 < spec.elementBytes
    && (forall d | 0 <= d < |spec.sampleShape| :: spec.sampleShape[d] > 0)
  }

  lemma {:induction false} PrefixSize(shape: seq<nat>, k: nat)
    requires k <= |shape| && forall d | 0 <= d < |shape| :: shape[d] > 0
    ensures 0 < Size(shape[..k]) <= Size(shape)
    decreases |shape| - k
  {
    if k == |shape| {
      assert shape[..k] == shape;
      SizeOfPositive(shape);
    } else {
      PrefixSize(shape, k + 1);
      assert shape[..k + 1] == shape[..k] + [shape[k]];
      LengthProductSnoc(shape[..k], shape[k]);
      SizeOfPositive(shape[..k]);
      MulMono(1, shape[k], Size(shape[..k]));
    }
  }

  lemma {:induction false} SizeOfPositive(shape: seq<nat>)
    requires forall d | 0 <= d < |shape| :: shape[d] > 0
    ensures Size(shape) > 0
    decreases |shape|
  {
    if shape != [] {
      SizeOfPositive(shape[1..]);
      MulMono(1, shape[0], Size(shape[1..]));
    }
  }

  /** Row-major strides and the byte size of a batch buffer. Succeeds exactly when
      the extents are positive and the whole batch fits a signed element count and an
      unsigned byte count. */
  method BatchSpecLayout(spec: BatchSpec) returns (status: Status, shape: seq<nat>, strides: seq<nat>, bytes: nat)
    ensures status == OK <==>
              SpecOk(spec) && Size(BatchShape(spec)) <= I64_MAX && Size(BatchShape(spec)) <= U64_MAX / spec.elementBytes
    ensures status == OK ==>
              shape == BatchShape(spec) && StridesOf(shape, strides) && bytes == Size(shape) * spec.elementBytes
    ensures status != OK ==> status == if SpecOk(spec) && Size(BatchShape(spec)) <= I64_MAX then BUDGET else INVAL
  {
    shape, strides, bytes := [], [], 0;
    if spec.samples == 0 || spec.samples > 0xFFFF || |spec.sampleShape| == 0 || |spec.sampleShape| > MAX_RANK
       || spec.elementBytes == 0 {
      return INVAL, shape, strides, bytes;
    }
    shape := [spec.samples];
    var elements := spec.samples;
    assert shape[1..] == [] && Size(shape) == shape[0] * LengthProduct(shape[1..]);
    for d := 0 to |spec.sampleShape|
      invariant |shape| == d + 1 && shape[0] == spec.samples
      invariant forall k | 0 <= k < d :: spec.sampleShape[k] > 0 && shape[k + 1] == spec.sampleShape[k]
      invariant elements == Size(shape) && 0 < elements <= I64_MAX
    {
      var extent := spec.sampleShape[d];
      if extent <= 0 { return INVAL, shape, strides, bytes; }
      DivGalois(elements, I64_MAX, extent);
      LengthProductSnoc(shape, extent);
      ghost var more := shape + [extent];
      if SpecOk(spec) {
        assert BatchShape(spec)[..d + 2] == more;
        PrefixSize(BatchShape(spec), d + 2);
      }
      if elements > I64_MAX / extent { return INVAL, shape, strides, bytes; }
      MulMono(1, extent, elements);
      elements := elements * extent;
      shape := shape + [extent];
    }
    assert shape == BatchShape(spec);
    if elements > U64_MAX / spec.elementBytes { return BUDGET, shape, strides, bytes; }
    strides := Strides(shape);
    return OK, shape, strides, elements * spec.elementBytes;
  }

  method Strides(shape: seq<nat>) returns (strides: seq<nat>)
    requires shape != []
    ensures StridesOf(shape, strides)
  {
    strides := [1];
    var d := |shape| - 1;
    assert shape[d..][1..] == [];
    while d > 0
      invariant 0 <= d < |shape| && StridesOf(shape[d..], strides)
    {
      d := d - 1;
      assert shape[d..][1..] == shape[d + 1..];
      assert shape[d + 1..][1..] == shape[d + 2..];
      ghost var before := strides;
      strides := [strides[0] * shape[d + 1]] + strides;
      forall k | 0 <= k < |strides| ensures strides[k] == Size(shape[d..][k + 1..]) {
        if k > 0 {
          assert shape[d..][k + 1..] == shape[d + 1..][k..];
          assert before[k - 1] == Size(shape[d + 1..][k - 1 + 1..]);
        }
      }
    }
    assert shape[0..] == shape;
  }
}
