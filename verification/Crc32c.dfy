/** CRC32C: the table-driven loop computes the bit-serial reflected CRC with the polynomial
    of section 12.1 of RFC 3720. */
module Crc32c {

  const POLYNOMIAL: bv32 := 0x82F63B78

  function Xor(a: bv32, b: bv32): bv32 { a ^ b }

  function Half(x: bv32): bv32 { x >> 1 }

  function Low(x: bv32): bv32 { x & 1 }

  function Widen(byte: bv8): bv32 { byte as bv32 }

  function LowByte(x: bv32): bv32 { x & 0xFF }

  function HighBytes(x: bv32): bv32 { x & 0xFFFF_FF00 }

  function DropByte(x: bv32): bv32 { x >> 8 }

  // --- The reference: one bit at a time -----------------------------------------------------

  function Feedback(low: bv32): bv32 {
    if low == 1 then POLYNOMIAL else 0
  }

  /** Shifts one message bit into the register, lowest bit first. */
  function Shift(crc: bv32, bit: bv32): bv32 {
    Xor(Half(crc), Feedback(Xor(Low(crc), bit)))
  }

  /** Shifts in the `count` lowest bits of `bits`. */
  function ShiftBits(crc: bv32, bits: bv32, count: nat): bv32
    decreases count
  {
    if count == 0 then crc else ShiftBits(Shift(crc, Low(bits)), Half(bits), count - 1)
  }

  /** The register after a whole message. */
  function ShiftBytes(crc: bv32, data: seq<bv8>): bv32
    decreases |data|
  {
    if data == [] then crc else ShiftBits(ShiftBytes(crc, data[..|data| - 1]), Widen(data[|data| - 1]), 8)
  }

  // --- Why a table works -------------------------------------------------------------------------

  /** One step of the register with no message bit. */
  function Step(crc: bv32): bv32 {
    Xor(Half(crc), Feedback(Low(crc)))
  }

  function Steps(crc: bv32, count: nat): bv32
    decreases count
  {
    if count == 0 then crc else Steps(Step(crc), count - 1)
  }

  lemma XorHalf(a: bv32, b: bv32)
    ensures Half(Xor(a, b)) == Xor(Half(a), Half(b))
  {
  }

  lemma XorLow(a: bv32, b: bv32)
    ensures Low(Xor(a, b)) == Xor(Low(a), Low(b))
    ensures Low(a) == 0 || Low(a) == 1
  {
  }

  lemma XorFour(a: bv32, b: bv32, c: bv32, d: bv32)
    ensures Xor(Xor(a, b), Xor(c, d)) == Xor(Xor(a, c), Xor(b, d))
  {
    calc {
      Xor(Xor(a, b), Xor(c, d));
      (a ^ b) ^ (c ^ d);
      (a ^ c) ^ (b ^ d);
      Xor(Xor(a, c), Xor(b, d));
    }
  }

  lemma XorZero(a: bv32)
    ensures Xor(a, 0) == a
  {
  }

  lemma XorSwap(a: bv32, b: bv32, c: bv32)
    ensures Xor(Xor(a, b), c) == Xor(Xor(a, c), b)
  {
    hide Xor;
    XorFour(a, b, c, 0);
    XorZero(b);
    XorZero(c);
  }

  lemma FeedbackLinear(x: bv32, y: bv32)
    requires (x == 0 || x == 1) && (y == 0 || y == 1)
    ensures Feedback(Xor(x, y)) == Xor(Feedback(x), Feedback(y))
  {
    if x == y {
      assert Xor(x, y) == 0;
      assert Xor(Feedback(x), Feedback(y)) == 0;
    }
  }

  /** A step distributes over xor, so any number of steps does. */
  lemma StepLinear(a: bv32, b: bv32)
    ensures Step(Xor(a, b)) == Xor(Step(a), Step(b))
  {
    hide Xor, Half, Low, Feedback;
    XorHalf(a, b);
    XorLow(a, b);
    XorLow(b, a);
    FeedbackLinear(Low(a), Low(b));
    XorFour(Half(a), Half(b), Feedback(Low(a)), Feedback(Low(b)));
  }

  lemma {:induction false} StepsLinear(a: bv32, b: bv32, count: nat)
    ensures Steps(Xor(a, b), count) == Xor(Steps(a, count), Steps(b, count))
    decreases count
  {
    hide Xor, Step;
    if count > 0 {
      StepLinear(a, b);
      StepsLinear(Step(a), Step(b), count - 1);
    }
  }

  lemma ShiftIsStep(crc: bv32, bits: bv32)
    ensures Step(Xor(crc, bits)) == Xor(Shift(crc, Low(bits)), Half(bits))
  {
    hide Xor, Half, Low, Feedback;
    XorHalf(crc, bits);
    XorLow(crc, bits);
    XorSwap(Half(crc), Half(bits), Feedback(Xor(Low(crc), Low(bits))));
  }

  /** `bits` has no bits beyond the lowest `count`. */
  ghost predicate Narrow(bits: bv32, count: nat)
    decreases count
  {
    if count == 0 then bits == 0 else Narrow(Half(bits), count - 1)
  }

  /** Message bits may be added to the register before stepping. */
  lemma {:induction false} BitsAreSteps(crc: bv32, bits: bv32, count: nat)
    requires Narrow(bits, count)
    ensures ShiftBits(crc, bits, count) == Steps(Xor(crc, bits), count)
    decreases count
  {
    hide Xor, Half, Low, Step, Shift;
    if count == 0 {
      XorZero(crc);
    } else {
      ShiftIsStep(crc, bits);
      BitsAreSteps(Shift(crc, Low(bits)), Half(bits), count - 1);
    }
  }

  // --- One byte ------------------------------------------------------------------------------------

  /** The register shifted down `count` times. */
  function Halves(x: bv32, count: nat): bv32
    decreases count
  {
    if count == 0 then x else Halves(Half(x), count - 1)
  }

  lemma HalvesStep(x: bv32, count: nat)
    requires count > 0
    ensures Halves(x, count) == Halves(x >> 1, count - 1)
  {
  }

  lemma EightHalves(x: bv32)
    ensures Halves(x, 8) == DropByte(x)
  {
    HalvesStep(x, 8);
    HalvesStep(x >> 1, 7);
    HalvesStep((x >> 1) >> 1, 6);
    HalvesStep(((x >> 1) >> 1) >> 1, 5);
    HalvesStep((((x >> 1) >> 1) >> 1) >> 1, 4);
    HalvesStep(((((x >> 1) >> 1) >> 1) >> 1) >> 1, 3);
    HalvesStep((((((x >> 1) >> 1) >> 1) >> 1) >> 1) >> 1, 2);
    HalvesStep(((((((x >> 1) >> 1) >> 1) >> 1) >> 1) >> 1) >> 1, 1);
    HalvesNone(((((((((x >> 1) >> 1) >> 1) >> 1) >> 1) >> 1) >> 1) >> 1));
    hide Halves;
    EightShifts(x);
  }

  lemma HalvesNone(x: bv32)
    ensures Halves(x, 0) == x
  {
  }

  lemma EightShifts(x: bv32)
    ensures (((((((x >> 1) >> 1) >> 1) >> 1) >> 1) >> 1) >> 1) >> 1 == x >> 8
  {
  }

  /** Only zero bits leave the register while it is shifted `count` times. */
  ghost predicate Zeros(x: bv32, count: nat)
    decreases count
  {
    count == 0 || (Low(x) == 0 && Zeros(Half(x), count - 1))
  }

  lemma EvenStep(x: bv32)
    requires Low(x) == 0
    ensures Step(x) == Half(x)
  {
    XorZero(Half(x));
  }

  lemma {:induction false} ZerosShift(x: bv32, count: nat)
    requires Zeros(x, count)
    ensures Steps(x, count) == Halves(x, count)
    decreases count
  {
    hide Half, Low, Step;
    if count > 0 {
      EvenStep(x);
      ZerosShift(Half(x), count - 1);
    }
  }

  lemma HalfMask(x: bv32, mask: bv32)
    requires x & mask == 0
    ensures Half(x) & Half(mask) == 0
  {
  }

  lemma LowMask(x: bv32, mask: bv32)
    requires x & mask == 0 && Low(mask) == 1
    ensures Low(x) == 0
  {
  }

  lemma HighZeros(x: bv32)
    requires LowByte(x) == 0
    ensures Zeros(x, 8)
  {
    MaskZeros(x, 0xFF, 8);
  }

  /** The lowest `count` bits of the mask are ones. */
  ghost predicate Ones(mask: bv32, count: nat)
    decreases count
  {
    count == 0 || (Low(mask) == 1 && Ones(Half(mask), count - 1))
  }

  lemma {:induction false} MaskZeros(x: bv32, mask: bv32, count: nat)
    requires x & mask == 0 && Ones(mask, count)
    ensures Zeros(x, count)
    decreases count
  {
    hide Half, Low;
    if count > 0 {
      LowMask(x, mask);
      HalfMask(x, mask);
      MaskZeros(Half(x), Half(mask), count - 1);
    }
  }

  lemma JoinBytes(x: bv32)
    ensures Xor(LowByte(x), HighBytes(x)) == x
  {
  }

  lemma HighBytesLow(x: bv32)
    ensures LowByte(HighBytes(x)) == 0
  {
  }

  lemma HighBytesDrop(x: bv32)
    ensures DropByte(HighBytes(x)) == DropByte(x)
  {
  }

  /** Eight steps: look up the low byte, shift the rest. */
  lemma ByteSteps(crc: bv32)
    ensures Steps(crc, 8) == Xor(Steps(LowByte(crc), 8), DropByte(crc))
  {
    hide Xor, Steps, Halves, LowByte, HighBytes, DropByte;
    JoinBytes(crc);
    HighBytesLow(crc);
    HighBytesDrop(crc);
    StepsLinear(LowByte(crc), HighBytes(crc), 8);
    HighZeros(HighBytes(crc));
    ZerosShift(HighBytes(crc), 8);
    EightHalves(HighBytes(crc));
  }

  // --- crc32c_init and crc32c -------------------------------------------------------------------------

  /** The masked form of the feedback used to build the table. */
  lemma MaskIsFeedback(crc: bv32)
    ensures (crc >> 1) ^ (POLYNOMIAL & (0 - (crc & 1))) == Step(crc)
  {
    if crc & 1 == 1 {
      assert 0 - (crc & 1) == 0xFFFF_FFFF;
    } else {
      assert crc & 1 == 0;
    }
  }

  lemma {:induction false} StepsLast(crc: bv32, count: nat)
    ensures Steps(crc, count + 1) == Step(Steps(crc, count))
    decreases count
  {
    hide Step;
    if count > 0 { StepsLast(Step(crc), count - 1); }
  }

  function Index(i: nat): bv32
    requires i < 256
  {
    i as bv32
  }

  /** Entry i of the table is eight steps from i. */
  ghost predicate TableOk(table: seq<bv32>) {
    |table| == 256 && forall i | 0 <= i < 256 :: table[i] == Steps(Index(i), 8)
  }

  method BuildTable() returns (table: seq<bv32>)
    ensures TableOk(table)
  {
    hide Steps, Step;
    table := [];
    for i := 0 to 256
      invariant |table| == i && forall k | 0 <= k < i :: table[k] == Steps(Index(k), 8)
    {
      var crc := Index(i);
      StepsNone(crc);
      for j := 0 to 8
        invariant crc == Steps(Index(i), j)
      {
        MaskIsFeedback(crc);
        StepsLast(Index(i), j);
        crc := (crc >> 1) ^ (POLYNOMIAL & (0 - (crc & 1)));
      }
      table := table + [crc];
    }
  }

  lemma StepsNone(crc: bv32)
    ensures Steps(crc, 0) == crc
  {
  }

  function Slot(x: bv32): (i: nat)
    ensures i < 256
  {
    SmallByte(x);
    LowByte(x) as nat
  }

  lemma SmallByte(x: bv32)
    ensures 0 <= LowByte(x) as int < 256
  {
    assert LowByte(x) < 256;
  }

  lemma RoundTrip(x: bv32)
    ensures (x as int) as bv32 == x
  {
  }

  lemma SlotIndex(x: bv32)
    ensures Index(Slot(x)) == LowByte(x)
  {
    hide LowByte;
    RoundTrip(LowByte(x));
  }

  /** The loop body: one table look-up per byte. */
  function Next(table: seq<bv32>, crc: bv32, byte: bv8): bv32
    requires |table| == 256
  {
    Xor(table[Slot(Xor(crc, Widen(byte)))], DropByte(crc))
  }

  method Checksum(table: seq<bv32>, data: seq<bv8>) returns (crc: bv32)
    requires TableOk(table)
    ensures crc == Crc(data)
  {
    hide ShiftBits, Steps, Next, Widen, Xor;
    crc := 0xFFFF_FFFF;
    for i := 0 to |data|
      invariant crc == ShiftBytes(0xFFFF_FFFF, data[..i])
    {
      NextByte(table, crc, data[i]);
      assert data[..i + 1][..i] == data[..i];
      crc := Next(table, crc, data[i]);
    }
    assert data[..|data|] == data;
    crc := Xor(crc, 0xFFFF_FFFF);
  }

  /** The loop body shifts in one byte. */
  lemma NextByte(table: seq<bv32>, crc: bv32, byte: bv8)
    requires TableOk(table)
    ensures Next(table, crc, byte) == ShiftBits(crc, Widen(byte), 8)
  {
    hide Steps, ShiftBits, Widen, Xor, Slot, Index, DropByte, LowByte;
    var x := Xor(crc, Widen(byte));
    SlotIndex(x);
    assert table[Slot(x)] == Steps(Index(Slot(x)), 8);
    ByteNarrow(byte);
    BitsAreSteps(crc, Widen(byte), 8);
    ByteSteps(x);
    HighUnchanged(crc, byte);
  }

  lemma HighUnchanged(crc: bv32, byte: bv8)
    ensures DropByte(Xor(crc, Widen(byte))) == DropByte(crc)
  {
  }

  lemma ByteNarrow(byte: bv8)
    ensures Narrow(Widen(byte), 8)
  {
    hide Narrow, Halves, Widen, DropByte;
    NarrowHalves(Widen(byte), 8);
    EightHalves(Widen(byte));
    ByteHigh(byte);
  }

  lemma ByteHigh(byte: bv8)
    ensures DropByte(Widen(byte)) == 0
  {
  }

  lemma {:induction false} NarrowHalves(x: bv32, count: nat)
    ensures Narrow(x, count) <==> Halves(x, count) == 0
    decreases count
  {
    hide Half;
    if count > 0 { NarrowHalves(Half(x), count - 1); }
  }

  // --- What the checksum is good for -------------------------------------------------------------------

  /** The bit that leaves the register returns as its top bit, so no step loses anything. */
  lemma StepInjective(a: bv32, b: bv32)
    requires Step(a) == Step(b)
    ensures a == b
  {
  }

  lemma {:induction false} StepsInjective(a: bv32, b: bv32, count: nat)
    requires Steps(a, count) == Steps(b, count)
    ensures a == b
    decreases count
  {
    hide Step;
    if count > 0 {
      StepsInjective(Step(a), Step(b), count - 1);
      StepInjective(a, b);
    }
  }

  lemma XorInjective(a: bv32, b: bv32, c: bv32)
    ensures Xor(a, c) == Xor(b, c) ==> a == b
    ensures Xor(c, a) == Xor(c, b) ==> a == b
  {
  }

  /** Registers that differ stay different whatever is shifted in. */
  lemma {:induction false} RegistersStayApart(a: bv32, b: bv32, data: seq<bv8>)
    requires a != b
    ensures ShiftBytes(a, data) != ShiftBytes(b, data)
    decreases |data|
  {
    hide Xor, Steps, ShiftBits, Widen;
    if data != [] {
      var n := |data| - 1;
      RegistersStayApart(a, b, data[..n]);
      var x, y, byte := ShiftBytes(a, data[..n]), ShiftBytes(b, data[..n]), data[n];
      ByteNarrow(byte);
      BitsAreSteps(x, Widen(byte), 8);
      BitsAreSteps(y, Widen(byte), 8);
      if Steps(Xor(x, Widen(byte)), 8) == Steps(Xor(y, Widen(byte)), 8) {
        StepsInjective(Xor(x, Widen(byte)), Xor(y, Widen(byte)), 8);
        XorInjective(x, y, Widen(byte));
      }
    }
  }

  lemma {:induction false} ShiftAppend(crc: bv32, a: seq<bv8>, b: seq<bv8>)
    ensures ShiftBytes(crc, a + b) == ShiftBytes(ShiftBytes(crc, a), b)
    decreases |b|
  {
    hide ShiftBits;
    if b == [] {
      assert a + b == a;
    } else {
      var n := |b| - 1;
      ShiftAppend(crc, a, b[..n]);
      assert (a + b)[..|a + b| - 1] == a + b[..n];
    }
  }

  /** The word whose bytes, lowest first, are the data. */
  function Word(data: seq<bv8>): bv32
    decreases |data|
  {
    if data == [] then 0 else Raise(Word(data[1..])) | Widen(data[0])
  }

  function Raise(x: bv32): bv32 { x << 8 }

  lemma {:induction false} ShiftBitsSplit(crc: bv32, bits: bv32, m: nat, n: nat)
    ensures ShiftBits(crc, bits, m + n) == ShiftBits(ShiftBits(crc, bits, m), Halves(bits, m), n)
    decreases m
  {
    hide Shift, Half, Low;
    if m > 0 { ShiftBitsSplit(Shift(crc, Low(bits)), Half(bits), m - 1, n); }
  }

  /** Only the bits that are shifted in matter. */
  lemma {:induction false} SameLowBits(crc: bv32, a: bv32, b: bv32, count: nat)
    requires Zeros(Xor(a, b), count)
    ensures ShiftBits(crc, a, count) == ShiftBits(crc, b, count)
    decreases count
  {
    hide Xor, Half, Low, Shift;
    if count > 0 {
      XorHalf(a, b);
      XorLow(a, b);
      XorLow(b, a);
      SameBit(Low(a), Low(b));
      SameLowBits(Shift(crc, Low(a)), Half(a), Half(b), count - 1);
    }
  }

  lemma SameBit(x: bv32, y: bv32)
    requires Xor(x, y) == 0
    ensures x == y
  {
  }

  lemma LowestByte(x: bv32, byte: bv8)
    ensures LowByte(Xor(Raise(x) | Widen(byte), Widen(byte))) == 0
  {
  }

  lemma NextBytes(x: bv32, byte: bv8)
    requires x & 0xFF00_0000 == 0
    ensures DropByte(Raise(x) | Widen(byte)) == x
  {
  }

  lemma {:induction false} WordShort(data: seq<bv8>)
    requires |data| <= 3
    ensures Word(data) & 0xFF00_0000 == 0
    ensures |data| <= 2 ==> Word(data) & 0xFFFF_0000 == 0
    ensures |data| <= 1 ==> Word(data) & 0xFFFF_FF00 == 0
    decreases |data|
  {
    if data != [] {
      WordShort(data[1..]);
      Raised(Word(data[1..]), data[0]);
    }
  }

  lemma Raised(x: bv32, byte: bv8)
    ensures x & 0xFFFF_0000 == 0 ==> (Raise(x) | Widen(byte)) & 0xFF00_0000 == 0
    ensures x & 0xFFFF_FF00 == 0 ==> (Raise(x) | Widen(byte)) & 0xFFFF_0000 == 0
    ensures x == 0 ==> (Raise(x) | Widen(byte)) & 0xFFFF_FF00 == 0
  {
  }

  /** Up to four bytes go in like the bits of their word. */
  lemma {:induction false} WordShifts(crc: bv32, data: seq<bv8>)
    requires |data| <= 4
    ensures ShiftBytes(crc, data) == ShiftBits(crc, Word(data), 8 * |data|)
    decreases |data|
  {
    hide ShiftBits, LowByte, DropByte, Xor, Widen, Raise;
    if data == [] {
      NoBits(crc, Word(data));
    } else {
      var first, rest := data[0], data[1..];
      var mid := ShiftBits(crc, Widen(first), 8);
      OneByte(crc, first);
      assert data == [first] + rest;
      ShiftAppend(crc, [first], rest);
      WordShifts(mid, rest);
      LowestByte(Word(rest), first);
      HighZeros(Xor(Word(data), Widen(first)));
      SameLowBits(crc, Word(data), Widen(first), 8);
      ShiftBitsSplit(crc, Word(data), 8, 8 * |rest|);
      EightHalves(Word(data));
      WordShort(rest);
      NextBytes(Word(rest), first);
    }
  }

  lemma NoBits(crc: bv32, bits: bv32)
    ensures ShiftBits(crc, bits, 0) == crc
  {
  }

  lemma OneByte(crc: bv32, byte: bv8)
    ensures ShiftBytes(crc, [byte]) == ShiftBits(crc, Widen(byte), 8)
  {
    assert [byte][..0] == [];
  }

  lemma {:induction false} WordInjective(a: seq<bv8>, b: seq<bv8>)
    requires |a| == |b| <= 4 && Word(a) == Word(b)
    ensures a == b
    decreases |a|
  {
    hide Raise, Widen;
    if a != [] {
      WordShort(a[1..]);
      WordShort(b[1..]);
      SplitWord(Word(a[1..]), a[0], Word(b[1..]), b[0]);
      WordInjective(a[1..], b[1..]);
      assert a == [a[0]] + a[1..] && b == [b[0]] + b[1..];
    }
  }

  lemma SplitWord(x: bv32, a: bv8, y: bv32, b: bv8)
    requires x & 0xFF00_0000 == 0 && y & 0xFF00_0000 == 0 && Raise(x) | Widen(a) == Raise(y) | Widen(b)
    ensures x == y && a == b
  {
    hide Raise, Widen, DropByte, LowByte;
    NextBytes(x, a);
    NextBytes(y, b);
    LowestIs(x, a);
    LowestIs(y, b);
    WidenInjective(a, b);
  }

  lemma LowestIs(x: bv32, a: bv8)
    ensures LowByte(Raise(x) | Widen(a)) == Widen(a)
  {
  }

  lemma WidenInjective(a: bv8, b: bv8)
    requires Widen(a) == Widen(b)
    ensures a == b
  {
  }

  /** The checksum of a message. */
  function Crc(data: seq<bv8>): bv32 {
    Xor(ShiftBytes(0xFFFF_FFFF, data), 0xFFFF_FFFF)
  }

  /** Damage to at most four consecutive bytes never goes unnoticed. */
  lemma BurstDetected(head: seq<bv8>, a: seq<bv8>, b: seq<bv8>, tail: seq<bv8>)
    requires |a| == |b| <= 4 && a != b
    ensures Crc(head + a + tail) != Crc(head + b + tail)
  {
    hide Xor, Steps, ShiftBits, ShiftBytes, Word;
    var start := ShiftBytes(0xFFFF_FFFF, head);
    var x, y := ShiftBytes(start, a), ShiftBytes(start, b);
    ShiftAppend(0xFFFF_FFFF, head + a, tail);
    ShiftAppend(0xFFFF_FFFF, head + b, tail);
    ShiftAppend(0xFFFF_FFFF, head, a);
    ShiftAppend(0xFFFF_FFFF, head, b);
    BytesApart(start, a, b);
    RegistersStayApart(x, y, tail);
    XorInjective(ShiftBytes(x, tail), ShiftBytes(y, tail), 0xFFFF_FFFF);
  }

  lemma BytesApart(crc: bv32, a: seq<bv8>, b: seq<bv8>)
    requires |a| == |b| <= 4 && a != b
    ensures ShiftBytes(crc, a) != ShiftBytes(crc, b)
  {
    hide Xor, Steps, ShiftBits, ShiftBytes, Word;
    var n := 8 * |a|;
    WordShifts(crc, a);
    WordShifts(crc, b);
    WordNarrow(a);
    WordNarrow(b);
    BitsAreSteps(crc, Word(a), n);
    BitsAreSteps(crc, Word(b), n);
    if Steps(Xor(crc, Word(a)), n) == Steps(Xor(crc, Word(b)), n) {
      StepsInjective(Xor(crc, Word(a)), Xor(crc, Word(b)), n);
      XorInjective(Word(a), Word(b), crc);
      WordInjective(a, b);
      assert false;
    }
  }

  lemma {:induction false} WordNarrow(data: seq<bv8>)
    requires |data| <= 4
    ensures Narrow(Word(data), 8 * |data|)
    decreases |data|
  {
    hide Raise, Widen, DropByte;
    if data != [] {
      var rest := data[1..];
      WordNarrow(rest);
      WordShort(rest);
      NextBytes(Word(rest), data[0]);
      EightHalves(Word(data));
      NarrowSplit(Word(data), 8, 8 * |rest|);
    }
  }

  lemma {:induction false} NarrowSplit(x: bv32, m: nat, n: nat)
    ensures Narrow(x, m + n) <==> Narrow(Halves(x, m), n)
    decreases m
  {
    hide Half;
    if m > 0 { NarrowSplit(Half(x), m - 1, n); }
  }

  /** A known value: the checksum of the letter a. */
  lemma KnownValue()
    ensures Crc([0x61]) == 0xC1D0_4330
  {
    OneByte(0xFFFF_FFFF, 0x61);
    LetterShifts();
  }

  lemma LetterShifts()
    ensures ShiftBits(0xFFFF_FFFF, Widen(0x61), 8) == 0x3E2F_BCCF
  {
  }
}
