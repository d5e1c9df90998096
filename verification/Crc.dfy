/** CRC-32 as section 8 of RFC 1952 defines it, one bit at a time, and its algebra:
    the register is linear over exclusive or, so the checksums of two parts combine
    into the checksum of the whole.

    Lemma bodies start with `hide *` so that the solver treats registers as elements of
    a vector space over GF(2) and does not expand 32-bit words. */
module Crc {
  import opened Bytes

  /** The generator polynomial, bits reversed. */
  const POLYNOMIAL: bv32 := 0xEDB8_8320

  /** The initial register, which is also the mask applied at the end. */
  const ALL_ONES: bv32 := 0xFFFF_FFFF

  /** Addition of registers. */
  function Plus(a: bv32, b: bv32): bv32 {
    a ^ b
  }

  /** Addition of bytes. */
  function PlusByte(a: byte, b: byte): byte {
    a ^ b
  }

  /** The register whose low byte is `b`. */
  function Low(b: byte): bv32 {
    b as bv32
  }

  /** The lowest bit of a byte, as a register. */
  function FirstBit(b: byte): bv32 {
    (b & 1) as bv32
  }

  /** A byte without its lowest bit, moved down. */
  function OtherBits(b: byte): byte {
    b >> 1
  }

  /** Shifts one bit out of the register. */
  function Shift(r: bv32): bv32 {
    if r & 1 == 1 then (r >> 1) ^ POLYNOMIAL else r >> 1
  }

  /** The register after consuming the `n` lowest bits of `b`, least significant first. */
  function FeedBits(r: bv32, b: byte, n: nat): bv32
    decreases n
  {
    if n == 0 then r else FeedBits(Shift(Plus(r, FirstBit(b))), OtherBits(b), n - 1)
  }

  /** The register after consuming one byte. */
  function FeedByte(r: bv32, b: byte): bv32 {
    FeedBits(r, b, 8)
  }

  /** The register after consuming a byte string. */
  function Feed(r: bv32, data: seq<byte>): bv32
    decreases data
  {
    if data == [] then r else Feed(FeedByte(r, data[0]), data[1..])
  }

  /** The CRC-32 of a byte string. */
  function Checksum(data: seq<byte>): bv32 {
    Plus(Feed(ALL_ONES, data), ALL_ONES)
  }

  /** The register after consuming `n` zero bytes. */
  function FeedZeros(r: bv32, n: nat): bv32
    decreases n
  {
    if n == 0 then r else FeedZeros(FeedByte(r, 0), n - 1)
  }

  // ---------- the vector space ----------

  lemma PlusIsXor(a: bv32, b: bv32)
    ensures Plus(a, b) == a ^ b
  {
  }

  lemma PlusAssociates(a: bv32, b: bv32, c: bv32)
    ensures Plus(Plus(a, b), c) == Plus(a, Plus(b, c))
  {
  }

  lemma PlusCommutes(a: bv32, b: bv32)
    ensures Plus(a, b) == Plus(b, a)
  {
  }

  lemma PlusZero(a: bv32)
    ensures Plus(a, 0) == a && Plus(0, a) == a && Plus(a, a) == 0
  {
  }

  lemma PlusSwaps(a: bv32, b: bv32, c: bv32, d: bv32)
    ensures Plus(Plus(a, b), Plus(c, d)) == Plus(Plus(a, c), Plus(b, d))
  {
    hide *;
    PlusAssociates(a, b, Plus(c, d));
    PlusAssociates(b, c, d);
    PlusCommutes(b, c);
    PlusAssociates(c, b, d);
    PlusAssociates(a, c, Plus(b, d));
  }

  lemma PlusByteParts(x: byte, y: byte)
    ensures Low(PlusByte(x, y)) == Plus(Low(x), Low(y))
    ensures FirstBit(PlusByte(x, y)) == Plus(FirstBit(x), FirstBit(y))
    ensures OtherBits(PlusByte(x, y)) == PlusByte(OtherBits(x), OtherBits(y))
    ensures PlusByte(x, 0) == x && PlusByte(0, x) == x
  {
  }

  // ---------- linearity ----------

  lemma LowestBit(r: bv32)
    ensures r & 1 == 0 || r & 1 == 1
  {
  }

  lemma ShiftLinearOddOdd(a: bv32, b: bv32)
    requires a & 1 == 1 && b & 1 == 1
    ensures Shift(a ^ b) == Shift(a) ^ Shift(b)
  {
  }

  lemma ShiftLinearOddEven(a: bv32, b: bv32)
    requires a & 1 == 1 && b & 1 == 0
    ensures Shift(a ^ b) == Shift(a) ^ Shift(b)
  {
  }

  lemma ShiftLinearEvenEven(a: bv32, b: bv32)
    requires a & 1 == 0 && b & 1 == 0
    ensures Shift(a ^ b) == Shift(a) ^ Shift(b)
  {
  }

  lemma ShiftIsLinear(a: bv32, b: bv32)
    ensures Shift(Plus(a, b)) == Plus(Shift(a), Shift(b))
  {
    hide *;
    LowestBit(a);
    LowestBit(b);
    PlusCommutes(a, b);
    PlusCommutes(Shift(a), Shift(b));
    PlusIsXor(a, b);
    PlusIsXor(b, a);
    PlusIsXor(Shift(a), Shift(b));
    PlusIsXor(Shift(b), Shift(a));
    if a & 1 == 1 && b & 1 == 1 {
      ShiftLinearOddOdd(a, b);
    } else if a & 1 == 1 {
      ShiftLinearOddEven(a, b);
    } else if b & 1 == 1 {
      ShiftLinearOddEven(b, a);
    } else {
      ShiftLinearEvenEven(a, b);
    }
  }

  /** The definition of FeedBits, for use where it is hidden. */
  lemma FeedBitsUnfold(r: bv32, b: byte, n: nat)
    ensures FeedBits(r, b, 0) == r
    ensures n > 0 ==> FeedBits(r, b, n) == FeedBits(Shift(Plus(r, FirstBit(b))), OtherBits(b), n - 1)
  {
    hide Shift, Plus, FirstBit, OtherBits;
  }

  lemma {:induction false} FeedBitsIsLinear(a: bv32, b: bv32, x: byte, y: byte, n: nat)
    ensures FeedBits(Plus(a, b), PlusByte(x, y), n) == Plus(FeedBits(a, x, n), FeedBits(b, y, n))
    decreases n
  {
    hide *;
    FeedBitsUnfold(a, x, n);
    FeedBitsUnfold(b, y, n);
    FeedBitsUnfold(Plus(a, b), PlusByte(x, y), n);
    if n > 0 {
      var u, v := FirstBit(x), FirstBit(y);
      PlusByteParts(x, y);
      PlusSwaps(a, b, u, v);
      ShiftIsLinear(Plus(a, u), Plus(b, v));
      FeedBitsIsLinear(Shift(Plus(a, u)), Shift(Plus(b, v)), OtherBits(x), OtherBits(y), n - 1);
    }
  }

  lemma FeedByteIsLinear(a: bv32, b: bv32, x: byte, y: byte)
    ensures FeedByte(Plus(a, b), PlusByte(x, y)) == Plus(FeedByte(a, x), FeedByte(b, y))
  {
    hide FeedBits, Plus, PlusByte;
    FeedBitsIsLinear(a, b, x, y, 8);
  }

  /** The two inputs of a byte step contribute independently. */
  lemma FeedByteSplits(r: bv32, b: byte)
    ensures FeedByte(r, b) == Plus(FeedByte(r, 0), FeedByte(0, b))
  {
    hide *;
    FeedByteIsLinear(r, 0, 0, b);
    PlusZero(r);
    PlusByteParts(b, 0);
  }

  lemma FeedUnfold(r: bv32, data: seq<byte>)
    ensures data == [] ==> Feed(r, data) == r
    ensures data != [] ==> Feed(r, data) == Feed(FeedByte(r, data[0]), data[1..])
  {
    hide FeedByte;
  }

  lemma FeedZerosUnfold(r: bv32, n: nat)
    ensures FeedZeros(r, 0) == r
    ensures n > 0 ==> FeedZeros(r, n) == FeedZeros(FeedByte(r, 0), n - 1)
  {
    hide FeedByte;
  }

  lemma {:induction false} FeedZerosIsLinear(a: bv32, b: bv32, n: nat)
    ensures FeedZeros(Plus(a, b), n) == Plus(FeedZeros(a, n), FeedZeros(b, n))
    decreases n
  {
    hide *;
    FeedZerosUnfold(a, n);
    FeedZerosUnfold(b, n);
    FeedZerosUnfold(Plus(a, b), n);
    if n > 0 {
      FeedByteIsLinear(a, b, 0, 0);
      PlusByteParts(0, 0);
      FeedZerosIsLinear(FeedByte(a, 0), FeedByte(b, 0), n - 1);
    }
  }

  /** The start register and the data contribute independently. */
  lemma {:induction false} FeedSplits(r: bv32, data: seq<byte>)
    ensures Feed(r, data) == Plus(FeedZeros(r, |data|), Feed(0, data))
    decreases |data|
  {
    hide *;
    FeedUnfold(r, data);
    FeedUnfold(0, data);
    FeedZerosUnfold(r, |data|);
    PlusZero(r);
    if data != [] {
      var tail, n := data[1..], |data| - 1;
      var z, d := FeedByte(r, 0), FeedByte(0, data[0]);
      FeedByteSplits(r, data[0]);
      FeedSplits(Plus(z, d), tail);
      FeedZerosIsLinear(z, d, n);
      FeedSplits(d, tail);
      PlusAssociates(FeedZeros(z, n), FeedZeros(d, n), Feed(0, tail));
    }
  }

  // ---------- concatenation ----------

  /** Checksumming continues across concatenation. */
  lemma {:induction false} FeedConcat(r: bv32, x: seq<byte>, y: seq<byte>)
    ensures Feed(r, x + y) == Feed(Feed(r, x), y)
    decreases |x|
  {
    hide *;
    FeedUnfold(r, x);
    if x == [] {
      assert x + y == y;
    } else {
      FeedUnfold(r, x + y);
      assert (x + y)[1..] == x[1..] + y;
      FeedConcat(FeedByte(r, x[0]), x[1..], y);
    }
  }

  /** The checksum of a concatenation from the checksums of its parts and the length of
      the second part. */
  function Combine(first: bv32, second: bv32, secondLength: nat): bv32 {
    Plus(FeedZeros(first, secondLength), second)
  }

  lemma CancelMasks(a: bv32, m: bv32, d: bv32, ones: bv32)
    ensures Plus(Plus(a, m), Plus(Plus(m, d), ones)) == Plus(Plus(a, d), ones)
  {
  }

  lemma ChecksumUnfold(x: seq<byte>)
    ensures Checksum(x) == Plus(Feed(ALL_ONES, x), ALL_ONES)
  {
    hide Feed, Plus;
  }

  lemma CombineUnfold(first: bv32, second: bv32, secondLength: nat)
    ensures Combine(first, second, secondLength) == Plus(FeedZeros(first, secondLength), second)
  {
    hide FeedZeros, Plus;
  }

  /** Combining checksums is checksumming the concatenation. */
  lemma CombineIsConcat(x: seq<byte>, y: seq<byte>)
    ensures Combine(Checksum(x), Checksum(y), |y|) == Checksum(x + y)
  {
    hide *;
    var rx := Feed(ALL_ONES, x);
    ChecksumUnfold(x);
    ChecksumUnfold(y);
    ChecksumUnfold(x + y);
    CombineUnfold(Checksum(x), Checksum(y), |y|);
    FeedConcat(ALL_ONES, x, y);
    FeedSplits(rx, y);
    FeedSplits(ALL_ONES, y);
    FeedZerosIsLinear(rx, ALL_ONES, |y|);
    CancelMasks(FeedZeros(rx, |y|), FeedZeros(ALL_ONES, |y|), Feed(0, y), ALL_ONES);
  }

  // ---------- whole bytes at a time ----------

  function ShiftTimes(r: bv32, n: nat): bv32
    decreases n
  {
    if n == 0 then r else ShiftTimes(Shift(r), n - 1)
  }

  lemma ShiftTimesUnfold(r: bv32, n: nat)
    ensures ShiftTimes(r, 0) == r
    ensures n > 0 ==> ShiftTimes(r, n) == ShiftTimes(Shift(r), n - 1)
  {
    hide Shift;
  }

  lemma {:induction false} ShiftTimesIsLinear(a: bv32, b: bv32, n: nat)
    ensures ShiftTimes(Plus(a, b), n) == Plus(ShiftTimes(a, n), ShiftTimes(b, n))
    decreases n
  {
    hide *;
    ShiftTimesUnfold(a, n);
    ShiftTimesUnfold(b, n);
    ShiftTimesUnfold(Plus(a, b), n);
    if n > 0 {
      ShiftIsLinear(a, b);
      ShiftTimesIsLinear(Shift(a), Shift(b), n - 1);
    }
  }

  function HalveTimes(b: byte, n: nat): byte
    decreases n
  {
    if n == 0 then b else HalveTimes(OtherBits(b), n - 1)
  }

  lemma HalveTimesUnfold(b: byte, n: nat)
    ensures HalveTimes(b, 0) == b
    ensures n > 0 ==> HalveTimes(b, n) == HalveTimes(OtherBits(b), n - 1)
  {
    hide OtherBits;
  }

  /** A byte is its lowest bit and the shifted-up others. */
  lemma ByteByParts(b: byte)
    ensures Low(b) == Plus(FirstBit(b), Low(b & 0xFE))
    ensures Shift(Low(b & 0xFE)) == Low(OtherBits(b))
  {
  }

  lemma CancelTwice(r: bv32, x: bv32)
    ensures Plus(Plus(r, x), x) == r
  {
  }

  /** Adding the bits one by one is adding them all first. */
  lemma {:induction false} FeedBitsIsShiftTimes(r: bv32, b: byte, n: nat)
    ensures FeedBits(r, b, n) == Plus(ShiftTimes(Plus(r, Low(b)), n), Low(HalveTimes(b, n)))
    decreases n
  {
    hide *;
    FeedBitsUnfold(r, b, n);
    ShiftTimesUnfold(Plus(r, Low(b)), n);
    HalveTimesUnfold(b, n);
    if n == 0 {
      CancelTwice(r, Low(b));
    } else {
      var first, others := FirstBit(b), Low(b & 0xFE);
      ByteByParts(b);
      PlusAssociates(r, first, others);
      ShiftIsLinear(Plus(r, first), others);
      FeedBitsIsShiftTimes(Shift(Plus(r, first)), OtherBits(b), n - 1);
    }
  }

  lemma HalvedAway(b: byte)
    ensures HalveTimes(b, 8) == 0
  {
    var b2 := OtherBits(OtherBits(b));
    var b4 := OtherBits(OtherBits(b2));
    var b6 := OtherBits(OtherBits(b4));
    assert HalveTimes(b, 8) == HalveTimes(b2, 6);
    assert HalveTimes(b2, 6) == HalveTimes(b4, 4);
    assert HalveTimes(b4, 4) == HalveTimes(b6, 2);
  }

  lemma FeedByteIsShift8(r: bv32, b: byte)
    ensures FeedByte(r, b) == ShiftTimes(Plus(r, Low(b)), 8)
  {
    hide FeedBits, Plus, ShiftTimes, HalveTimes;
    FeedBitsIsShiftTimes(r, b, 8);
    HalvedAway(b);
    PlusZero(ShiftTimes(Plus(r, Low(b)), 8));
  }

  /** A register moved down by one bit. */
  function Down(r: bv32): bv32 {
    r >> 1
  }

  function DownTimes(r: bv32, n: nat): bv32
    decreases n
  {
    if n == 0 then r else DownTimes(Down(r), n - 1)
  }

  /** Whether the `n` lowest bits are clear. */
  predicate LowClear(r: bv32, n: nat)
    decreases n
  {
    n == 0 || (r & 1 == 0 && LowClear(Down(r), n - 1))
  }

  /** Shifting a register whose low bits are clear only moves it down. */
  lemma {:induction false} ShiftTimesOfClear(r: bv32, n: nat)
    requires LowClear(r, n)
    ensures ShiftTimes(r, n) == DownTimes(r, n)
    decreases n
  {
    if n > 0 {
      assert Shift(r) == Down(r);
      hide Shift, Down;
      ShiftTimesOfClear(Down(r), n - 1);
    }
  }

  lemma HighBytesAreClear(r: bv32)
    requires r & 0xFF == 0
    ensures LowClear(r, 8)
  {
    assert LowClear(r >> 6, 2);
    assert LowClear(r >> 4, 4) by { assert (r >> 4) >> 1 >> 1 == r >> 6; }
    assert LowClear(r >> 2, 6) by { assert (r >> 2) >> 1 >> 1 == r >> 4; }
    assert r >> 1 >> 1 == r >> 2;
  }

  /** A register moved down by a byte. */
  function DropByte(r: bv32): bv32 {
    r >> 8
  }

  lemma DownEight(r: bv32)
    ensures DownTimes(r, 8) == DropByte(r)
  {
    assert DownTimes(r, 8) == DownTimes(r >> 2, 6) by { assert r >> 1 >> 1 == r >> 2; }
    assert DownTimes(r >> 2, 6) == DownTimes(r >> 4, 4) by { assert (r >> 2) >> 1 >> 1 == r >> 4; }
    assert DownTimes(r >> 4, 4) == DownTimes(r >> 6, 2) by { assert (r >> 4) >> 1 >> 1 == r >> 6; }
    assert DownTimes(r >> 6, 2) == r >> 8 by { assert (r >> 6) >> 1 >> 1 == r >> 8; }
  }

  /** The lowest byte of a register. */
  function LowByte(r: bv32): byte {
    (r & 0xFF) as byte
  }

  /** A register without its lowest byte. */
  function HighBytes(r: bv32): bv32 {
    r & 0xFFFF_FF00
  }

  lemma RegisterByParts(r: bv32)
    ensures r == Plus(Low(LowByte(r)), HighBytes(r))
    ensures HighBytes(r) & 0xFF == 0
  {
  }

  lemma DropKeepsHigh(r: bv32, b: byte)
    ensures DropByte(HighBytes(Plus(r, Low(b)))) == DropByte(r)
  {
  }

  lemma ShiftTimesOfHigh(r: bv32)
    ensures ShiftTimes(HighBytes(r), 8) == DropByte(HighBytes(r))
  {
    hide *;
    RegisterByParts(r);
    HighBytesAreClear(HighBytes(r));
    ShiftTimesOfClear(HighBytes(r), 8);
    DownEight(HighBytes(r));
  }

  /** The byte-wise step of RFC 1952: one table entry and one shift. */
  lemma FeedByteByTable(r: bv32, b: byte)
    ensures FeedByte(r, b) == Plus(FeedByte(0, LowByte(Plus(r, Low(b)))), DropByte(r))
  {
    hide *;
    var x := Plus(r, Low(b));
    RegisterByParts(x);
    FeedByteIsShift8(r, b);
    FeedByteIsShift8(0, LowByte(x));
    PlusZero(Low(LowByte(x)));
    ShiftTimesIsLinear(Low(LowByte(x)), HighBytes(x), 8);
    ShiftTimesOfHigh(x);
    DropKeepsHigh(r, b);
  }

  // ---------- words and bytes ----------

  /** Four bytes loaded as one little-endian word. */
  function Load(a: byte, b: byte, c: byte, d: byte): bv32 {
    (a as bv32) | ((b as bv32) << 8) | ((c as bv32) << 16) | ((d as bv32) << 24)
  }

  /** Byte `k` of a word, lowest first. */
  function ByteOf(w: bv32, k: nat): byte
    requires k < 4
  {
    if k == 0 then (w & 0xFF) as byte
    else if k == 1 then ((w >> 8) & 0xFF) as byte
    else if k == 2 then ((w >> 16) & 0xFF) as byte
    else ((w >> 24) & 0xFF) as byte
  }

  lemma LoadedBytes(a: byte, b: byte, c: byte, d: byte)
    ensures ByteOf(Load(a, b, c, d), 0) == a
    ensures ByteOf(Load(a, b, c, d), 1) == b
    ensures ByteOf(Load(a, b, c, d), 2) == c
    ensures ByteOf(Load(a, b, c, d), 3) == d
  {
  }

  /** A word as four bytes, lowest first. */
  function WordBytes(w: bv32): (s: bytes)
    ensures |s| == 4
  {
    [ByteOf(w, 0), ByteOf(w, 1), ByteOf(w, 2), ByteOf(w, 3)]
  }

  lemma LoadOfBytes(w: bv32)
    ensures Load(ByteOf(w, 0), ByteOf(w, 1), ByteOf(w, 2), ByteOf(w, 3)) == w
  {
  }

  // ---------- a changed byte changes the checksum ----------

  predicate Odd(r: bv32) {
    r & 1 == 1
  }

  lemma ShiftSameParity(a: bv32, b: bv32)
    requires Shift(a) == Shift(b)
    ensures Odd(a) == Odd(b)
  {
    assert (a >> 1) & 0x8000_0000 == 0 && (b >> 1) & 0x8000_0000 == 0;
    assert a & 1 == 1 ==> Shift(a) & 0x8000_0000 == 0x8000_0000;
    assert b & 1 == 1 ==> Shift(b) & 0x8000_0000 == 0x8000_0000;
    LowestBit(a);
    LowestBit(b);
  }

  lemma HalvesDetermine(a: bv32, b: bv32)
    requires Down(a) == Down(b) && Odd(a) == Odd(b)
    ensures a == b
  {
    assert a == ((a >> 1) << 1) | (a & 1);
    assert b == ((b >> 1) << 1) | (b & 1);
    LowestBit(a);
    LowestBit(b);
  }

  /** The lost bit tells how to undo a shift. */
  lemma HalfOfShift(a: bv32)
    ensures Down(a) == if Odd(a) then Plus(Shift(a), POLYNOMIAL) else Shift(a)
  {
  }

  lemma ShiftIsInjective(a: bv32, b: bv32)
    requires Shift(a) == Shift(b)
    ensures a == b
  {
    hide *;
    ShiftSameParity(a, b);
    HalfOfShift(a);
    HalfOfShift(b);
    HalvesDetermine(a, b);
  }

  lemma {:induction false} ShiftTimesIsInjective(a: bv32, b: bv32, n: nat)
    requires ShiftTimes(a, n) == ShiftTimes(b, n)
    ensures a == b
    decreases n
  {
    hide *;
    ShiftTimesUnfold(a, n);
    ShiftTimesUnfold(b, n);
    if n > 0 {
      ShiftTimesIsInjective(Shift(a), Shift(b), n - 1);
      ShiftIsInjective(a, b);
    }
  }

  lemma LowIsInjective(x: byte, y: byte)
    requires Low(x) == Low(y)
    ensures x == y
  {
    assert LowByte(Low(x)) == x && LowByte(Low(y)) == y;
  }

  lemma PlusCancels(a: bv32, b: bv32, c: bv32)
    requires Plus(a, c) == Plus(b, c) || Plus(c, a) == Plus(c, b)
    ensures a == b
  {
    CancelTwice(a, c);
    CancelTwice(b, c);
    PlusCommutes(c, a);
    PlusCommutes(c, b);
  }

  /** Different registers or different bytes give different registers. */
  lemma FeedByteIsInjective(r: bv32, s: bv32, x: byte, y: byte)
    requires FeedByte(r, x) == FeedByte(s, y) && (r == s || x == y)
    ensures r == s && x == y
  {
    hide *;
    FeedByteIsShift8(r, x);
    FeedByteIsShift8(s, y);
    ShiftTimesIsInjective(Plus(r, Low(x)), Plus(s, Low(y)), 8);
    if r == s {
      PlusCancels(Low(x), Low(y), r);
      LowIsInjective(x, y);
    } else {
      PlusCancels(r, s, Low(x));
    }
  }

  lemma {:induction false} FeedIsInjective(r: bv32, s: bv32, data: seq<byte>)
    requires Feed(r, data) == Feed(s, data)
    ensures r == s
    decreases |data|
  {
    hide *;
    FeedUnfold(r, data);
    FeedUnfold(s, data);
    if data != [] {
      FeedIsInjective(FeedByte(r, data[0]), FeedByte(s, data[0]), data[1..]);
      FeedByteIsInjective(r, s, data[0], data[0]);
    }
  }

  /** The checksum notices every change of a single byte. */
  lemma OneByteMatters(before: seq<byte>, x: byte, y: byte, rest: seq<byte>)
    requires x != y
    ensures Checksum(before + [x] + rest) != Checksum(before + [y] + rest)
  {
    hide *;
    if Checksum(before + [x] + rest) == Checksum(before + [y] + rest) {
      ChecksumUnfold(before + [x] + rest);
      ChecksumUnfold(before + [y] + rest);
      PlusCancels(Feed(ALL_ONES, before + [x] + rest), Feed(ALL_ONES, before + [y] + rest), ALL_ONES);
      var r := Feed(ALL_ONES, before);
      FeedConcat(ALL_ONES, before + [x], rest);
      FeedConcat(ALL_ONES, before + [y], rest);
      FeedConcat(ALL_ONES, before, [x]);
      FeedConcat(ALL_ONES, before, [y]);
      FeedIsInjective(Feed(r, [x]), Feed(r, [y]), rest);
      FeedUnfold(r, [x]);
      FeedUnfold(r, [y]);
      assert [x][1..] == [] && [y][1..] == [];
      FeedUnfold(FeedByte(r, x), []);
      FeedUnfold(FeedByte(r, y), []);
      FeedByteIsInjective(r, r, x, y);
    }
  }
}
