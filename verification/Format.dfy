/** The record format shared by every implementation: an opcode, a 64-bit length and a
    body of little-endian integers, prefixed strings, prefixed maps and raw data. */
module Format {
  import opened Bytes

  // ---------- opcodes ----------

  const OP_HEADER: byte := 0x01
  const OP_FOOTER: byte := 0x02
  const OP_SCHEMA: byte := 0x03
  const OP_CHANNEL: byte := 0x04
  const OP_MESSAGE: byte := 0x05
  const OP_CHUNK: byte := 0x06
  const OP_MESSAGE_INDEX: byte := 0x07
  const OP_CHUNK_INDEX: byte := 0x08
  const OP_ATTACHMENT: byte := 0x09
  const OP_ATTACHMENT_INDEX: byte := 0x0A
  const OP_STATISTICS: byte := 0x0B
  const OP_METADATA: byte := 0x0C
  const OP_METADATA_INDEX: byte := 0x0D
  const OP_SUMMARY_OFFSET: byte := 0x0E
  const OP_DATA_END: byte := 0x0F

  const MAGIC: bytes := [137, 77, 67, 65, 80, 48, 13, 10]

  const U16: nat := 0x1_0000
  const U32: nat := 0x1_0000_0000
  const U64: nat := 0x1_0000_0000_0000_0000

  // ---------- writing ----------

  type StringMap = seq<(bytes, bytes)>
  type IntMap = seq<(nat, nat)>

  /** A string behind its 32-bit length. */
  function Str(s: bytes): bytes {
    LE(|s|, 4) + s
  }

  function StringPairs(m: StringMap): bytes
    decreases |m|
  {
    if m == [] then [] else (Str(m[0].0) + Str(m[0].1)) + StringPairs(m[1..])
  }

  /** A map of strings, in the order listed, behind its 32-bit byte length. */
  function StrMap(m: StringMap): bytes {
    LE(|StringPairs(m)|, 4) + StringPairs(m)
  }

  function IntPairs(m: IntMap, keyWidth: nat): bytes
    decreases |m|
  {
    if m == [] then [] else (LE(m[0].0, keyWidth) + LE(m[0].1, 8)) + IntPairs(m[1..], keyWidth)
  }

  /** A map of integers, in the order listed, behind its 32-bit byte length. */
  function NumMap(m: IntMap, keyWidth: nat): bytes {
    LE(|IntPairs(m, keyWidth)|, 4) + IntPairs(m, keyWidth)
  }

  /** A whole record. */
  function Framed(op: byte, body: bytes): bytes {
    [op] + (LE(|body|, 8) + body)
  }

  // ---------- reading ----------

  datatype Parsed<+T> = Malformed | Parsed(value: T, next: nat) {
    predicate IsFailure() {
      Malformed?
    }

    function PropagateFailure<U>(): Parsed<U>
      requires Malformed?
    {
      Malformed
    }

    function Extract(): (T, nat)
      requires Parsed?
    {
      (value, next)
    }
  }

  function ReadInt(buf: bytes, at: nat, width: nat): (p: Parsed<nat>)
    ensures p.Parsed? ==> p.next == at + width <= |buf| && p.value < Pow256(width)
  {
    if at + width > |buf| then Malformed else Parsed(FromLE(buf[at..at + width]), at + width)
  }

  function ReadRaw(buf: bytes, at: nat, n: nat): (p: Parsed<bytes>)
    ensures p.Parsed? ==> p.next == at + n <= |buf| && |p.value| == n
  {
    if at + n > |buf| then Malformed else Parsed(buf[at..at + n], at + n)
  }

  /** Data behind its length of `width` bytes. */
  function ReadPrefixed(buf: bytes, at: nat, width: nat): (p: Parsed<bytes>)
    ensures p.Parsed? ==> at + width <= p.next <= |buf|
  {
    var (length, start) :- ReadInt(buf, at, width);
    ReadRaw(buf, start, length)
  }

  function ReadStringPairs(buf: bytes, at: nat): Parsed<StringMap>
    decreases |buf| - at
  {
    if at >= |buf| then Parsed([], at)
    else
      var (key, afterKey) :- ReadPrefixed(buf, at, 4);
      var (value, afterValue) :- ReadPrefixed(buf, afterKey, 4);
      var (rest, end) :- ReadStringPairs(buf, afterValue);
      Parsed([(key, value)] + rest, end)
  }

  function ReadStrMap(buf: bytes, at: nat): (p: Parsed<StringMap>)
    ensures p.Parsed? ==> at <= p.next
  {
    var (inner, end) :- ReadPrefixed(buf, at, 4);
    var (pairs, _) :- ReadStringPairs(inner, 0);
    Parsed(pairs, end)
  }

  function ReadIntPairs(buf: bytes, at: nat, keyWidth: nat): Parsed<IntMap>
    decreases |buf| - at
  {
    if at >= |buf| then Parsed([], at)
    else
      var (key, afterKey) :- ReadInt(buf, at, keyWidth);
      var (value, afterValue) :- ReadInt(buf, afterKey, 8);
      var (rest, end) :- ReadIntPairs(buf, afterValue, keyWidth);
      Parsed([(key, value)] + rest, end)
  }

  function ReadNumMap(buf: bytes, at: nat, keyWidth: nat): (p: Parsed<IntMap>)
    ensures p.Parsed? ==> at <= p.next
  {
    var (inner, end) :- ReadPrefixed(buf, at, 4);
    var (pairs, _) :- ReadIntPairs(inner, 0, keyWidth);
    Parsed(pairs, end)
  }

  // ---------- what was written is read back ----------

  /** `piece` stands in `buf` at position `at`. */
  ghost predicate At(buf: bytes, at: nat, piece: bytes) {
    at + |piece| <= |buf| && buf[at..at + |piece|] == piece
  }

  lemma AtSplits(buf: bytes, at: nat, a: bytes, b: bytes)
    requires At(buf, at, a + b)
    ensures At(buf, at, a) && At(buf, at + |a|, b)
  {
    assert buf[at..at + |a|] == (a + b)[..|a|] == a;
    assert buf[at + |a|..at + |a| + |b|] == (a + b)[|a|..] == b;
  }

  lemma AtWhole(piece: bytes)
    ensures At(piece, 0, piece)
  {
  }

  lemma AtBetween(before: bytes, piece: bytes, after: bytes)
    ensures At(before + piece + after, |before|, piece)
  {
  }

  lemma ReadIntAt(buf: bytes, at: nat, n: nat, width: nat)
    requires At(buf, at, LE(n, width)) && n < Pow256(width)
    ensures ReadInt(buf, at, width) == Parsed(n, at + width)
  {
    hide Pow256, LE, FromLE;
    FromLEFits(n, width);
  }

  lemma ReadRawAt(buf: bytes, at: nat, data: bytes)
    requires At(buf, at, data)
    ensures ReadRaw(buf, at, |data|) == Parsed(data, at + |data|)
  {
  }

  lemma ReadPrefixedAt(buf: bytes, at: nat, data: bytes, width: nat)
    requires At(buf, at, LE(|data|, width) + data) && |data| < Pow256(width)
    ensures ReadPrefixed(buf, at, width) == Parsed(data, at + width + |data|)
  {
    hide Pow256, LE, FromLE, At, ReadInt, ReadRaw;
    AtSplits(buf, at, LE(|data|, width), data);
    ReadIntAt(buf, at, |data|, width);
    ReadRawAt(buf, at + width, data);
  }

  lemma ReadStrAt(buf: bytes, at: nat, s: bytes)
    requires At(buf, at, Str(s)) && |s| < U32
    ensures ReadPrefixed(buf, at, 4) == Parsed(s, at + |Str(s)|)
  {
    hide Pow256, LE, FromLE;
    Powers();
    ReadPrefixedAt(buf, at, s, 4);
  }

  /** Every string in the map fits its 32-bit length. */
  predicate FitsMap(m: StringMap) {
    |StringPairs(m)| < U32 && forall p :: p in m ==> |p.0| < U32 && |p.1| < U32
  }

  lemma {:induction false} ReadStringPairsAt(buf: bytes, at: nat, m: StringMap)
    requires At(buf, at, StringPairs(m)) && at + |StringPairs(m)| == |buf|
    requires forall p :: p in m ==> |p.0| < U32 && |p.1| < U32
    ensures ReadStringPairs(buf, at) == Parsed(m, |buf|)
    decreases |m|
  {
    hide Pow256, LE, FromLE, At, ReadPrefixed;
    if m != [] {
      var first := Str(m[0].0) + Str(m[0].1);
      AtSplits(buf, at, first, StringPairs(m[1..]));
      AtSplits(buf, at, Str(m[0].0), Str(m[0].1));
      ReadStrAt(buf, at, m[0].0);
      ReadStrAt(buf, at + |Str(m[0].0)|, m[0].1);
      ReadStringPairsAt(buf, at + |first|, m[1..]);
      assert m == [m[0]] + m[1..];
    }
  }

  lemma ReadStrMapAt(buf: bytes, at: nat, m: StringMap)
    requires At(buf, at, StrMap(m)) && FitsMap(m)
    ensures ReadStrMap(buf, at) == Parsed(m, at + |StrMap(m)|)
  {
    hide Pow256, LE, FromLE;
    Powers();
    ReadPrefixedAt(buf, at, StringPairs(m), 4);
    AtWhole(StringPairs(m));
    ReadStringPairsAt(StringPairs(m), 0, m);
  }

  predicate FitsIntMap(m: IntMap, keyWidth: nat) {
    |IntPairs(m, keyWidth)| < U32 && forall p :: p in m ==> p.0 < Pow256(keyWidth) && p.1 < U64
  }

  lemma {:induction false} ReadIntPairsAt(buf: bytes, at: nat, m: IntMap, keyWidth: nat)
    requires At(buf, at, IntPairs(m, keyWidth)) && at + |IntPairs(m, keyWidth)| == |buf|
    requires forall p :: p in m ==> p.0 < Pow256(keyWidth) && p.1 < U64
    ensures ReadIntPairs(buf, at, keyWidth) == Parsed(m, |buf|)
    decreases |m|
  {
    hide Pow256, LE, FromLE, At, ReadInt;
    if m != [] {
      Powers();
      var key, value := LE(m[0].0, keyWidth), LE(m[0].1, 8);
      AtSplits(buf, at, key + value, IntPairs(m[1..], keyWidth));
      AtSplits(buf, at, key, value);
      ReadIntAt(buf, at, m[0].0, keyWidth);
      ReadIntAt(buf, at + keyWidth, m[0].1, 8);
      ReadIntPairsAt(buf, at + keyWidth + 8, m[1..], keyWidth);
      assert m == [m[0]] + m[1..];
    }
  }

  lemma ReadNumMapAt(buf: bytes, at: nat, m: IntMap, keyWidth: nat)
    requires At(buf, at, NumMap(m, keyWidth)) && FitsIntMap(m, keyWidth)
    ensures ReadNumMap(buf, at, keyWidth) == Parsed(m, at + |NumMap(m, keyWidth)|)
  {
    hide Pow256, LE, FromLE;
    Powers();
    ReadPrefixedAt(buf, at, IntPairs(m, keyWidth), 4);
    AtWhole(IntPairs(m, keyWidth));
    ReadIntPairsAt(IntPairs(m, keyWidth), 0, m, keyWidth);
  }
}
