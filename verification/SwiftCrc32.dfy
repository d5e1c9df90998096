/** The slicing-by-16 CRC-32 of the Swift library: sixteen table lookups replace 128
    shifts, and the result is the bitwise definition in module Crc. */
module SwiftCrc32 {
  import opened Bytes
  import opened Crc

  const TABLE_SIZE: nat := 256

  /** Entry `i` of the tables: byte `i % 256` followed by `i / 256` zero bytes. */
  function Entry(i: nat): bv32 {
    FeedZeros(FeedByte(0, Column(i)), i / TABLE_SIZE)
  }

  /** The byte an index stands for within its table. */
  function Column(i: nat): byte {
    (i % TABLE_SIZE) as byte
  }

  ghost predicate IsTable(table: seq<bv32>) {
    forall i :: 0 <= i < |table| ==> table[i] == Entry(i)
  }

  // ---------- table generation ----------

  lemma ShiftByMultiplication(r: bv32)
    ensures ((r & 1) * POLYNOMIAL) ^ (r >> 1) == Shift(r)
  {
    LowestBit(r);
    if r & 1 == 1 {
      XorCommutes(POLYNOMIAL, r >> 1);
    }
  }

  lemma XorCommutes(a: bv32, b: bv32)
    ensures a ^ b == b ^ a
  {
  }

  lemma {:induction false} FeedZerosLast(r: bv32, n: nat)
    ensures FeedZeros(r, n + 1) == FeedByte(FeedZeros(r, n), 0)
    decreases n
  {
    hide FeedByte;
    if n > 0 {
      FeedZerosLast(FeedByte(r, 0), n - 1);
    }
  }

  lemma EntryByShifts(i: nat)
    requires i < TABLE_SIZE
    ensures Entry(i) == ShiftTimes(Low(i as byte), 8)
  {
    hide FeedByte, ShiftTimes, Low, Plus;
    FeedByteIsShift8(0, i as byte);
    PlusZero(Low(i as byte));
  }

  lemma EntryUnfold(i: nat)
    ensures Entry(i) == FeedZeros(FeedByte(0, Column(i)), i / TABLE_SIZE)
  {
    hide FeedZeros, FeedByte, Column;
  }

  lemma EntryOfByte(b: byte)
    ensures Entry(b as int) == FeedByte(0, b)
  {
    hide FeedByte;
    assert (b as int) as byte == b;
  }

  lemma PreviousTable(i: nat)
    requires i >= TABLE_SIZE
    ensures Column(i) == Column(i - TABLE_SIZE)
    ensures i / TABLE_SIZE == (i - TABLE_SIZE) / TABLE_SIZE + 1
  {
    assert i % TABLE_SIZE == (i - TABLE_SIZE) % TABLE_SIZE;
  }

  /** An entry of a later table from the entry before it and the first table. */
  lemma EntryFromPrevious(i: nat)
    requires i >= TABLE_SIZE
    ensures Entry(i) == Plus(Entry(LowByte(Entry(i - TABLE_SIZE)) as int), DropByte(Entry(i - TABLE_SIZE)))
  {
    hide *;
    var value := Entry(i - TABLE_SIZE);
    EntryUnfold(i);
    EntryUnfold(i - TABLE_SIZE);
    PreviousTable(i);
    FeedZerosLast(FeedByte(0, Column(i)), i / TABLE_SIZE - 1);
    FeedByteByTable(value, 0);
    LowOfZero();
    PlusZero(value);
    EntryOfByte(LowByte(value));
  }

  lemma LowOfZero()
    ensures Low(0) == 0
  {
  }

  // ---------- sixteen bytes at once ----------

  /** The contribution of the first byte of a string, separated from the rest. */
  lemma FirstByteSeparates(r: bv32, data: seq<byte>)
    requires data != []
    ensures Feed(r, data)
         == Plus(Feed(DropByte(r), data[1..]),
                 FeedZeros(FeedByte(0, LowByte(Plus(r, Low(data[0])))), |data| - 1))
  {
    hide *;
    var tail, n := data[1..], |data| - 1;
    var head, rest := FeedByte(0, LowByte(Plus(r, Low(data[0])))), DropByte(r);
    FeedUnfold(r, data);
    FeedByteByTable(r, data[0]);
    FeedSplits(Plus(head, rest), tail);
    FeedSplits(rest, tail);
    FeedZerosIsLinear(head, rest, n);
    PlusAssociates(FeedZeros(head, n), FeedZeros(rest, n), Feed(0, tail));
    PlusCommutes(FeedZeros(head, n), Feed(rest, tail));
  }

  /** Table `k` at a byte. */
  function Sliced(k: nat, b: byte): bv32 {
    FeedZeros(FeedByte(0, b), k)
  }

  lemma EntryIsSliced(k: nat, b: byte)
    ensures Entry(k * TABLE_SIZE + b as int) == Sliced(k, b)
  {
    assert (k * TABLE_SIZE + b as int) % TABLE_SIZE == b as int;
    assert (k * TABLE_SIZE + b as int) / TABLE_SIZE == k;
    assert (b as int) as byte == b;
    hide FeedZeros, FeedByte;
  }

  lemma FirstByteSliced(r: bv32, data: seq<byte>)
    requires data != []
    ensures Feed(r, data) == Plus(Feed(DropByte(r), data[1..]), Sliced(|data| - 1, LowByte(Plus(r, Low(data[0])))))
  {
    hide Feed, FeedZeros, FeedByte, Plus, LowByte, DropByte, Low;
    FirstByteSeparates(r, data);
  }

  // The bytes of a register as it is dropped byte by byte while data is added.

  lemma RegisterByte0(r: bv32, a: byte, b: byte, c: byte, d: byte)
    ensures LowByte(Plus(r, Low(a))) == ByteOf(Plus(r, Load(a, b, c, d)), 0)
  {
  }

  lemma RegisterByte1(r: bv32, a: byte, b: byte, c: byte, d: byte)
    ensures LowByte(Plus(DropByte(r), Low(b))) == ByteOf(Plus(r, Load(a, b, c, d)), 1)
  {
  }

  lemma RegisterByte2(r: bv32, a: byte, b: byte, c: byte, d: byte)
    ensures LowByte(Plus(DropByte(DropByte(r)), Low(c))) == ByteOf(Plus(r, Load(a, b, c, d)), 2)
  {
  }

  lemma RegisterByte3(r: bv32, a: byte, b: byte, c: byte, d: byte)
    ensures LowByte(Plus(DropByte(DropByte(DropByte(r))), Low(d))) == ByteOf(Plus(r, Load(a, b, c, d)), 3)
  {
  }

  lemma RegisterEmptied(r: bv32)
    ensures DropByte(DropByte(DropByte(DropByte(r)))) == 0
  {
  }

  lemma EmptyRegister(b: byte)
    ensures LowByte(Plus(0, Low(b))) == b
    ensures DropByte(0) == 0
  {
  }

  /** The contributions of all bytes fed into an empty register, last byte first. */
  function SliceSum(d: seq<byte>): bv32
    decreases |d|
  {
    if d == [] then 0 else Plus(SliceSum(d[1..]), Sliced(|d| - 1, d[0]))
  }

  lemma SliceSumUnfold(d: seq<byte>)
    ensures SliceSum([]) == 0
    ensures d != [] ==> SliceSum(d) == Plus(SliceSum(d[1..]), Sliced(|d| - 1, d[0]))
  {
    hide Plus, Sliced;
  }

  lemma {:induction false} SliceSumIsFeed(d: seq<byte>)
    ensures SliceSum(d) == Feed(0, d)
    decreases |d|
  {
    hide *;
    SliceSumUnfold(d);
    FeedUnfold(0, d);
    if d != [] {
      FirstByteSliced(0, d);
      EmptyRegister(d[0]);
      SliceSumIsFeed(d[1..]);
    }
  }

  /** The sum of the first `n` terms, left to right. */
  function Sum(t: seq<bv32>, n: nat): bv32
    requires n <= |t|
    decreases n
  {
    if n == 0 then 0 else Plus(Sum(t, n - 1), t[n - 1])
  }

  lemma SumUnfold(t: seq<bv32>, n: nat)
    requires n < |t|
    ensures Sum(t, 0) == 0
    ensures Sum(t, n + 1) == Plus(Sum(t, n), t[n])
  {
    hide Plus;
  }

  lemma {:induction false} SliceSumIsSum(d: seq<byte>, t: seq<bv32>)
    requires |d| <= |t|
    requires forall k :: 0 <= k < |d| ==> t[k] == Sliced(k, d[|d| - 1 - k])
    ensures Sum(t, |d|) == SliceSum(d)
    decreases |d|
  {
    hide *;
    SliceSumUnfold(d);
    if d == [] {
      if t != [] {
        SumUnfold(t, 0);
      } else {
        SumOfNone(t);
      }
    } else {
      SumUnfold(t, |d| - 1);
      SliceSumIsSum(d[1..], t);
    }
  }

  lemma SumOfNone(t: seq<bv32>)
    ensures Sum(t, 0) == 0
  {
  }

  lemma SumOfFour(t: seq<bv32>, n: nat)
    requires n + 4 <= |t|
    ensures Sum(t, n + 4) == Plus(Plus(Plus(Plus(Sum(t, n), t[n]), t[n + 1]), t[n + 2]), t[n + 3])
  {
    hide *;
    SumUnfold(t, n);
    SumUnfold(t, n + 1);
    SumUnfold(t, n + 2);
    SumUnfold(t, n + 3);
  }

  /** Sixteen lookups are sixteen byte steps. */
  lemma SixteenLookups(r: bv32, d: seq<byte>, x: bv32, t: seq<bv32>)
    requires |d| == 16 && |t| == 16
    requires x == Plus(r, Load(d[0], d[1], d[2], d[3]))
    requires forall k :: 0 <= k < 12 ==> t[k] == Sliced(k, d[15 - k])
    requires forall k :: 12 <= k < 16 ==> t[k] == Sliced(k, ByteOf(x, 15 - k))
    ensures Sum(t, 16) == Feed(r, d)
  {
    hide *;
    var r1 := DropByte(r);
    var r2 := DropByte(r1);
    var r3 := DropByte(r2);
    var a, b, c, e := d[0], d[1], d[2], d[3];
    RegisterByte0(r, a, b, c, e);
    RegisterByte1(r, a, b, c, e);
    RegisterByte2(r, a, b, c, e);
    RegisterByte3(r, a, b, c, e);
    RegisterEmptied(r);
    FirstByteSliced(r, d);
    FirstByteSliced(r1, d[1..]);
    FirstByteSliced(r2, d[2..]);
    FirstByteSliced(r3, d[3..]);
    assert d[1..][1..] == d[2..] && d[2..][1..] == d[3..] && d[3..][1..] == d[4..];
    SliceSumIsSum(d[4..], t);
    SliceSumIsFeed(d[4..]);
    SumOfFour(t, 12);
  }

  // ---------- the checksum object ----------

  /** Fills `numTables` tables, each from the one before it. */
  method GenerateTables(numTables: nat) returns (table: array<bv32>)
    requires numTables >= 1
    ensures fresh(table)
    ensures table.Length == numTables * TABLE_SIZE
    ensures IsTable(table[..])
  {
    hide Plus, Low, LowByte, DropByte, FeedByte, Feed, FeedBits, FeedZeros, Shift, ShiftTimes, Entry, Sliced, Sum, Load, ByteOf;
    table := new bv32[numTables * TABLE_SIZE];
    for i := 0 to TABLE_SIZE
      invariant forall k :: 0 <= k < i ==> table[k] == Entry(k)
    {
      var r := Low(i as byte);
      for j := 0 to 8
        invariant ShiftTimes(r, 8 - j) == ShiftTimes(Low(i as byte), 8)
        invariant forall k :: 0 <= k < i ==> table[k] == Entry(k)
      {
        ShiftByMultiplication(r);
        ShiftTimesUnfold(r, 8 - j);
        r := ((r & 1) * POLYNOMIAL) ^ (r >> 1);
      }
      ShiftTimesUnfold(r, 0);
      EntryByShifts(i);
      table[i] := r;
    }
    for i := TABLE_SIZE to table.Length
      invariant forall k :: 0 <= k < i ==> table[k] == Entry(k)
    {
      var value := table[i - TABLE_SIZE];
      EntryFromPrevious(i);
      table[i] := Plus(table[LowByte(value) as int], DropByte(value));
    }
    TableOf(table[..]);
  }

  lemma TableOf(table: seq<bv32>)
    requires forall k :: 0 <= k < |table| ==> table[k] == Entry(k)
    ensures IsTable(table)
  {
    hide Entry;
  }

  lemma TableLookup(table: seq<bv32>, k: nat, b: byte)
    requires |table| == 16 * TABLE_SIZE && IsTable(table) && k < 16
    ensures table[k * TABLE_SIZE + b as int] == Sliced(k, b)
  {
    hide Entry, Sliced;
    EntryIsSliced(k, b);
  }

  lemma SlicedZero(b: byte)
    ensures Sliced(0, b) == FeedByte(0, b)
  {
    hide FeedByte;
  }

  class CRC32 {
    var state: bv32
    const table: array<bv32>

    /** Everything consumed since the last reset. */
    ghost var consumed: seq<byte>

    ghost predicate ValidTable()
      reads table
    {
      table.Length == 16 * TABLE_SIZE && IsTable(table[..])
    }

    ghost predicate Valid()
      reads this, table
    {
      ValidTable() && state == Feed(ALL_ONES, consumed)
    }

    constructor ()
      ensures Valid() && fresh(table)
      ensures consumed == []
    {
      hide IsTable;
      var t := GenerateTables(16);
      state, table, consumed := ALL_ONES, t, [];
    }

    method Reset()
      requires Valid()
      modifies this
      ensures Valid() && consumed == []
    {
      hide IsTable;
      state, consumed := 0xFFFF_FFFF, [];
    }

    /** The checksum of everything consumed since the last reset. */
    method Final() returns (crc: bv32)
      requires Valid()
      ensures crc == Checksum(consumed)
    {
      hide Feed;
      crc := Plus(state, 0xFFFF_FFFF);
    }

    /** One byte by one lookup. */
    method UpdateByte(b: byte)
      requires ValidTable()
      modifies this`state
      ensures ValidTable() && state == FeedByte(old(state), b)
    {
      hide Plus, Low, LowByte, DropByte, FeedByte, Feed, FeedBits, FeedZeros, Shift, ShiftTimes, Entry, Sliced, Sum, Load, ByteOf;
      FeedByteByTable(state, b);
      var i := LowByte(Plus(state, Low(b)));
      assert table[..][0 * TABLE_SIZE + i as int] == Sliced(0, i) by { TableLookup(table[..], 0, i); }
      SlicedZero(i);
      state := Plus(table[i as int], DropByte(state));
    }

    /** Sixteen bytes by sixteen lookups. */
    method UpdateBlock(d: seq<byte>)
      requires ValidTable() && |d| == 16
      modifies this`state
      ensures ValidTable() && state == Feed(old(state), d)
    {
      hide Plus, Low, LowByte, DropByte, FeedByte, Feed, FeedBits, FeedZeros, Shift, ShiftTimes, Entry, Sliced, Sum, Load, ByteOf;
      state := Plus(state, Load(d[0], d[1], d[2], d[3]));
      var r2 := Load(d[4], d[5], d[6], d[7]);
      var r3 := Load(d[8], d[9], d[10], d[11]);
      var r4 := Load(d[12], d[13], d[14], d[15]);
      LoadedBytes(d[4], d[5], d[6], d[7]);
      LoadedBytes(d[8], d[9], d[10], d[11]);
      LoadedBytes(d[12], d[13], d[14], d[15]);
      var t0 := LookupWord(r4, 0);
      var t4 := LookupWord(r3, 4);
      var t8 := LookupWord(r2, 8);
      var tc := LookupWord(state, 12);
      SixteenLookups(old(state), d, state, t0 + t4 + t8 + tc);
      state := Sum(t0 + t4 + t8 + tc, 16);
    }

    /** The entries for the four bytes of a word, its highest byte in table `k`. */
    method LookupWord(w: bv32, k: nat) returns (t: seq<bv32>)
      requires ValidTable() && k <= 12
      ensures |t| == 4
      ensures t[0] == Sliced(k, ByteOf(w, 3)) && t[1] == Sliced(k + 1, ByteOf(w, 2))
      ensures t[2] == Sliced(k + 2, ByteOf(w, 1)) && t[3] == Sliced(k + 3, ByteOf(w, 0))
    {
      hide Plus, Low, LowByte, DropByte, FeedByte, Feed, FeedBits, FeedZeros, Shift, ShiftTimes, Entry, Sliced, Sum, Load, ByteOf;
      TableLookup(table[..], k, ByteOf(w, 3));
      TableLookup(table[..], k + 1, ByteOf(w, 2));
      TableLookup(table[..], k + 2, ByteOf(w, 1));
      TableLookup(table[..], k + 3, ByteOf(w, 0));
      t := [table[k * TABLE_SIZE + ByteOf(w, 3) as int],
            table[(k + 1) * TABLE_SIZE + ByteOf(w, 2) as int],
            table[(k + 2) * TABLE_SIZE + ByteOf(w, 1) as int],
            table[(k + 3) * TABLE_SIZE + ByteOf(w, 0) as int]];
    }

    /** Consumes a buffer whose first byte is at address `base`: single bytes up to a word
        boundary, then blocks of sixteen, then the remaining bytes. */
    method Update16Byte(data: seq<byte>, base: nat)
      requires Valid()
      modifies this
      ensures Valid() && consumed == old(consumed) + data
      ensures state == Feed(old(state), data)
    {
      hide Plus, Low, LowByte, DropByte, FeedByte, Feed, FeedBits, FeedZeros, Shift, ShiftTimes, Entry, Sliced, Sum, Load, ByteOf;
      var offset := 0;
      FeedUnfold(state, []);
      assert data[..0] == [];
      while offset < |data| && (base + offset) % 4 != 0
        invariant offset <= |data|
        invariant ValidTable() && consumed == old(consumed)
        invariant state == Feed(old(state), data[..offset])
      {
        ghost var before := state;
        UpdateByte(data[offset]);
        FeedOneMore(old(state), data, offset);
        offset := offset + 1;
      }
      if offset == |data| {
        assert data[..offset] == data;
        FeedConcat(ALL_ONES, consumed, data);
        consumed := consumed + data;
        return;
      }
      var remainingBytes := |data| - offset;
      while remainingBytes >= 16
        invariant 0 <= remainingBytes <= |data|
        invariant ValidTable() && consumed == old(consumed)
        invariant state == Feed(old(state), data[..|data| - remainingBytes])
      {
        var at := |data| - remainingBytes;
        UpdateBlock(data[at..at + 16]);
        FeedConcat(old(state), data[..at], data[at..at + 16]);
        assert data[..at] + data[at..at + 16] == data[..at + 16];
        remainingBytes := remainingBytes - 16;
      }
      for i := |data| - remainingBytes to |data|
        invariant ValidTable() && consumed == old(consumed)
        invariant state == Feed(old(state), data[..i])
      {
        UpdateByte(data[i]);
        FeedOneMore(old(state), data, i);
      }
      assert data[..|data|] == data;
      FeedConcat(ALL_ONES, consumed, data);
      consumed := consumed + data;
    }
  }

  lemma FeedOneMore(r: bv32, data: seq<byte>, i: nat)
    requires i < |data|
    ensures Feed(r, data[..i + 1]) == FeedByte(Feed(r, data[..i]), data[i])
  {
    hide *;
    assert data[..i + 1] == data[..i] + [data[i]];
    FeedConcat(r, data[..i], [data[i]]);
    FeedUnfold(Feed(r, data[..i]), [data[i]]);
    assert [data[i]][1..] == [];
    FeedUnfold(FeedByte(Feed(r, data[..i]), data[i]), []);
  }
}
