/** The Rust writer's output side: the seekable output, the hasher with its `combine`, the
    counting writer, and the sink that sends a chunk either straight to the output or
    through a buffer. */
module RustIo {
  import opened Bytes
  import opened Crc

  // ---------- hashing ----------

  /** A running CRC-32: the checksum of what was fed, and how much that was. */
  datatype Hasher = Hasher(sum: bv32, amount: nat) {
    function Updated(buf: bytes): Hasher {
      Hasher(Plus(Feed(Plus(sum, ALL_ONES), buf), ALL_ONES), amount + |buf|)
    }

    function Combined(other: Hasher): Hasher {
      Hasher(Combine(sum, other.sum, other.amount), amount + other.amount)
    }
  }

  /** The hasher that was fed exactly `data`. */
  function HashOf(data: bytes): Hasher {
    Hasher(Checksum(data), |data|)
  }

  lemma ChecksumOfNothing()
    ensures Checksum([]) == 0
  {
    hide *;
    ChecksumUnfold([]);
    FeedUnfold(ALL_ONES, []);
    PlusZero(ALL_ONES);
  }

  lemma UpdatedIsHash(data: bytes, buf: bytes)
    ensures HashOf(data).Updated(buf) == HashOf(data + buf)
  {
    hide Feed, Plus, Checksum;
    ChecksumUnfold(data);
    ChecksumUnfold(data + buf);
    FeedConcat(ALL_ONES, data, buf);
    var r := Feed(ALL_ONES, data);
    PlusAssociates(r, ALL_ONES, ALL_ONES);
    PlusZero(ALL_ONES);
    PlusZero(r);
  }

  /** Combining two hashers is hashing the concatenation. */
  lemma CombinedIsHash(x: bytes, y: bytes)
    ensures HashOf(x).Combined(HashOf(y)) == HashOf(x + y)
  {
    hide Combine, Checksum;
    CombineIsConcat(x, y);
  }

  /** The optional hasher of a writer that calculates checksums or does not. */
  function HashIf(on: bool, data: bytes): Option<Hasher> {
    if on then Some(HashOf(data)) else None
  }

  /** The value stored for an optional hasher. */
  function Stored(h: Option<Hasher>): bv32 {
    if h.None? then 0 else h.value.sum
  }

  lemma StoredIsChecksum(on: bool, data: bytes)
    ensures Stored(HashIf(on, data)) == if on then Checksum(data) else 0
  {
    hide Checksum;
  }

  // ---------- the counting writer ----------

  /** What a `CountingCrcWriter` keeps about the bytes that passed through it. */
  datatype CountingCrc = CountingCrc(hasher: Option<Hasher>, count: nat) {
    function Wrote(buf: bytes): CountingCrc {
      CountingCrc(if hasher.None? then None else Some(hasher.value.Updated(buf)), count + |buf|)
    }
  }

  function NewCounter(on: bool): CountingCrc {
    CountingCrc(if on then Some(Hasher(0, 0)) else None, 0)
  }

  function WithHasher(h: Option<Hasher>): CountingCrc {
    CountingCrc(h, 0)
  }

  lemma NewCounterIsHash(on: bool)
    ensures NewCounter(on) == CountingCrc(HashIf(on, []), 0)
  {
    hide Checksum;
    ChecksumOfNothing();
  }

  lemma WroteIsHash(on: bool, data: bytes, n: nat, buf: bytes)
    ensures CountingCrc(HashIf(on, data), n).Wrote(buf) == CountingCrc(HashIf(on, data + buf), n + |buf|)
  {
    hide HashOf, Hasher.Updated;
    UpdatedIsHash(data, buf);
  }

  // ---------- the output ----------

  /** `data` with `buf` written over it from position `at`. */
  function Overwrite(data: bytes, at: nat, buf: bytes): (r: bytes)
    requires at <= |data|
    ensures |r| == if at + |buf| < |data| then |data| else at + |buf|
  {
    data[..at] + buf + (if at + |buf| < |data| then data[at + |buf|..] else [])
  }

  lemma OverwriteAtEnd(data: bytes, buf: bytes)
    ensures Overwrite(data, |data|, buf) == data + buf
  {
  }

  lemma OverwriteMiddle(a: bytes, b: bytes, c: bytes, buf: bytes)
    requires |b| == |buf|
    ensures Overwrite(a + b + c, |a|, buf) == a + buf + c
  {
    var d := a + b + c;
    assert d[..|a|] == a;
    assert d[|a| + |buf|..] == c;
    if c == [] {
      assert a + buf + c == a + buf;
    }
  }

  /** A seekable byte stream: the output file, or a cursor over a buffer. */
  class Stream {
    var data: bytes
    var pos: nat

    predicate Valid()
      reads this
    {
      pos <= |data|
    }

    /** The cursor is where appending happens. */
    predicate AtEnd()
      reads this
    {
      pos == |data|
    }

    constructor ()
      ensures data == [] && AtEnd()
    {
      data := [];
      pos := 0;
    }

    method Write(buf: bytes)
      requires Valid()
      modifies this
      ensures Valid()
      ensures data == Overwrite(old(data), old(pos), buf) && pos == old(pos) + |buf|
      ensures old(AtEnd()) ==> data == old(data) + buf && AtEnd()
    {
      OverwriteAtEnd(data, buf);
      data := Overwrite(data, pos, buf);
      pos := pos + |buf|;
    }

    method SeekStart(to: nat)
      requires to <= |data|
      modifies this
      ensures Valid() && pos == to && data == old(data)
    {
      pos := to;
    }

    method SeekEnd()
      modifies this
      ensures AtEnd() && data == old(data)
    {
      pos := |data|;
    }

    method Clear()
      modifies this
      ensures data == [] && AtEnd()
    {
      data := [];
      pos := 0;
    }
  }

  // ---------- the chunk sink ----------

  /** Where the bytes of a chunk go: into the output itself, or into a buffer that is
      appended to the output once the chunk is complete. The buffer is reused. */
  class ChunkSink {
    const inner: Stream
    const buffer: Option<Stream>

    constructor (inner: Stream, buffer: Option<Stream>)
      requires buffer.Some? ==> buffer.value != inner
      ensures this.inner == inner && this.buffer == buffer
    {
      this.inner := inner;
      this.buffer := buffer;
    }

    /** The stream that writes and seeks go to. */
    function Target(): Stream {
      if buffer.Some? then buffer.value else inner
    }

    ghost predicate Valid()
      reads inner, Target()
    {
      inner.Valid() && Target().Valid() && (buffer.Some? ==> buffer.value != inner)
    }

    /** The buffer is emptied before a chunk begins. */
    method Open()
      requires Valid() && inner.AtEnd()
      modifies inner, Target()
      ensures Valid() && inner.AtEnd() && inner.data == old(inner.data) && Target().AtEnd()
      ensures Target().data == if buffer.Some? then [] else old(inner.data)
    {
      if buffer.Some? {
        buffer.value.Clear();
      }
    }

    method Write(buf: bytes)
      requires Valid()
      modifies Target()
      ensures Valid()
      ensures Target().data == Overwrite(old(Target().data), old(Target().pos), buf)
      ensures Target().pos == old(Target().pos) + |buf|
      ensures old(Target().AtEnd()) ==> Target().data == old(Target().data) + buf && Target().AtEnd()
    {
      var target := Target();
      target.Write(buf);
    }

    method SeekStart(to: nat)
      requires Valid() && to <= |Target().data|
      modifies Target()
      ensures Valid() && Target().pos == to && Target().data == old(Target().data)
    {
      var target := Target();
      target.SeekStart(to);
    }

    method SeekEnd()
      requires Valid()
      modifies Target()
      ensures Valid() && Target().AtEnd() && Target().data == old(Target().data)
    {
      var target := Target();
      target.SeekEnd();
    }

    /** Hands the output back with the whole chunk on it. */
    method Finish()
      requires Valid() && inner.AtEnd()
      modifies inner
      ensures Valid() && inner.AtEnd()
      ensures inner.data == if buffer.Some? then old(inner.data) + old(Target().data) else old(inner.data)
    {
      if buffer.Some? {
        inner.Write(buffer.value.data);
      }
    }
  }
}
