/** When the checksum in the Rust writer's DataEnd record is the checksum of every byte
    before that record. */
module RustChecksums {
  import opened Bytes
  import opened Crc
  import opened Format
  import opened Records
  import opened RustIo
  import opened RustLayout
  import opened RustRegistry
  import opened RustMachine
  import opened RustRuns
  import opened RustWriter

  // ---------- unchunked writers write no chunks ----------

  ghost predicate Unchunked(s: State) {
    !s.open.InChunk? && forall i :: 0 <= i < |s.items| ==> !s.items[i].ChunkOf?
  }

  lemma WriteStaysUnchunked(o: Options, s: State, m: OutMessage)
    requires Unchunked(s) && !o.useChunks && !WritePanics(o, s, m)
    ensures Unchunked(Write(o, s, m).0)
  {
    OfferSchemaKeepsChannels(o, s, m);
    var s1 := OfferSchema(o, s, m).0;
    assert Unchunked(s1);
    if !OfferSchema(o, s, m).1.Err? {
      assert Unchunked(OfferChannel(o, s1, m).0);
    }
  }

  lemma StepStaysUnchunked(o: Options, s: State, c: Call)
    requires Unchunked(s) && !o.useChunks && s.schemas.next <= LAST_ID && s.channels.next <= LAST_ID && !Panics(o, s, c)
    ensures Unchunked(Step(o, s, c).0)
  {
    hide Write, WritePanics, Add, Overflows;
    if c.CallWrite? {
      WriteStaysUnchunked(o, s, c.message);
    }
  }

  lemma {:induction false} RunStaysUnchunked(o: Options, s: State, calls: seq<Call>)
    requires Sane(s) && Safe(o, s, calls) && Unchunked(s) && !o.useChunks
    ensures Unchunked(Run(o, s, calls))
    decreases |calls|
  {
    hide Registry.Valid, AllRegistered, SchemasKnown, Step, Panics, Unchunked;
    if calls != [] {
      NextInRange(s.schemas);
      NextInRange(s.channels);
      StepKeepsSane(o, s, calls[0]);
      StepStaysUnchunked(o, s, calls[0]);
      RunStaysUnchunked(o, Step(o, s, calls[0]).0, calls[1..]);
    }
  }

  /** The items of the finished file. */
  ghost function FinalItems(o: Options, calls: seq<Call>): seq<Item>
    requires Sane(Initial(o)) && Safe(o, Initial(o), calls)
  {
    Closed(Run(o, Initial(o), calls)).items
  }

  /** With chunk checksums, or without chunks, the DataEnd record of every run holds the
      checksum of every byte before it, although chunk headers are patched after the fact
      and the data of a chunk never passes through the running checksum. */
  lemma DataEndCoversFile(o: Options, calls: seq<Call>)
    requires Sane(Initial(o)) && Safe(o, Initial(o), calls)
    requires o.dataCrc && (o.chunkCrcs || !o.useChunks)
    ensures DataCrc(o, FinalItems(o, calls)) == Checksum(Layout(o, FinalItems(o, calls)))
  {
    hide Sane, Safe, Run, Checksum, Layout, Hashed;
    if !o.chunkCrcs {
      assert Unchunked(Initial(o));
      RunStaysUnchunked(o, Initial(o), calls);
    }
    HashedIsLayout(o, FinalItems(o, calls));
  }

  // ---------- and with chunks but without their checksums it does not ----------

  function ByteMessage(channel: nat, h: MessageHeader, x: byte): Entry {
    MessageEntry(channel, h, [x])
  }

  /** A message ends with its data. */
  lemma MessageEndsWithData(channel: nat, h: MessageHeader, x: byte, y: byte)
    ensures var a, b := EntryBytes(ByteMessage(channel, h, x)), EntryBytes(ByteMessage(channel, h, y));
            |a| == |b| > 0 && a == a[..|a| - 1] + [x] && b == a[..|a| - 1] + [y]
  {
    hide LE;
    var fields := LE(channel, 2) + (LE(h.sequence, 4) + (LE(h.logTime, 8) + LE(h.publishTime, 8)));
    assert Body(ByteMessage(channel, h, x).record) == fields + [x];
    assert Body(ByteMessage(channel, h, y).record) == fields + [y];
    var start := [OP_MESSAGE] + (LE(|fields| + 1, 8) + fields);
    assert EntryBytes(ByteMessage(channel, h, x)) == start + [x];
    assert EntryBytes(ByteMessage(channel, h, y)) == start + [y];
  }

  /** Chunks that store their records as they are. */
  ghost predicate Stores(c: Codec) {
    forall raw: bytes :: c.finished(raw) == raw
  }

  lemma StoredAsIs(c: Codec, raw: bytes)
    requires Stores(c)
    ensures c.finished(raw) == raw
  {
  }

  /** A chunk whose last record is a message of one byte. */
  function ByteChunk(es: seq<Entry>, channel: nat, h: MessageHeader, x: byte): Item {
    ChunkOf(es + [ByteMessage(channel, h, x)])
  }

  /** Header and trailer of such a chunk do not depend on the byte. */
  lemma ByteIsOnlyInData(o: Options, es: seq<Entry>, channel: nat, h: MessageHeader, x: byte, y: byte)
    requires Stores(o.codec) && !o.chunkCrcs
    ensures var ex, ey := es + [ByteMessage(channel, h, x)], es + [ByteMessage(channel, h, y)];
            FinalHeader(o, ex) == FinalHeader(o, ey) && Trailer(o, ex) == Trailer(o, ey)
  {
    hide ChunkHeader, EntryBytes, Raw, BoundsOf, IndexOf, Stores, IndexBytes, Ascending, Widened, Indexed, Checksum;
    var mx, my := ByteMessage(channel, h, x), ByteMessage(channel, h, y);
    var ex, ey := es + [mx], es + [my];
    MessageEndsWithData(channel, h, x, y);
    RawMore(es, mx);
    RawMore(es, my);
    BoundsMore(es, mx);
    BoundsMore(es, my);
    IndexMore(es, mx);
    IndexMore(es, my);
    StoredAsIs(o.codec, Raw(ex));
    StoredAsIs(o.codec, Raw(ey));
  }

  /** Two such files are hashed alike, though their bytes and so their checksums differ. */
  lemma SameHashOtherBytes(o: Options, items: seq<Item>, es: seq<Entry>, channel: nat, h: MessageHeader, x: byte, y: byte)
    requires Stores(o.codec) && !o.chunkCrcs && x != y
    ensures var ix, iy := items + [ByteChunk(es, channel, h, x)], items + [ByteChunk(es, channel, h, y)];
            Hashed(o, ix) == Hashed(o, iy) && Checksum(Layout(o, ix)) != Checksum(Layout(o, iy))
  {
    hide FinalHeader, Trailer, EntryBytes, Raw, Stores, Checksum, Layout, Hashed, ChunkBytes, ByteMessage;
    var mx, my := ByteMessage(channel, h, x), ByteMessage(channel, h, y);
    var ex, ey := es + [mx], es + [my];
    ByteIsOnlyInData(o, es, channel, h, x, y);
    HashedMore(o, items, ChunkOf(ex));
    HashedMore(o, items, ChunkOf(ey));
    LayoutMore(o, items, ChunkOf(ex));
    LayoutMore(o, items, ChunkOf(ey));
    HeaderFillsPlaceholder(o, ex);
    HeaderFillsPlaceholder(o, ey);
    StoredAsIs(o.codec, Raw(ex));
    StoredAsIs(o.codec, Raw(ey));
    RawMore(es, mx);
    RawMore(es, my);
    MessageEndsWithData(channel, h, x, y);
    var a := EntryBytes(mx);
    var lead := a[..|a| - 1];
    var front := Layout(o, items) + FinalHeader(o, ex) + Raw(es) + lead;
    SplitAround(Layout(o, items), FinalHeader(o, ex), Raw(es), lead, [x], Trailer(o, ex));
    SplitAround(Layout(o, items), FinalHeader(o, ex), Raw(es), lead, [y], Trailer(o, ex));
    OneByteMatters(front, x, y, Trailer(o, ex));
  }

  lemma SplitAround(a: bytes, b: bytes, c: bytes, d: bytes, e: bytes, f: bytes)
    ensures a + ((b + (c + (d + e))) + f) == (a + b + c + d) + e + f
  {
  }

  /** A channel and one message of one byte on it. */
  function ByteCalls(x: byte): seq<Call> {
    [CallAddChannel(ChannelContent(0, [], [], [])), CallWriteKnown(1, MessageHeader(0, 0, 0), [x])]
  }

  lemma ByteCallsRun(o: Options, x: byte) returns (items: seq<Item>, es: seq<Entry>)
    requires o.useChunks
    ensures Sane(Initial(o)) && Safe(o, Initial(o), ByteCalls(x))
    ensures FinalItems(o, ByteCalls(x)) == items + [ByteChunk(es, 1, MessageHeader(0, 0, 0), x)]
    ensures var s := Rolled(o, Counted(Step(o, Initial(o), ByteCalls(x)[0]).0, 1, 0));
            items == s.items && es == if s.open.InChunk? then s.open.entries else []
  {
    hide Sane, AllEntries, Raw, Layout;
    InitialIsSane(o);
    var calls := ByteCalls(x);
    var s0 := Initial(o);
    var s1 := Step(o, s0, calls[0]).0;
    StepKeepsSane(o, s0, calls[0]);
    assert s1.channels.all == map[1 := 1] && s1.open.InChunk?;
    var s := Rolled(o, Counted(s1, 1, 0));
    items, es := s.items, if s.open.InChunk? then s.open.entries else [];
    var s2 := Step(o, s1, calls[1]).0;
    StepKeepsSane(o, s1, calls[1]);
    assert s2.open == InChunk(es + [ByteMessage(1, MessageHeader(0, 0, 0), x)]) by {
      assert [] + [ByteMessage(1, MessageHeader(0, 0, 0), x)] == [ByteMessage(1, MessageHeader(0, 0, 0), x)];
    }
    assert calls[1..] == [calls[1]] && calls[1..][1..] == [];
    assert Safe(o, s2, []);
    assert Safe(o, s1, calls[1..]);
    assert Safe(o, s0, calls);
    assert Run(o, s2, []) == s2;
    assert Run(o, s1, calls[1..]) == s2;
  }

  /** Every run stores the right checksum. */
  ghost predicate AlwaysRight(o: Options)
    requires Sane(Initial(o))
  {
    forall calls :: Safe(o, Initial(o), calls) ==>
      DataCrc(o, FinalItems(o, calls)) == Checksum(Layout(o, FinalItems(o, calls)))
  }

  /** So, for uncompressed chunks, the data-section checksum is right in every run if and only
      if chunk checksums are calculated too or nothing is chunked. */
  lemma RightExactlyWithChunkCrcs(o: Options)
    requires o.dataCrc && Stores(o.codec)
    ensures Sane(Initial(o)) && (AlwaysRight(o) <==> o.chunkCrcs || !o.useChunks)
  {
    hide Sane, Safe, Run, Checksum, Layout, Hashed, Step, Stores, Rolled, Counted, FinalItems, ByteCalls, ByteChunk;
    InitialIsSane(o);
    if o.chunkCrcs || !o.useChunks {
      forall calls | Safe(o, Initial(o), calls)
        ensures DataCrc(o, FinalItems(o, calls)) == Checksum(Layout(o, FinalItems(o, calls)))
      {
        DataEndCoversFile(o, calls);
      }
    } else {
      var i0, e0 := ByteCallsRun(o, 0);
      var i1, e1 := ByteCallsRun(o, 1);
      FirstCallIsTheSame();
      SameHashOtherBytes(o, i0, e0, 1, MessageHeader(0, 0, 0), 0, 1);
      assert DataCrc(o, FinalItems(o, ByteCalls(0))) == DataCrc(o, FinalItems(o, ByteCalls(1)));
    }
  }

  lemma FirstCallIsTheSame()
    ensures ByteCalls(0)[0] == ByteCalls(1)[0]
  {
  }
}
