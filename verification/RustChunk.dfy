/** The Rust `ChunkWriter`: a chunk is written behind a placeholder header, which is
    overwritten once the sizes and checksums are known. */
module RustChunk {
  import opened Bytes
  import opened Format
  import opened Records
  import opened RustIo
  import opened RustLayout

  /** A chunk in progress. The compressor is represented by what it has been fed. */
  datatype ChunkWriter = ChunkWriter(
    chunkOffset: nat,
    headerStart: nat,
    dataStart: nat,
    bounds: Bounds,
    plain: CountingCrc,
    fed: bytes,
    packed: CountingCrc,
    indexes: IndexMap,
    preChunk: Option<Hasher>)

  // ---------- what a chunk in progress satisfies ----------

  /** The writer's fields after `es` were written into a chunk that began when the file was
      `before` and the running checksum covered `hashed`. */
  ghost predicate Tracks(cw: ChunkWriter, o: Options, es: seq<Entry>, before: bytes, hashed: bytes) {
    var raw := Raw(es);
    && cw.chunkOffset == |before|
    && cw.bounds == BoundsOf(es)
    && cw.plain == CountingCrc(HashIf(o.chunkCrcs, raw), |raw|)
    && cw.fed == raw
    && cw.packed == CountingCrc(HashIf(o.chunkCrcs, o.codec.emitted(raw)), |o.codec.emitted(raw)|)
    && cw.indexes == ChunkIndexes(o, es)
    && cw.preChunk == HashIf(o.dataCrc, hashed)
  }

  /** What precedes the chunk in the stream it is written to. */
  function Ahead(sink: ChunkSink, before: bytes): bytes {
    if sink.buffer.Some? then [] else before
  }

  /** The streams after the compressor has put out `packed`. */
  ghost predicate Holds(cw: ChunkWriter, sink: ChunkSink, o: Options, packed: bytes, before: bytes)
    reads sink.inner, sink.Target()
  {
    && sink.Valid()
    && sink.inner.AtEnd()
    && sink.Target().AtEnd()
    && sink.Target().data == Ahead(sink, before) + Placeholder(o) + packed
    && (sink.buffer.Some? ==> sink.inner.data == before)
    && cw.headerStart == |Ahead(sink, before)|
    && cw.dataStart == cw.headerStart + |Placeholder(o)|
  }

  // ---------- the write stack ----------

  method Begin(o: Options, sink: ChunkSink, crc: CountingCrc, ghost before: bytes, ghost hashed: bytes)
    returns (cw: ChunkWriter)
    requires sink.Valid() && sink.inner.AtEnd() && sink.inner.data == before
    requires crc.hasher == HashIf(o.dataCrc, hashed)
    modifies sink.inner, sink.Target()
    ensures Tracks(cw, o, [], before, hashed)
    ensures sink.Valid() && Holds(cw, sink, o, o.codec.emitted([]), before)
  {
    hide Placeholder, HashIf, NewCounter, CountingCrc.Wrote, Overwrite;
    var chunkOffset := sink.inner.pos;
    sink.Open();
    var headerStart := sink.Target().pos;
    sink.Write(Placeholder(o));
    var dataStart := sink.Target().pos;
    var first := o.codec.emitted([]);
    NewCounterIsHash(o.chunkCrcs);
    WroteIsHash(o.chunkCrcs, [], 0, first);
    assert [] + first == first;
    sink.Write(first);
    var packed := NewCounter(o.chunkCrcs).Wrote(first);
    cw := ChunkWriter(chunkOffset, headerStart, dataStart, None, NewCounter(o.chunkCrcs), [], packed, map[], crc.hasher);
  }

  lemma EmittedGrows(c: Codec, raw: bytes, buf: bytes)
    requires Sound(c)
    ensures var was, now := c.emitted(raw), c.emitted(raw + buf);
            |was| <= |now| && was + now[|was|..] == now
  {
    assert c.emitted(raw) <= c.emitted(raw + buf);
  }

  /** One write through the counting writers and the compressor. */
  method WriteBytes(cw: ChunkWriter, o: Options, sink: ChunkSink, buf: bytes, ghost before: bytes)
    returns (t: ChunkWriter)
    requires Sound(o.codec)
    requires cw.plain == CountingCrc(HashIf(o.chunkCrcs, cw.fed), |cw.fed|)
    requires cw.packed == CountingCrc(HashIf(o.chunkCrcs, o.codec.emitted(cw.fed)), |o.codec.emitted(cw.fed)|)
    requires Holds(cw, sink, o, o.codec.emitted(cw.fed), before)
    modifies sink.Target()
    ensures var raw, out := cw.fed + buf, o.codec.emitted(cw.fed + buf);
            t == cw.(plain := CountingCrc(HashIf(o.chunkCrcs, raw), |raw|), fed := raw,
                     packed := CountingCrc(HashIf(o.chunkCrcs, out), |out|))
    ensures sink.Valid() && Holds(t, sink, o, o.codec.emitted(t.fed), before)
  {
    hide Placeholder, HashIf, CountingCrc.Wrote, Overwrite, Sound;
    var was, now := o.codec.emitted(cw.fed), o.codec.emitted(cw.fed + buf);
    EmittedGrows(o.codec, cw.fed, buf);
    var more := now[|was|..];
    WroteIsHash(o.chunkCrcs, cw.fed, |cw.fed|, buf);
    WroteIsHash(o.chunkCrcs, was, |was|, more);
    sink.Write(more);
    JoinAssociates(Ahead(sink, before) + Placeholder(o), was, more);
    t := cw.(plain := cw.plain.Wrote(buf), fed := cw.fed + buf, packed := cw.packed.Wrote(more));
  }

  /** A record: opcode and length, then the body. */
  method WriteRecord(cw: ChunkWriter, o: Options, sink: ChunkSink, e: Entry, ghost before: bytes)
    returns (t: ChunkWriter)
    requires Sound(o.codec)
    requires cw.plain == CountingCrc(HashIf(o.chunkCrcs, cw.fed), |cw.fed|)
    requires cw.packed == CountingCrc(HashIf(o.chunkCrcs, o.codec.emitted(cw.fed)), |o.codec.emitted(cw.fed)|)
    requires Holds(cw, sink, o, o.codec.emitted(cw.fed), before)
    modifies sink.Target()
    ensures var raw, out := cw.fed + EntryBytes(e), o.codec.emitted(cw.fed + EntryBytes(e));
            t == cw.(plain := CountingCrc(HashIf(o.chunkCrcs, raw), |raw|), fed := raw,
                     packed := CountingCrc(HashIf(o.chunkCrcs, out), |out|))
    ensures sink.Valid() && Holds(t, sink, o, o.codec.emitted(t.fed), before)
  {
    hide Placeholder, HashIf, Sound, EntryOp, EntryBody;
    var body := EntryBody(e);
    var start := [EntryOp(e)] + LE(|body|, 8);
    FramedInTwo(EntryOp(e), body);
    assert cw.fed + start + body == cw.fed + (start + body);
    hide Holds, LE, EntryBytes;
    t := WriteBytes(cw, o, sink, start, before);
    t := WriteBytes(t, o, sink, body, before);
  }

  lemma FramedInTwo(op: byte, body: bytes)
    ensures Framed(op, body) == ([op] + LE(|body|, 8)) + body
  {
    hide LE;
  }

  /** A record other than a message. */
  method WriteEntry(cw: ChunkWriter, o: Options, sink: ChunkSink, e: Entry, ghost es: seq<Entry>, ghost before: bytes,
                    ghost hashed: bytes)
    returns (t: ChunkWriter)
    requires Sound(o.codec) && !IsMessage(e)
    requires Tracks(cw, o, es, before, hashed)
    requires Holds(cw, sink, o, o.codec.emitted(Raw(es)), before)
    modifies sink.Target()
    ensures Tracks(t, o, es + [e], before, hashed)
    ensures sink.Valid() && Holds(t, sink, o, o.codec.emitted(Raw(es + [e])), before)
  {
    hide Placeholder, HashIf, Sound, Holds, Raw, BoundsOf, IndexOf, EntryBytes;
    RawMore(es, e);
    BoundsMore(es, e);
    IndexMore(es, e);
    t := WriteRecord(cw, o, sink, e, before);
  }

  /** A message also widens the chunk's time range and is indexed by its offset. */
  method WriteMessage(cw: ChunkWriter, o: Options, sink: ChunkSink, m: MessageRecord, ghost es: seq<Entry>,
                      ghost before: bytes, ghost hashed: bytes)
    returns (t: ChunkWriter)
    requires Sound(o.codec)
    requires Tracks(cw, o, es, before, hashed)
    requires Holds(cw, sink, o, o.codec.emitted(Raw(es)), before)
    modifies sink.Target()
    ensures Tracks(t, o, es + [Typed(m)], before, hashed)
    ensures sink.Valid() && Holds(t, sink, o, o.codec.emitted(Raw(es + [Typed(m)])), before)
  {
    hide Placeholder, HashIf, Sound, Holds, Raw, BoundsOf, IndexOf, EntryBytes, Widened, Indexed;
    ghost var e := Typed(m);
    RawMore(es, e);
    BoundsMore(es, e);
    IndexMore(es, e);
    t := cw.(bounds := Widened(cw.bounds, m.logTime));
    if o.emitMessageIndexes {
      t := t.(indexes := Indexed(t.indexes, m.messageChannel, m.logTime, t.plain.count));
    }
    HoldsIgnoresTheRest(cw, t, sink, o, o.codec.emitted(Raw(es)), before);
    t := WriteRecord(t, o, sink, Typed(m), before);
  }

  lemma HoldsIgnoresTheRest(cw: ChunkWriter, t: ChunkWriter, sink: ChunkSink, o: Options, packed: bytes, before: bytes)
    requires Holds(cw, sink, o, packed, before)
    requires t.headerStart == cw.headerStart && t.dataStart == cw.dataStart
    ensures Holds(t, sink, o, packed, before)
  {
  }

  // ---------- closing a chunk ----------

  /** The sizes and checksums known once a chunk's data is complete. */
  datatype Closing = Closing(crc: CountingCrc, length: nat, start: nat, end: nat, compressed: nat, uncompressed: nat)

  lemma FinishedGrows(c: Codec, raw: bytes)
    requires Sound(c)
    ensures var was, now := c.emitted(raw), c.finished(raw);
            |was| <= |now| && was + now[|was|..] == now
  {
    assert c.emitted(raw) <= c.finished(raw);
  }

  /** The bytes of a closed chunk that reach the running checksum. */
  function HashedChunk(o: Options, es: seq<Entry>): bytes {
    FinalHeader(o, es) + (if o.chunkCrcs then o.codec.finished(Raw(es)) else [])
  }

  lemma ChunkBytesStand(o: Options, es: seq<Entry>, ahead: bytes)
    ensures var packed := o.codec.finished(Raw(es));
            Overwrite(ahead + Placeholder(o) + packed, |ahead|, FinalHeader(o, es)) == ahead + ChunkBytes(o, es)
  {
    hide Placeholder, FinalHeader, ChunkBytes, Raw, Overwrite;
    var packed := o.codec.finished(Raw(es));
    HeaderFillsPlaceholder(o, es);
    OverwriteMiddle(ahead, Placeholder(o), packed, FinalHeader(o, es));
    JoinAssociates(ahead, FinalHeader(o, es), packed);
  }

  lemma CombinedHash(o: Options, es: seq<Entry>, hashed: bytes)
    ensures var header, packed := FinalHeader(o, es), o.codec.finished(Raw(es));
            var before := HashIf(o.dataCrc, hashed + header);
            var t := if o.dataCrc && o.chunkCrcs then Some(HashOf(hashed + header).Combined(HashOf(packed))) else before;
            t == HashIf(o.dataCrc, hashed + HashedChunk(o, es))
  {
    hide FinalHeader, Raw, HashOf, Hasher.Combined;
    var header, packed := FinalHeader(o, es), o.codec.finished(Raw(es));
    CombinedIsHash(hashed + header, packed);
    JoinAssociates(hashed, header, packed);
    assert hashed + (header + []) == hashed + header;
  }

  /** The encoder puts out what it still holds. */
  method EndCompression(cw: ChunkWriter, o: Options, sink: ChunkSink, ghost es: seq<Entry>, ghost before: bytes,
                        ghost hashed: bytes)
    returns (packer: CountingCrc)
    requires Sound(o.codec)
    requires Tracks(cw, o, es, before, hashed)
    requires Holds(cw, sink, o, o.codec.emitted(Raw(es)), before)
    modifies sink.Target()
    ensures var packed := o.codec.finished(Raw(es));
            Holds(cw, sink, o, packed, before) && packer == CountingCrc(HashIf(o.chunkCrcs, packed), |packed|)
  {
    hide Placeholder, HashIf, CountingCrc.Wrote, Overwrite, Sound, Raw, BoundsOf, ChunkIndexes;
    var was, packed := o.codec.emitted(cw.fed), o.codec.finished(cw.fed);
    FinishedGrows(o.codec, cw.fed);
    var more := packed[|was|..];
    WroteIsHash(o.chunkCrcs, was, |was|, more);
    sink.Write(more);
    JoinAssociates(Ahead(sink, before) + Placeholder(o), was, more);
    packer := cw.packed.Wrote(more);
  }

  /** Back to the placeholder, the real header over it, and forward to the end again. */
  method PatchHeader(sink: ChunkSink, o: Options, cw: ChunkWriter, header: bytes, ghost es: seq<Entry>, ghost before: bytes)
    requires Holds(cw, sink, o, o.codec.finished(Raw(es)), before)
    requires header == FinalHeader(o, es)
    modifies sink.Target()
    ensures sink.Valid() && sink.inner.AtEnd()
    ensures sink.Target().AtEnd() && sink.Target().data == Ahead(sink, before) + ChunkBytes(o, es)
    ensures sink.buffer.Some? ==> sink.inner.data == before
  {
    hide Placeholder, FinalHeader, Overwrite, Raw, ChunkBytes;
    HeaderFillsPlaceholder(o, es);
    ChunkBytesStand(o, es, Ahead(sink, before));
    sink.SeekStart(cw.headerStart);
    sink.Write(header);
    assert sink.Target().pos == cw.dataStart;
    sink.SeekEnd();
  }

  lemma PositionIsEnd(cw: ChunkWriter, sink: ChunkSink, o: Options, es: seq<Entry>, before: bytes)
    requires Holds(cw, sink, o, o.codec.finished(Raw(es)), before)
    ensures sink.Target().pos - cw.headerStart == |ChunkBytes(o, es)| == 49 + |o.codec.name| + |o.codec.finished(Raw(es))|
  {
    hide Placeholder, FinalHeader, Raw, ChunkBytes;
    HeaderFillsPlaceholder(o, es);
  }

  /** The rest of the compressed data, the real header over the placeholder, and the whole
      chunk handed to the output. */
  method CloseData(cw: ChunkWriter, o: Options, sink: ChunkSink, ghost es: seq<Entry>, ghost before: bytes,
                   ghost hashed: bytes)
    returns (c: Closing)
    requires Sound(o.codec)
    requires Tracks(cw, o, es, before, hashed)
    requires Holds(cw, sink, o, o.codec.emitted(Raw(es)), before)
    modifies sink.inner, sink.Target()
    ensures sink.Valid() && sink.inner.AtEnd() && sink.inner.data == before + ChunkBytes(o, es)
    ensures c.crc == WithHasher(HashIf(o.dataCrc, hashed + HashedChunk(o, es)))
    ensures c.length == |ChunkBytes(o, es)| && c.start == StartTime(BoundsOf(es)) && c.end == EndTime(BoundsOf(es))
    ensures c.compressed == |o.codec.finished(Raw(es))| && c.uncompressed == |Raw(es)|
  {
    hide Placeholder, ChunkHeader, HashOf, CountingCrc.Wrote, Overwrite, Sound, Raw, BoundsOf, IndexOf, ChunkBytes, HashedChunk,
         Hasher.Combined, Holds, StartTime, EndTime, ChunkIndexes;
    var uncompressedSize, uncompressedCrc := cw.plain.count, Stored(cw.plain.hasher);
    StoredIsChecksum(o.chunkCrcs, Raw(es));
    var packer := EndCompression(cw, o, sink, es, before, hashed);
    var compressedSize := packer.count;
    PositionIsEnd(cw, sink, o, es, before);
    var dataEnd := sink.Target().pos;

    var recordSize := dataEnd - cw.headerStart - 9;
    var header := ChunkHeader(recordSize, StartTime(cw.bounds), EndTime(cw.bounds), uncompressedSize, uncompressedCrc,
                              o.codec.name, compressedSize);
    PatchHeader(sink, o, cw, header, es, before);
    WroteIsHash(o.dataCrc, hashed, 0, header);
    var crc := WithHasher(cw.preChunk).Wrote(header);
    var chunkLength := dataEnd - cw.headerStart;
    sink.Finish();

    CombinedHash(o, es, hashed);
    var hasher := crc.hasher;
    if hasher.Some? && packer.hasher.Some? {
      hasher := Some(hasher.value.Combined(packer.hasher.value));
    }
    c := Closing(WithHasher(hasher), chunkLength, StartTime(cw.bounds), EndTime(cw.bounds), compressedSize, uncompressedSize);
  }

  /** The message indexes of the channels, ascending, and where each one starts. */
  method WriteIndexes(o: Options, output: Stream, crc: CountingCrc, ix: IndexMap, ghost hashed: bytes)
    returns (t: CountingCrc, offsets: IntMap, length: nat)
    requires output.AtEnd()
    requires crc.hasher == HashIf(o.dataCrc, hashed)
    modifies output
    ensures var channels := Ascending(ix.Keys);
            var written := IndexBytes(ix, channels);
            output.AtEnd() && output.data == old(output.data) + written &&
            t.hasher == HashIf(o.dataCrc, hashed + written) &&
            offsets == IndexOffsets(ix, channels, |old(output.data)|) && length == |written|
  {
    hide Ascending, IndexBytes, IndexOffsets, EntryBytes, IndexRecord, HashIf, Overwrite, CountingCrc.Wrote;
    var channels := Ascending(ix.Keys);
    var start := output.pos;
    NothingIndexed(ix, start);
    t, offsets := crc, [];
    assert output.data == old(output.data) + [];
    assert hashed + [] == hashed;
    var i := 0;
    while i < |channels|
      invariant i <= |channels|
      invariant output.AtEnd() && output.data == old(output.data) + IndexBytes(ix, channels[..i])
      invariant t.hasher == HashIf(o.dataCrc, hashed + IndexBytes(ix, channels[..i]))
      invariant offsets == IndexOffsets(ix, channels[..i], start)
    {
      ghost var done := IndexBytes(ix, channels[..i]);
      var position := output.pos;
      offsets := offsets + [(channels[i], position)];
      var index := EntryBytes(IndexRecord(ix, channels[i]));
      IndexBytesMore(ix, channels, i);
      IndexOffsetsMore(ix, channels, start, i);
      WroteIsHash(o.dataCrc, hashed + done, t.count, index);
      JoinAssociates(hashed, done, index);
      JoinAssociates(old(output.data), done, index);
      output.Write(index);
      t := t.Wrote(index);
      i := i + 1;
    }
    assert channels[..i] == channels;
    length := output.pos - start;
  }

  lemma NothingIndexed(ix: IndexMap, base: nat)
    ensures IndexBytes(ix, []) == [] && IndexOffsets(ix, [], base) == []
  {
  }

  lemma HashedChunkAndTrailer(o: Options, es: seq<Entry>)
    ensures HashedChunk(o, es) + Trailer(o, es) == HashedBytes(o, ChunkOf(es))
  {
    hide FinalHeader, Trailer, Raw, ChunkBytes;
    HeaderFillsPlaceholder(o, es);
    if !o.chunkCrcs {
      assert FinalHeader(o, es) + [] == FinalHeader(o, es);
    }
  }

  /** Closing a chunk appends exactly the item it stands for, carries the running checksum
      across it, and returns its chunk index. */
  method Finish(cw: ChunkWriter, o: Options, sink: ChunkSink, ghost es: seq<Entry>, ghost before: bytes, ghost hashed: bytes)
    returns (crc: CountingCrc, index: Record)
    requires Sound(o.codec)
    requires Tracks(cw, o, es, before, hashed)
    requires Holds(cw, sink, o, o.codec.emitted(Raw(es)), before)
    modifies sink.inner, sink.Target()
    ensures sink.Valid() && sink.inner.AtEnd() && sink.inner.data == before + ItemBytes(o, ChunkOf(es))
    ensures crc.hasher == HashIf(o.dataCrc, hashed + HashedBytes(o, ChunkOf(es)))
    ensures index == ChunkIndexFor(o, es, |before|)
  {
    hide Raw, BoundsOf, IndexOf, ChunkBytes, HashedChunk, Holds, Sound, HashIf, IndexBytes, IndexOffsets, Ascending, HashedBytes;
    var c := CloseData(cw, o, sink, es, before, hashed);
    var offsets, length;
    crc, offsets, length := WriteIndexes(o, sink.inner, c.crc, cw.indexes, hashed + HashedChunk(o, es));
    HashedChunkAndTrailer(o, es);
    JoinAssociates(hashed, HashedChunk(o, es), Trailer(o, es));
    JoinAssociates(before, ChunkBytes(o, es), Trailer(o, es));
    index := ChunkIndex(c.start, c.end, cw.chunkOffset, c.length, offsets, length, o.codec.name, c.compressed, c.uncompressed);
  }
}
