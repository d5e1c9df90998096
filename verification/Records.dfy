/** The fifteen record types: how their bodies are laid out, how a body is read, and that
    reading undoes writing. Integer widths, field order and the checksum of attachments
    are those of the MCAP specification. */
module Records {
  import opened Bytes
  import opened Crc
  import opened Format

  datatype Record =
    | Header(profile: bytes, library: bytes)
    | Footer(summaryStart: nat, summaryOffsetStart: nat, summaryCrc: bv32)
    | Schema(schemaId: nat, schemaName: bytes, schemaEncoding: bytes, schemaData: bytes)
    | Channel(channelId: nat, channelSchema: nat, topic: bytes, messageEncoding: bytes, channelMetadata: StringMap)
    | Message(messageChannel: nat, sequence: nat, logTime: nat, publishTime: nat, messageData: bytes)
    | Chunk(chunkStart: nat, chunkEnd: nat, uncompressedSize: nat, uncompressedCrc: bv32, compression: bytes, records: bytes)
    | MessageIndex(indexChannel: nat, entries: IntMap)
    | ChunkIndex(startTime: nat, endTime: nat, chunkOffset: nat, chunkLength: nat, indexOffsets: IntMap, indexLength: nat,
                 indexCompression: bytes, compressedSize: nat, indexUncompressedSize: nat)
    | Attachment(attachmentLogTime: nat, createTime: nat, attachmentName: bytes, mediaType: bytes, attachmentData: bytes)
    | AttachmentIndex(attachmentOffset: nat, attachmentLength: nat, indexLogTime: nat, indexCreateTime: nat, dataSize: nat,
                      indexName: bytes, indexMediaType: bytes)
    | Statistics(messageCount: nat, schemaCount: nat, channelCount: nat, attachmentCount: nat, metadataCount: nat,
                 chunkCount: nat, messageStart: nat, messageEnd: nat, channelMessageCounts: IntMap)
    | Metadata(metadataName: bytes, metadata: StringMap)
    | MetadataIndex(metadataOffset: nat, metadataLength: nat, metadataIndexName: bytes)
    | SummaryOffset(groupOpcode: byte, groupStart: nat, groupLength: nat)
    | DataEnd(dataSectionCrc: bv32)
  {
    function Opcode(): byte {
      match this
      case Header(_, _) => OP_HEADER
      case Footer(_, _, _) => OP_FOOTER
      case Schema(_, _, _, _) => OP_SCHEMA
      case Channel(_, _, _, _, _) => OP_CHANNEL
      case Message(_, _, _, _, _) => OP_MESSAGE
      case Chunk(_, _, _, _, _, _) => OP_CHUNK
      case MessageIndex(_, _) => OP_MESSAGE_INDEX
      case ChunkIndex(_, _, _, _, _, _, _, _, _) => OP_CHUNK_INDEX
      case Attachment(_, _, _, _, _) => OP_ATTACHMENT
      case AttachmentIndex(_, _, _, _, _, _, _) => OP_ATTACHMENT_INDEX
      case Statistics(_, _, _, _, _, _, _, _, _) => OP_STATISTICS
      case Metadata(_, _) => OP_METADATA
      case MetadataIndex(_, _, _) => OP_METADATA_INDEX
      case SummaryOffset(_, _, _) => OP_SUMMARY_OFFSET
      case DataEnd(_) => OP_DATA_END
    }

    /** Every field fits the width it is written with. */
    predicate Fits() {
      match this
      case Header(p, l) => |p| < U32 && |l| < U32
      case Footer(s, o, _) => s < U64 && o < U64
      case Schema(i, n, e, d) => i < U16 && |n| < U32 && |e| < U32 && |d| < U32
      case Channel(i, s, t, e, m) => i < U16 && s < U16 && |t| < U32 && |e| < U32 && FitsMap(m)
      case Message(c, s, l, p, _) => c < U16 && s < U32 && l < U64 && p < U64
      case Chunk(s, e, u, _, c, r) => s < U64 && e < U64 && u < U64 && |c| < U32 && |r| < U64
      case MessageIndex(c, m) => c < U16 && FitsIntMap(m, 8)
      case ChunkIndex(s, e, o, l, m, il, c, cs, us) =>
        s < U64 && e < U64 && o < U64 && l < U64 && FitsIntMap(m, 2) && il < U64 && |c| < U32 && cs < U64 && us < U64
      case Attachment(l, c, n, m, d) => l < U64 && c < U64 && |n| < U32 && |m| < U32 && |d| < U64
      case AttachmentIndex(o, l, lt, ct, d, n, m) =>
        o < U64 && l < U64 && lt < U64 && ct < U64 && d < U64 && |n| < U32 && |m| < U32
      case Statistics(mc, sc, cc, ac, mdc, chc, s, e, m) =>
        mc < U64 && sc < U16 && cc < U32 && ac < U32 && mdc < U32 && chc < U32 && s < U64 && e < U64 && FitsIntMap(m, 2)
      case Metadata(n, m) => |n| < U32 && FitsMap(m)
      case MetadataIndex(o, l, n) => o < U64 && l < U64 && |n| < U32
      case SummaryOffset(_, s, l) => s < U64 && l < U64
      case DataEnd(_) => true
    }
  }

  type SchemaRecord = r: Record | r.Schema? witness Schema(0, [], [], [])

  type ChannelRecord = r: Record | r.Channel? witness Channel(0, 0, [], [], [])

  type MessageRecord = r: Record | r.Message? witness Message(0, 0, 0, 0, [])

  type ChunkIndexRecord = r: Record | r.ChunkIndex? witness ChunkIndex(0, 0, 0, 0, [], 0, [], 0, 0)

  /** The checksummed part of an attachment. */
  function AttachmentFields(logTime: nat, createTime: nat, name: bytes, mediaType: bytes, data: bytes): bytes {
    LE(logTime, 8) + (LE(createTime, 8) + (Str(name) + (Str(mediaType) + (LE(|data|, 8) + data))))
  }

  /** The fields of a record, without opcode and length. */
  function Body(r: Record): bytes {
    match r
    case Header(p, l) => Str(p) + Str(l)
    case Footer(s, o, c) => LE(s, 8) + (LE(o, 8) + WordBytes(c))
    case Schema(i, n, e, d) => LE(i, 2) + (Str(n) + (Str(e) + Str(d)))
    case Channel(i, s, t, e, m) => LE(i, 2) + (LE(s, 2) + (Str(t) + (Str(e) + StrMap(m))))
    case Message(c, s, l, p, d) => LE(c, 2) + (LE(s, 4) + (LE(l, 8) + (LE(p, 8) + d)))
    case Chunk(s, e, u, x, c, d) =>
      LE(s, 8) + (LE(e, 8) + (LE(u, 8) + (WordBytes(x) + (Str(c) + (LE(|d|, 8) + d)))))
    case MessageIndex(c, m) => LE(c, 2) + NumMap(m, 8)
    case ChunkIndex(s, e, o, l, m, il, c, cs, us) =>
      LE(s, 8) + (LE(e, 8) + (LE(o, 8) + (LE(l, 8) + (NumMap(m, 2) + (LE(il, 8) + (Str(c) + (LE(cs, 8) + LE(us, 8))))))))
    case Attachment(l, c, n, m, d) =>
      var fields := AttachmentFields(l, c, n, m, d);
      fields + WordBytes(Checksum(fields))
    case AttachmentIndex(o, l, lt, ct, d, n, m) =>
      LE(o, 8) + (LE(l, 8) + (LE(lt, 8) + (LE(ct, 8) + (LE(d, 8) + (Str(n) + Str(m))))))
    case Statistics(mc, sc, cc, ac, mdc, chc, s, e, m) =>
      LE(mc, 8) + (LE(sc, 2) + (LE(cc, 4) + (LE(ac, 4) + (LE(mdc, 4) + (LE(chc, 4) + (LE(s, 8) + (LE(e, 8) + NumMap(m, 2))))))))
    case Metadata(n, m) => Str(n) + StrMap(m)
    case MetadataIndex(o, l, n) => LE(o, 8) + (LE(l, 8) + Str(n))
    case SummaryOffset(g, s, l) => [g] + (LE(s, 8) + LE(l, 8))
    case DataEnd(c) => WordBytes(c)
  }

  /** A whole record: opcode, length, fields. */
  function Encode(r: Record): bytes {
    Framed(r.Opcode(), Body(r))
  }

  // ---------- reading ----------

  function ReadWord(buf: bytes, at: nat): (p: Parsed<bv32>)
    ensures p.Parsed? ==> p.next == at + 4 <= |buf|
  {
    if at + 4 > |buf| then Malformed else Parsed(Load(buf[at], buf[at + 1], buf[at + 2], buf[at + 3]), at + 4)
  }

  function ReadByte(buf: bytes, at: nat): (p: Parsed<byte>)
    ensures p.Parsed? ==> p.next == at + 1 <= |buf|
  {
    if at + 1 > |buf| then Malformed else Parsed(buf[at], at + 1)
  }

  function ReadHeader(b: bytes): Parsed<Record> {
    var (profile, a1) :- ReadPrefixed(b, 0, 4);
    var (library, a2) :- ReadPrefixed(b, a1, 4);
    Parsed(Header(profile, library), a2)
  }

  function ReadFooter(b: bytes): Parsed<Record> {
    var (start, a1) :- ReadInt(b, 0, 8);
    var (offsetStart, a2) :- ReadInt(b, a1, 8);
    var (crc, a3) :- ReadWord(b, a2);
    Parsed(Footer(start, offsetStart, crc), a3)
  }

  function ReadSchema(b: bytes): Parsed<Record> {
    var (id, a1) :- ReadInt(b, 0, 2);
    var (name, a2) :- ReadPrefixed(b, a1, 4);
    var (encoding, a3) :- ReadPrefixed(b, a2, 4);
    var (data, a4) :- ReadPrefixed(b, a3, 4);
    Parsed(Schema(id, name, encoding, data), a4)
  }

  function ReadChannel(b: bytes): Parsed<Record> {
    var (id, a1) :- ReadInt(b, 0, 2);
    var (schemaId, a2) :- ReadInt(b, a1, 2);
    var (topic, a3) :- ReadPrefixed(b, a2, 4);
    var (encoding, a4) :- ReadPrefixed(b, a3, 4);
    var (metadata, a5) :- ReadStrMap(b, a4);
    Parsed(Channel(id, schemaId, topic, encoding, metadata), a5)
  }

  function ReadMessage(b: bytes): (p: Parsed<Record>)
    ensures p.Parsed? ==> p.value.Message?
  {
    var (channel, a1) :- ReadInt(b, 0, 2);
    var (sequence, a2) :- ReadInt(b, a1, 4);
    var (logTime, a3) :- ReadInt(b, a2, 8);
    var (publishTime, a4) :- ReadInt(b, a3, 8);
    Parsed(Message(channel, sequence, logTime, publishTime, b[a4..]), |b|)
  }

  function ReadChunk(b: bytes): (p: Parsed<Record>)
    ensures p.Parsed? ==> p.value.Chunk?
  {
    var (start, a1) :- ReadInt(b, 0, 8);
    var (end, a2) :- ReadInt(b, a1, 8);
    var (size, a3) :- ReadInt(b, a2, 8);
    var (crc, a4) :- ReadWord(b, a3);
    var (compression, a5) :- ReadPrefixed(b, a4, 4);
    var (records, a6) :- ReadPrefixed(b, a5, 8);
    Parsed(Chunk(start, end, size, crc, compression, records), a6)
  }

  function ReadMessageIndex(b: bytes): Parsed<Record> {
    var (channel, a1) :- ReadInt(b, 0, 2);
    var (entries, a2) :- ReadNumMap(b, a1, 8);
    Parsed(MessageIndex(channel, entries), a2)
  }

  function ReadChunkIndex(b: bytes): Parsed<Record> {
    var (start, a1) :- ReadInt(b, 0, 8);
    var (end, a2) :- ReadInt(b, a1, 8);
    var (offset, a3) :- ReadInt(b, a2, 8);
    var (length, a4) :- ReadInt(b, a3, 8);
    var (offsets, a5) :- ReadNumMap(b, a4, 2);
    var (indexLength, a6) :- ReadInt(b, a5, 8);
    var (compression, a7) :- ReadPrefixed(b, a6, 4);
    var (compressed, a8) :- ReadInt(b, a7, 8);
    var (uncompressed, a9) :- ReadInt(b, a8, 8);
    Parsed(ChunkIndex(start, end, offset, length, offsets, indexLength, compression, compressed, uncompressed), a9)
  }

  /** A checksum of zero stands for "not computed" and is not compared. */
  function ReadAttachment(b: bytes): Parsed<Record> {
    var (logTime, a1) :- ReadInt(b, 0, 8);
    var (createTime, a2) :- ReadInt(b, a1, 8);
    var (name, a3) :- ReadPrefixed(b, a2, 4);
    var (mediaType, a4) :- ReadPrefixed(b, a3, 4);
    var (data, a5) :- ReadPrefixed(b, a4, 8);
    var (crc, a6) :- ReadWord(b, a5);
    if crc != 0 && crc != Checksum(b[..a5]) then Malformed
    else Parsed(Attachment(logTime, createTime, name, mediaType, data), a6)
  }

  function ReadAttachmentIndex(b: bytes): Parsed<Record> {
    var (offset, a1) :- ReadInt(b, 0, 8);
    var (length, a2) :- ReadInt(b, a1, 8);
    var (logTime, a3) :- ReadInt(b, a2, 8);
    var (createTime, a4) :- ReadInt(b, a3, 8);
    var (size, a5) :- ReadInt(b, a4, 8);
    var (name, a6) :- ReadPrefixed(b, a5, 4);
    var (mediaType, a7) :- ReadPrefixed(b, a6, 4);
    Parsed(AttachmentIndex(offset, length, logTime, createTime, size, name, mediaType), a7)
  }

  function ReadStatistics(b: bytes): Parsed<Record> {
    var (messages, a1) :- ReadInt(b, 0, 8);
    var (schemas, a2) :- ReadInt(b, a1, 2);
    var (channels, a3) :- ReadInt(b, a2, 4);
    var (attachments, a4) :- ReadInt(b, a3, 4);
    var (metadata, a5) :- ReadInt(b, a4, 4);
    var (chunks, a6) :- ReadInt(b, a5, 4);
    var (start, a7) :- ReadInt(b, a6, 8);
    var (end, a8) :- ReadInt(b, a7, 8);
    var (counts, a9) :- ReadNumMap(b, a8, 2);
    Parsed(Statistics(messages, schemas, channels, attachments, metadata, chunks, start, end, counts), a9)
  }

  function ReadMetadata(b: bytes): Parsed<Record> {
    var (name, a1) :- ReadPrefixed(b, 0, 4);
    var (metadata, a2) :- ReadStrMap(b, a1);
    Parsed(Metadata(name, metadata), a2)
  }

  function ReadMetadataIndex(b: bytes): Parsed<Record> {
    var (offset, a1) :- ReadInt(b, 0, 8);
    var (length, a2) :- ReadInt(b, a1, 8);
    var (name, a3) :- ReadPrefixed(b, a2, 4);
    Parsed(MetadataIndex(offset, length, name), a3)
  }

  function ReadSummaryOffset(b: bytes): Parsed<Record> {
    var (opcode, a1) :- ReadByte(b, 0);
    var (start, a2) :- ReadInt(b, a1, 8);
    var (length, a3) :- ReadInt(b, a2, 8);
    Parsed(SummaryOffset(opcode, start, length), a3)
  }

  function ReadDataEnd(b: bytes): Parsed<Record> {
    var (crc, a1) :- ReadWord(b, 0);
    Parsed(DataEnd(crc), a1)
  }

  datatype Decoded = Unknown | Broken | Known(record: Record)

  /** The record an opcode and body stand for; opcodes outside the format are unknown. */
  function Decode(op: byte, b: bytes): Decoded {
    if op < 0x01 || op > 0x0F then Unknown
    else
      var p :=
        if op == OP_HEADER then ReadHeader(b)
        else if op == OP_FOOTER then ReadFooter(b)
        else if op == OP_SCHEMA then ReadSchema(b)
        else if op == OP_CHANNEL then ReadChannel(b)
        else if op == OP_MESSAGE then ReadMessage(b)
        else if op == OP_CHUNK then ReadChunk(b)
        else if op == OP_MESSAGE_INDEX then ReadMessageIndex(b)
        else if op == OP_CHUNK_INDEX then ReadChunkIndex(b)
        else if op == OP_ATTACHMENT then ReadAttachment(b)
        else if op == OP_ATTACHMENT_INDEX then ReadAttachmentIndex(b)
        else if op == OP_STATISTICS then ReadStatistics(b)
        else if op == OP_METADATA then ReadMetadata(b)
        else if op == OP_METADATA_INDEX then ReadMetadataIndex(b)
        else if op == OP_SUMMARY_OFFSET then ReadSummaryOffset(b)
        else ReadDataEnd(b);
      if p.Malformed? then Broken else Known(p.value)
  }

  // ---------- reading undoes writing ----------

  lemma ReadWordAt(buf: bytes, at: nat, w: bv32)
    requires At(buf, at, WordBytes(w))
    ensures ReadWord(buf, at) == Parsed(w, at + 4)
  {
    var s := buf[at..at + 4];
    assert s == WordBytes(w);
    assert buf[at] == s[0] && buf[at + 1] == s[1] && buf[at + 2] == s[2] && buf[at + 3] == s[3];
    hide ByteOf, Load;
    LoadOfBytes(w);
  }

  lemma ReadByteAt(buf: bytes, at: nat, x: byte)
    requires At(buf, at, [x])
    ensures ReadByte(buf, at) == Parsed(x, at + 1)
  {
    assert buf[at..at + 1][0] == x;
  }

  lemma ReadRestAt(buf: bytes, at: nat, rest: bytes)
    requires At(buf, at, rest) && at + |rest| == |buf|
    ensures buf[at..] == rest
  {
  }

  lemma HeaderReadsBack(r: Record)
    requires r.Header? && r.Fits()
    ensures ReadHeader(Body(r)) == Parsed(r, |Body(r)|)
  {
    hide LE, FromLE, Pow256, At, ReadInt, ReadPrefixed, ReadWord, ReadByte, ReadStrMap, ReadNumMap, FitsMap, FitsIntMap,
         StrMap, NumMap, Str, WordBytes;
    var Header(p, l) := r;
    var b := Body(r);
    var t2 := Str(l);
    var t1 := Str(p) + t2;
    Powers();
    AtWhole(b);
    AtSplits(b, 0, Str(p), t2);
    ReadStrAt(b, 0, p);
    var a1 := |Str(p)|;
    ReadStrAt(b, a1, l);
  }

  lemma FooterReadsBack(r: Record)
    requires r.Footer? && r.Fits()
    ensures ReadFooter(Body(r)) == Parsed(r, |Body(r)|)
  {
    hide LE, FromLE, Pow256, At, ReadInt, ReadPrefixed, ReadWord, ReadByte, ReadStrMap, ReadNumMap, FitsMap, FitsIntMap,
         StrMap, NumMap, Str, WordBytes;
    var Footer(s, o, c) := r;
    var b := Body(r);
    var t3 := WordBytes(c);
    var t2 := LE(o, 8) + t3;
    var t1 := LE(s, 8) + t2;
    Powers();
    AtWhole(b);
    AtSplits(b, 0, LE(s, 8), t2);
    ReadIntAt(b, 0, s, 8);
    var a1 := |LE(s, 8)|;
    AtSplits(b, a1, LE(o, 8), t3);
    ReadIntAt(b, a1, o, 8);
    var a2 := a1 + |LE(o, 8)|;
    ReadWordAt(b, a2, c);
  }

  lemma SchemaReadsBack(r: Record)
    requires r.Schema? && r.Fits()
    ensures ReadSchema(Body(r)) == Parsed(r, |Body(r)|)
  {
    hide LE, FromLE, Pow256, At, ReadInt, ReadPrefixed, ReadWord, ReadByte, ReadStrMap, ReadNumMap, FitsMap, FitsIntMap,
         StrMap, NumMap, Str, WordBytes;
    var Schema(i, n, e, d) := r;
    var b := Body(r);
    var t4 := Str(d);
    var t3 := Str(e) + t4;
    var t2 := Str(n) + t3;
    var t1 := LE(i, 2) + t2;
    Powers();
    AtWhole(b);
    AtSplits(b, 0, LE(i, 2), t2);
    ReadIntAt(b, 0, i, 2);
    var a1 := |LE(i, 2)|;
    AtSplits(b, a1, Str(n), t3);
    ReadStrAt(b, a1, n);
    var a2 := a1 + |Str(n)|;
    AtSplits(b, a2, Str(e), t4);
    ReadStrAt(b, a2, e);
    var a3 := a2 + |Str(e)|;
    ReadStrAt(b, a3, d);
  }

  lemma ChannelReadsBack(r: Record)
    requires r.Channel? && r.Fits()
    ensures ReadChannel(Body(r)) == Parsed(r, |Body(r)|)
  {
    hide LE, FromLE, Pow256, At, ReadInt, ReadPrefixed, ReadWord, ReadByte, ReadStrMap, ReadNumMap, FitsMap, FitsIntMap,
         StrMap, NumMap, Str, WordBytes;
    var Channel(i, s, t, e, m) := r;
    var b := Body(r);
    var t5 := StrMap(m);
    var t4 := Str(e) + t5;
    var t3 := Str(t) + t4;
    var t2 := LE(s, 2) + t3;
    var t1 := LE(i, 2) + t2;
    Powers();
    AtWhole(b);
    AtSplits(b, 0, LE(i, 2), t2);
    ReadIntAt(b, 0, i, 2);
    var a1 := |LE(i, 2)|;
    AtSplits(b, a1, LE(s, 2), t3);
    ReadIntAt(b, a1, s, 2);
    var a2 := a1 + |LE(s, 2)|;
    AtSplits(b, a2, Str(t), t4);
    ReadStrAt(b, a2, t);
    var a3 := a2 + |Str(t)|;
    AtSplits(b, a3, Str(e), t5);
    ReadStrAt(b, a3, e);
    var a4 := a3 + |Str(e)|;
    ReadStrMapAt(b, a4, m);
  }

  lemma MessageReadsBack(r: Record)
    requires r.Message? && r.Fits()
    ensures ReadMessage(Body(r)) == Parsed(r, |Body(r)|)
  {
    hide LE, FromLE, Pow256, At, ReadInt, ReadPrefixed, ReadWord, ReadByte, ReadStrMap, ReadNumMap, FitsMap, FitsIntMap,
         StrMap, NumMap, Str, WordBytes;
    var Message(c, s, l, p, d) := r;
    var b := Body(r);
    var t5 := d;
    var t4 := LE(p, 8) + t5;
    var t3 := LE(l, 8) + t4;
    var t2 := LE(s, 4) + t3;
    var t1 := LE(c, 2) + t2;
    Powers();
    AtWhole(b);
    AtSplits(b, 0, LE(c, 2), t2);
    ReadIntAt(b, 0, c, 2);
    var a1 := |LE(c, 2)|;
    AtSplits(b, a1, LE(s, 4), t3);
    ReadIntAt(b, a1, s, 4);
    var a2 := a1 + |LE(s, 4)|;
    AtSplits(b, a2, LE(l, 8), t4);
    ReadIntAt(b, a2, l, 8);
    var a3 := a2 + |LE(l, 8)|;
    AtSplits(b, a3, LE(p, 8), t5);
    ReadIntAt(b, a3, p, 8);
    var a4 := a3 + |LE(p, 8)|;
    ReadRestAt(b, a4, d);
  }

  lemma ChunkReadsBack(r: Record)
    requires r.Chunk? && r.Fits()
    ensures ReadChunk(Body(r)) == Parsed(r, |Body(r)|)
  {
    hide LE, FromLE, Pow256, At, ReadInt, ReadPrefixed, ReadWord, ReadByte, ReadStrMap, ReadNumMap, FitsMap, FitsIntMap,
         StrMap, NumMap, Str, WordBytes;
    var Chunk(s, e, u, x, c, d) := r;
    var b := Body(r);
    var t6 := (LE(|d|, 8) + d);
    var t5 := Str(c) + t6;
    var t4 := WordBytes(x) + t5;
    var t3 := LE(u, 8) + t4;
    var t2 := LE(e, 8) + t3;
    var t1 := LE(s, 8) + t2;
    Powers();
    AtWhole(b);
    AtSplits(b, 0, LE(s, 8), t2);
    ReadIntAt(b, 0, s, 8);
    var a1 := |LE(s, 8)|;
    AtSplits(b, a1, LE(e, 8), t3);
    ReadIntAt(b, a1, e, 8);
    var a2 := a1 + |LE(e, 8)|;
    AtSplits(b, a2, LE(u, 8), t4);
    ReadIntAt(b, a2, u, 8);
    var a3 := a2 + |LE(u, 8)|;
    AtSplits(b, a3, WordBytes(x), t5);
    ReadWordAt(b, a3, x);
    var a4 := a3 + |WordBytes(x)|;
    AtSplits(b, a4, Str(c), t6);
    ReadStrAt(b, a4, c);
    var a5 := a4 + |Str(c)|;
    ReadPrefixedAt(b, a5, d, 8);
  }

  lemma MessageIndexReadsBack(r: Record)
    requires r.MessageIndex? && r.Fits()
    ensures ReadMessageIndex(Body(r)) == Parsed(r, |Body(r)|)
  {
    hide LE, FromLE, Pow256, At, ReadInt, ReadPrefixed, ReadWord, ReadByte, ReadStrMap, ReadNumMap, FitsMap, FitsIntMap,
         StrMap, NumMap, Str, WordBytes;
    var MessageIndex(c, m) := r;
    var b := Body(r);
    var t2 := NumMap(m, 8);
    var t1 := LE(c, 2) + t2;
    Powers();
    AtWhole(b);
    AtSplits(b, 0, LE(c, 2), t2);
    ReadIntAt(b, 0, c, 2);
    var a1 := |LE(c, 2)|;
    ReadNumMapAt(b, a1, m, 8);
  }

  lemma ChunkIndexReadsBack(r: Record)
    requires r.ChunkIndex? && r.Fits()
    ensures ReadChunkIndex(Body(r)) == Parsed(r, |Body(r)|)
  {
    hide LE, FromLE, Pow256, At, ReadInt, ReadPrefixed, ReadWord, ReadByte, ReadStrMap, ReadNumMap, FitsMap, FitsIntMap,
         StrMap, NumMap, Str, WordBytes;
    var ChunkIndex(s, e, o, l, m, il, c, cs, us) := r;
    var b := Body(r);
    var t9 := LE(us, 8);
    var t8 := LE(cs, 8) + t9;
    var t7 := Str(c) + t8;
    var t6 := LE(il, 8) + t7;
    var t5 := NumMap(m, 2) + t6;
    var t4 := LE(l, 8) + t5;
    var t3 := LE(o, 8) + t4;
    var t2 := LE(e, 8) + t3;
    var t1 := LE(s, 8) + t2;
    Powers();
    AtWhole(b);
    AtSplits(b, 0, LE(s, 8), t2);
    ReadIntAt(b, 0, s, 8);
    var a1 := |LE(s, 8)|;
    AtSplits(b, a1, LE(e, 8), t3);
    ReadIntAt(b, a1, e, 8);
    var a2 := a1 + |LE(e, 8)|;
    AtSplits(b, a2, LE(o, 8), t4);
    ReadIntAt(b, a2, o, 8);
    var a3 := a2 + |LE(o, 8)|;
    AtSplits(b, a3, LE(l, 8), t5);
    ReadIntAt(b, a3, l, 8);
    var a4 := a3 + |LE(l, 8)|;
    AtSplits(b, a4, NumMap(m, 2), t6);
    ReadNumMapAt(b, a4, m, 2);
    var a5 := a4 + |NumMap(m, 2)|;
    AtSplits(b, a5, LE(il, 8), t7);
    ReadIntAt(b, a5, il, 8);
    var a6 := a5 + |LE(il, 8)|;
    AtSplits(b, a6, Str(c), t8);
    ReadStrAt(b, a6, c);
    var a7 := a6 + |Str(c)|;
    AtSplits(b, a7, LE(cs, 8), t9);
    ReadIntAt(b, a7, cs, 8);
    var a8 := a7 + |LE(cs, 8)|;
    ReadIntAt(b, a8, us, 8);
  }

  lemma AttachmentIndexReadsBack(r: Record)
    requires r.AttachmentIndex? && r.Fits()
    ensures ReadAttachmentIndex(Body(r)) == Parsed(r, |Body(r)|)
  {
    hide LE, FromLE, Pow256, At, ReadInt, ReadPrefixed, ReadWord, ReadByte, ReadStrMap, ReadNumMap, FitsMap, FitsIntMap,
         StrMap, NumMap, Str, WordBytes;
    var AttachmentIndex(o, l, lt, ct, d, n, m) := r;
    var b := Body(r);
    var t7 := Str(m);
    var t6 := Str(n) + t7;
    var t5 := LE(d, 8) + t6;
    var t4 := LE(ct, 8) + t5;
    var t3 := LE(lt, 8) + t4;
    var t2 := LE(l, 8) + t3;
    var t1 := LE(o, 8) + t2;
    Powers();
    AtWhole(b);
    AtSplits(b, 0, LE(o, 8), t2);
    ReadIntAt(b, 0, o, 8);
    var a1 := |LE(o, 8)|;
    AtSplits(b, a1, LE(l, 8), t3);
    ReadIntAt(b, a1, l, 8);
    var a2 := a1 + |LE(l, 8)|;
    AtSplits(b, a2, LE(lt, 8), t4);
    ReadIntAt(b, a2, lt, 8);
    var a3 := a2 + |LE(lt, 8)|;
    AtSplits(b, a3, LE(ct, 8), t5);
    ReadIntAt(b, a3, ct, 8);
    var a4 := a3 + |LE(ct, 8)|;
    AtSplits(b, a4, LE(d, 8), t6);
    ReadIntAt(b, a4, d, 8);
    var a5 := a4 + |LE(d, 8)|;
    AtSplits(b, a5, Str(n), t7);
    ReadStrAt(b, a5, n);
    var a6 := a5 + |Str(n)|;
    ReadStrAt(b, a6, m);
  }

  lemma StatisticsReadsBack(r: Record)
    requires r.Statistics? && r.Fits()
    ensures ReadStatistics(Body(r)) == Parsed(r, |Body(r)|)
  {
    hide LE, FromLE, Pow256, At, ReadInt, ReadPrefixed, ReadWord, ReadByte, ReadStrMap, ReadNumMap, FitsMap, FitsIntMap,
         StrMap, NumMap, Str, WordBytes;
    var Statistics(mc, sc, cc, ac, mdc, chc, s, e, m) := r;
    var b := Body(r);
    var t9 := NumMap(m, 2);
    var t8 := LE(e, 8) + t9;
    var t7 := LE(s, 8) + t8;
    var t6 := LE(chc, 4) + t7;
    var t5 := LE(mdc, 4) + t6;
    var t4 := LE(ac, 4) + t5;
    var t3 := LE(cc, 4) + t4;
    var t2 := LE(sc, 2) + t3;
    var t1 := LE(mc, 8) + t2;
    Powers();
    AtWhole(b);
    AtSplits(b, 0, LE(mc, 8), t2);
    ReadIntAt(b, 0, mc, 8);
    var a1 := |LE(mc, 8)|;
    AtSplits(b, a1, LE(sc, 2), t3);
    ReadIntAt(b, a1, sc, 2);
    var a2 := a1 + |LE(sc, 2)|;
    AtSplits(b, a2, LE(cc, 4), t4);
    ReadIntAt(b, a2, cc, 4);
    var a3 := a2 + |LE(cc, 4)|;
    AtSplits(b, a3, LE(ac, 4), t5);
    ReadIntAt(b, a3, ac, 4);
    var a4 := a3 + |LE(ac, 4)|;
    AtSplits(b, a4, LE(mdc, 4), t6);
    ReadIntAt(b, a4, mdc, 4);
    var a5 := a4 + |LE(mdc, 4)|;
    AtSplits(b, a5, LE(chc, 4), t7);
    ReadIntAt(b, a5, chc, 4);
    var a6 := a5 + |LE(chc, 4)|;
    AtSplits(b, a6, LE(s, 8), t8);
    ReadIntAt(b, a6, s, 8);
    var a7 := a6 + |LE(s, 8)|;
    AtSplits(b, a7, LE(e, 8), t9);
    ReadIntAt(b, a7, e, 8);
    var a8 := a7 + |LE(e, 8)|;
    ReadNumMapAt(b, a8, m, 2);
  }

  lemma MetadataReadsBack(r: Record)
    requires r.Metadata? && r.Fits()
    ensures ReadMetadata(Body(r)) == Parsed(r, |Body(r)|)
  {
    hide LE, FromLE, Pow256, At, ReadInt, ReadPrefixed, ReadWord, ReadByte, ReadStrMap, ReadNumMap, FitsMap, FitsIntMap,
         StrMap, NumMap, Str, WordBytes;
    var Metadata(n, m) := r;
    var b := Body(r);
    var t2 := StrMap(m);
    var t1 := Str(n) + t2;
    Powers();
    AtWhole(b);
    AtSplits(b, 0, Str(n), t2);
    ReadStrAt(b, 0, n);
    var a1 := |Str(n)|;
    ReadStrMapAt(b, a1, m);
  }

  lemma MetadataIndexReadsBack(r: Record)
    requires r.MetadataIndex? && r.Fits()
    ensures ReadMetadataIndex(Body(r)) == Parsed(r, |Body(r)|)
  {
    hide LE, FromLE, Pow256, At, ReadInt, ReadPrefixed, ReadWord, ReadByte, ReadStrMap, ReadNumMap, FitsMap, FitsIntMap,
         StrMap, NumMap, Str, WordBytes;
    var MetadataIndex(o, l, n) := r;
    var b := Body(r);
    var t3 := Str(n);
    var t2 := LE(l, 8) + t3;
    var t1 := LE(o, 8) + t2;
    Powers();
    AtWhole(b);
    AtSplits(b, 0, LE(o, 8), t2);
    ReadIntAt(b, 0, o, 8);
    var a1 := |LE(o, 8)|;
    AtSplits(b, a1, LE(l, 8), t3);
    ReadIntAt(b, a1, l, 8);
    var a2 := a1 + |LE(l, 8)|;
    ReadStrAt(b, a2, n);
  }

  lemma SummaryOffsetReadsBack(r: Record)
    requires r.SummaryOffset? && r.Fits()
    ensures ReadSummaryOffset(Body(r)) == Parsed(r, |Body(r)|)
  {
    hide LE, FromLE, Pow256, At, ReadInt, ReadPrefixed, ReadWord, ReadByte, ReadStrMap, ReadNumMap, FitsMap, FitsIntMap,
         StrMap, NumMap, Str, WordBytes;
    var SummaryOffset(g, s, l) := r;
    var b := Body(r);
    var t3 := LE(l, 8);
    var t2 := LE(s, 8) + t3;
    var t1 := [g] + t2;
    Powers();
    AtWhole(b);
    AtSplits(b, 0, [g], t2);
    ReadByteAt(b, 0, g);
    var a1 := |[g]|;
    AtSplits(b, a1, LE(s, 8), t3);
    ReadIntAt(b, a1, s, 8);
    var a2 := a1 + |LE(s, 8)|;
    ReadIntAt(b, a2, l, 8);
  }

  lemma DataEndReadsBack(r: Record)
    requires r.DataEnd? && r.Fits()
    ensures ReadDataEnd(Body(r)) == Parsed(r, |Body(r)|)
  {
    hide LE, FromLE, Pow256, At, ReadInt, ReadPrefixed, ReadWord, ReadByte, ReadStrMap, ReadNumMap, FitsMap, FitsIntMap,
         StrMap, NumMap, Str, WordBytes;
    var DataEnd(c) := r;
    var b := Body(r);
    var t1 := WordBytes(c);
    Powers();
    AtWhole(b);
    ReadWordAt(b, 0, c);
  }

  lemma AttachmentFieldsReadBack(b: bytes, l: nat, c: nat, n: bytes, m: bytes, d: bytes)
    requires Attachment(l, c, n, m, d).Fits()
    requires At(b, 0, AttachmentFields(l, c, n, m, d))
    ensures var a1 := 8; var a2 := 16; var a3 := a2 + |Str(n)|; var a4 := a3 + |Str(m)|;
            ReadInt(b, 0, 8) == Parsed(l, a1) && ReadInt(b, a1, 8) == Parsed(c, a2) &&
            ReadPrefixed(b, a2, 4) == Parsed(n, a3) && ReadPrefixed(b, a3, 4) == Parsed(m, a4) &&
            ReadPrefixed(b, a4, 8) == Parsed(d, |AttachmentFields(l, c, n, m, d)|)
  {
    hide LE, FromLE, Pow256, At, ReadInt, ReadPrefixed, Str;
    var t5 := LE(|d|, 8) + d;
    var t4 := Str(m) + t5;
    var t3 := Str(n) + t4;
    var t2 := LE(c, 8) + t3;
    Powers();
    AtSplits(b, 0, LE(l, 8), t2);
    ReadIntAt(b, 0, l, 8);
    AtSplits(b, 8, LE(c, 8), t3);
    ReadIntAt(b, 8, c, 8);
    AtSplits(b, 16, Str(n), t4);
    ReadStrAt(b, 16, n);
    AtSplits(b, 16 + |Str(n)|, Str(m), t5);
    ReadStrAt(b, 16 + |Str(n)|, m);
    ReadPrefixedAt(b, 16 + |Str(n)| + |Str(m)|, d, 8);
  }

  lemma AttachmentReadsBack(r: Record)
    requires r.Attachment? && r.Fits()
    ensures ReadAttachment(Body(r)) == Parsed(r, |Body(r)|)
  {
    hide LE, FromLE, Pow256, At, ReadInt, ReadPrefixed, ReadWord, Str, WordBytes, Checksum, AttachmentFields;
    var Attachment(l, c, n, m, d) := r;
    var fields := AttachmentFields(l, c, n, m, d);
    var crc := WordBytes(Checksum(fields));
    var b := fields + crc;
    AtWhole(b);
    AtSplits(b, 0, fields, crc);
    AttachmentFieldsReadBack(b, l, c, n, m, d);
    ReadWordAt(b, |fields|, Checksum(fields));
    assert b[..|fields|] == fields;
  }

  /** Reading the fields of any record gives the record back. */
  lemma DecodesBack(r: Record)
    requires r.Fits()
    ensures Decode(r.Opcode(), Body(r)) == Known(r)
  {
    hide Body, ReadHeader, ReadFooter, ReadSchema, ReadChannel, ReadMessage, ReadChunk, ReadMessageIndex, ReadChunkIndex,
         ReadAttachment, ReadAttachmentIndex, ReadStatistics, ReadMetadata, ReadMetadataIndex, ReadSummaryOffset, ReadDataEnd,
         FitsMap, FitsIntMap;
    match r
    case Header(_, _) => HeaderReadsBack(r);
    case Footer(_, _, _) => FooterReadsBack(r);
    case Schema(_, _, _, _) => SchemaReadsBack(r);
    case Channel(_, _, _, _, _) => ChannelReadsBack(r);
    case Message(_, _, _, _, _) => MessageReadsBack(r);
    case Chunk(_, _, _, _, _, _) => ChunkReadsBack(r);
    case MessageIndex(_, _) => MessageIndexReadsBack(r);
    case ChunkIndex(_, _, _, _, _, _, _, _, _) => ChunkIndexReadsBack(r);
    case Attachment(_, _, _, _, _) => AttachmentReadsBack(r);
    case AttachmentIndex(_, _, _, _, _, _, _) => AttachmentIndexReadsBack(r);
    case Statistics(_, _, _, _, _, _, _, _, _) => StatisticsReadsBack(r);
    case Metadata(_, _) => MetadataReadsBack(r);
    case MetadataIndex(_, _, _) => MetadataIndexReadsBack(r);
    case SummaryOffset(_, _, _) => SummaryOffsetReadsBack(r);
    case DataEnd(_) => DataEndReadsBack(r);
  }
}
