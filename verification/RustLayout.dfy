/** What the Rust writer's data section says, as a list of items, and the bytes and
    indexes that list stands for. Nothing here knows how the writer produces them: there
    is no cursor, no placeholder and no running checksum. */
module RustLayout {
  import opened Bytes
  import opened Crc
  import opened Format
  import opened Records
  import opened RustIo

  // ---------- options ----------

  /** A compression scheme. `emitted` is what the encoder has put out after being fed some
      bytes, `finished` what it has put out once it is closed, `expand` the decoder. */
  datatype Codec = Codec(name: bytes, emitted: bytes -> bytes, finished: bytes -> bytes, expand: bytes -> Option<bytes>)

  /** Encoders only append, and the decoder undoes them. */
  ghost predicate Sound(c: Codec) {
    && (forall raw: bytes, more: bytes :: c.emitted(raw) <= c.emitted(raw + more))
    && (forall raw: bytes :: c.emitted(raw) <= c.finished(raw))
    && (forall raw: bytes :: c.expand(c.finished(raw)) == Some(raw))
  }

  datatype Options = Options(
    codec: Codec,
    profile: bytes,
    library: bytes,
    chunkSize: Option<nat>,
    useChunks: bool,
    disableSeeking: bool,
    emitStatistics: bool,
    emitSummaryOffsets: bool,
    emitMessageIndexes: bool,
    emitChunkIndexes: bool,
    emitAttachmentIndexes: bool,
    emitMetadataIndexes: bool,
    repeatChannels: bool,
    repeatSchemas: bool,
    chunkCrcs: bool,
    dataCrc: bool,
    summaryCrc: bool,
    attachmentCrcs: bool)

  // ---------- entries and items ----------

  /** A record written as it is: one of the format's types, or a private one. */
  datatype Entry = Typed(record: Record) | Private(opcode: byte, data: bytes)

  function EntryOp(e: Entry): byte {
    match e
    case Typed(r) => r.Opcode()
    case Private(op, _) => op
  }

  function EntryBody(e: Entry): bytes {
    match e
    case Typed(r) => Body(r)
    case Private(_, data) => data
  }

  function EntryBytes(e: Entry): bytes {
    Framed(EntryOp(e), EntryBody(e))
  }

  predicate IsMessage(e: Entry) {
    e.Typed? && e.record.Message?
  }

  /** What stands in the data section: a record of its own, a chunk of records with the
      message indexes behind it, or an attachment. */
  datatype Item =
    | Lone(entry: Entry)
    | ChunkOf(entries: seq<Entry>)
    | AttachmentOf(header: AttachmentHeader, content: bytes)

  datatype AttachmentHeader = AttachmentHeader(logTime: nat, createTime: nat, name: bytes, mediaType: bytes)

  // ---------- the content of a chunk ----------

  /** The uncompressed bytes of a list of records. */
  function Raw(es: seq<Entry>): bytes
    decreases |es|
  {
    if es == [] then [] else Raw(es[..|es| - 1]) + EntryBytes(es[|es| - 1])
  }

  type Bounds = Option<(nat, nat)>

  /** Earliest and latest log time, after one more message. */
  function Widened(b: Bounds, time: nat): Bounds {
    if b.None? then Some((time, time))
    else Some((if time < b.value.0 then time else b.value.0, if time > b.value.1 then time else b.value.1))
  }

  function BoundsOf(es: seq<Entry>): Bounds
    decreases |es|
  {
    if es == [] then None
    else
      var last := es[|es| - 1];
      var before := BoundsOf(es[..|es| - 1]);
      if IsMessage(last) then Widened(before, last.record.logTime) else before
  }

  type IndexMap = map<nat, IntMap>

  /** One more message for a channel's index. */
  function Indexed(ix: IndexMap, channel: nat, time: nat, offset: nat): IndexMap {
    ix[channel := (if channel in ix then ix[channel] else []) + [(time, offset)]]
  }

  /** For every channel the log times and offsets of its messages, in order. */
  function IndexOf(es: seq<Entry>): IndexMap
    decreases |es|
  {
    if es == [] then map[]
    else
      var last := es[|es| - 1];
      var before := IndexOf(es[..|es| - 1]);
      if IsMessage(last) then Indexed(before, last.record.messageChannel, last.record.logTime, |Raw(es[..|es| - 1])|)
      else before
  }

  // ---------- ascending keys ----------

  /** The members of `s` below `n`, ascending, the order in which a B-tree map is visited. */
  function AscendingBelow(s: set<nat>, n: nat): (r: seq<nat>)
    ensures forall k :: k in r <==> k in s && k < n
    ensures forall i, j :: 0 <= i < j < |r| ==> r[i] < r[j]
  {
    if n == 0 then []
    else
      var below := AscendingBelow(s, n - 1);
      assert forall i | 0 <= i < |below| :: below[i] in below;
      if n - 1 in s then below + [n - 1] else below
  }

  /** The 16-bit keys in `s`, ascending. */
  function Ascending(s: set<nat>): (r: seq<nat>)
    ensures forall k :: k in r <==> k in s && k < U16
    ensures forall i, j :: 0 <= i < j < |r| ==> r[i] < r[j]
  {
    AscendingBelow(s, U16)
  }

  // ---------- the message indexes behind a chunk ----------

  function IndexRecord(ix: IndexMap, channel: nat): Entry {
    Typed(MessageIndex(channel, if channel in ix then ix[channel] else []))
  }

  /** The message indexes of the listed channels. */
  function IndexBytes(ix: IndexMap, channels: seq<nat>): bytes
    decreases |channels|
  {
    if channels == [] then []
    else
      var n := |channels| - 1;
      IndexBytes(ix, channels[..n]) + EntryBytes(IndexRecord(ix, channels[n]))
  }

  /** Where the message index of each listed channel starts, the first one at `base`. */
  function IndexOffsets(ix: IndexMap, channels: seq<nat>, base: nat): IntMap
    decreases |channels|
  {
    if channels == [] then []
    else
      var n := |channels| - 1;
      IndexOffsets(ix, channels[..n], base) + [(channels[n], base + |IndexBytes(ix, channels[..n])|)]
  }

  // ---------- the layout of an item ----------

  /** The indexes a chunk gets: those of its messages, or none. */
  function ChunkIndexes(o: Options, es: seq<Entry>): IndexMap {
    if o.emitMessageIndexes then IndexOf(es) else map[]
  }

  function StartTime(b: Bounds): nat {
    if b.None? then 0 else b.value.0
  }

  function EndTime(b: Bounds): nat {
    if b.None? then 0 else b.value.1
  }

  function ChunkRecord(o: Options, es: seq<Entry>): Record {
    var b := BoundsOf(es);
    Chunk(StartTime(b), EndTime(b), |Raw(es)|, if o.chunkCrcs then Checksum(Raw(es)) else 0, o.codec.name,
          o.codec.finished(Raw(es)))
  }

  function ChunkBytes(o: Options, es: seq<Entry>): bytes {
    Encode(ChunkRecord(o, es))
  }

  /** The message indexes behind a chunk. */
  function Trailer(o: Options, es: seq<Entry>): bytes {
    var ix := ChunkIndexes(o, es);
    IndexBytes(ix, Ascending(ix.Keys))
  }

  /** The chunk index of a chunk that starts at `offset`. */
  function ChunkIndexFor(o: Options, es: seq<Entry>, offset: nat): Record {
    var b, ix := BoundsOf(es), ChunkIndexes(o, es);
    var length := |ChunkBytes(o, es)|;
    ChunkIndex(StartTime(b), EndTime(b), offset, length, IndexOffsets(ix, Ascending(ix.Keys), offset + length),
               |Trailer(o, es)|, o.codec.name, |o.codec.finished(Raw(es))|, |Raw(es)|)
  }

  /** The part of an attachment before its data; all of it but the first nine bytes is
      covered by the attachment's checksum. */
  function AttachmentStart(h: AttachmentHeader, length: nat): bytes {
    LE(h.logTime, 8) + LE(h.createTime, 8) + Str(h.name) + Str(h.mediaType) + LE(length, 8)
  }

  function AttachmentCrc(o: Options, h: AttachmentHeader, data: bytes): bv32 {
    if o.attachmentCrcs then Checksum(AttachmentStart(h, |data|) + data) else 0
  }

  function AttachmentBytes(o: Options, h: AttachmentHeader, data: bytes): bytes {
    Framed(OP_ATTACHMENT, AttachmentStart(h, |data|) + data + WordBytes(AttachmentCrc(o, h, data)))
  }

  function AttachmentIndexFor(o: Options, h: AttachmentHeader, data: bytes, offset: nat): Record {
    AttachmentIndex(offset, |AttachmentBytes(o, h, data)|, h.logTime, h.createTime, |data|, h.name, h.mediaType)
  }

  function ItemBytes(o: Options, item: Item): bytes {
    match item
    case Lone(e) => EntryBytes(e)
    case ChunkOf(es) => ChunkBytes(o, es) + Trailer(o, es)
    case AttachmentOf(h, data) => AttachmentBytes(o, h, data)
  }

  /** The file from its magic through the listed items. */
  function Layout(o: Options, items: seq<Item>): bytes
    decreases |items|
  {
    if items == [] then MAGIC else Layout(o, items[..|items| - 1]) + ItemBytes(o, items[|items| - 1])
  }

  // ---------- the indexes and counts of a list of items ----------

  function ChunkIndexList(o: Options, items: seq<Item>): seq<Record>
    decreases |items|
  {
    if items == [] then []
    else
      var before, last := items[..|items| - 1], items[|items| - 1];
      ChunkIndexList(o, before) +
      (if last.ChunkOf? then [ChunkIndexFor(o, last.entries, |Layout(o, before)|)] else [])
  }

  function AttachmentIndexList(o: Options, items: seq<Item>): seq<Record>
    decreases |items|
  {
    if items == [] then []
    else
      var before, last := items[..|items| - 1], items[|items| - 1];
      AttachmentIndexList(o, before) +
      (if last.AttachmentOf? then [AttachmentIndexFor(o, last.header, last.content, |Layout(o, before)|)] else [])
  }

  predicate IsMetadata(item: Item) {
    item.Lone? && item.entry.Typed? && item.entry.record.Metadata?
  }

  function MetadataIndexFor(e: Entry, offset: nat): Record
    requires e.Typed? && e.record.Metadata?
  {
    MetadataIndex(offset, |EntryBytes(e)|, e.record.metadataName)
  }

  function MetadataIndexList(o: Options, items: seq<Item>): seq<Record>
    decreases |items|
  {
    if items == [] then []
    else
      var before, last := items[..|items| - 1], items[|items| - 1];
      MetadataIndexList(o, before) +
      (if IsMetadata(last) then [MetadataIndexFor(last.entry, |Layout(o, before)|)] else [])
  }

  // ---------- the header of a chunk ----------

  /** A chunk record up to its data. */
  function ChunkHeader(length: nat, start: nat, end: nat, size: nat, crc: bv32, name: bytes, compressed: nat): bytes {
    [OP_CHUNK] + (LE(length, 8) + (LE(start, 8) + (LE(end, 8) + (LE(size, 8) + (WordBytes(crc) + (Str(name) +
    LE(compressed, 8)))))))
  }

  lemma ChunkHeaderLength(length: nat, start: nat, end: nat, size: nat, crc: bv32, name: bytes, compressed: nat)
    ensures |ChunkHeader(length, start, end, size, crc, name, compressed)| == 49 + |name|
  {
    hide LE, WordBytes;
  }

  lemma JoinAssociates(a: bytes, b: bytes, c: bytes)
    ensures a + (b + c) == (a + b) + c
  {
  }

  /** A chunk record is its header and its data, and its length field covers the rest of
      the header and the data. */
  lemma ChunkIsHeaderAndData(start: nat, end: nat, size: nat, crc: bv32, name: bytes, data: bytes)
    ensures var header := ChunkHeader(40 + |name| + |data|, start, end, size, crc, name, |data|);
            Encode(Chunk(start, end, size, crc, name, data)) == header + data
  {
    hide LE, WordBytes, Str;
    var r := Chunk(start, end, size, crc, name, data);
    var n := LE(|data|, 8);
    var c := Str(name);
    var x := WordBytes(crc);
    var u := LE(size, 8);
    var e := LE(end, 8);
    var s := LE(start, 8);
    var fields := s + (e + (u + (x + (c + n))));
    assert Body(r) == fields + data by {
      JoinAssociates(c, n, data);
      JoinAssociates(x, c + n, data);
      JoinAssociates(u, x + (c + n), data);
      JoinAssociates(e, u + (x + (c + n)), data);
      JoinAssociates(s, e + (u + (x + (c + n))), data);
    }
    StrLength(name);
    var l := LE(|Body(r)|, 8);
    assert |Body(r)| == 40 + |name| + |data|;
    JoinAssociates(l, fields, data);
    JoinAssociates([OP_CHUNK], l + fields, data);
  }

  lemma StrLength(s: bytes)
    ensures |Str(s)| == 4 + |s|
  {
    hide LE;
  }

  /** The header written before the real values are known. */
  function Placeholder(o: Options): bytes {
    ChunkHeader(U64 - 1, 0, 0, U64 - 1, ALL_ONES, o.codec.name, U64 - 1)
  }

  /** The header written over the placeholder. */
  function FinalHeader(o: Options, es: seq<Entry>): bytes {
    var b, data := BoundsOf(es), o.codec.finished(Raw(es));
    ChunkHeader(40 + |o.codec.name| + |data|, StartTime(b), EndTime(b), |Raw(es)|,
                if o.chunkCrcs then Checksum(Raw(es)) else 0, o.codec.name, |data|)
  }

  lemma HeaderFillsPlaceholder(o: Options, es: seq<Entry>)
    ensures |Placeholder(o)| == |FinalHeader(o, es)| == 49 + |o.codec.name|
    ensures ChunkBytes(o, es) == FinalHeader(o, es) + o.codec.finished(Raw(es))
  {
    hide ChunkHeader, Encode, Checksum, Raw, BoundsOf;
    var b, data := BoundsOf(es), o.codec.finished(Raw(es));
    var crc := if o.chunkCrcs then Checksum(Raw(es)) else 0;
    ChunkHeaderLength(U64 - 1, 0, 0, U64 - 1, ALL_ONES, o.codec.name, U64 - 1);
    ChunkHeaderLength(40 + |o.codec.name| + |data|, StartTime(b), EndTime(b), |Raw(es)|, crc, o.codec.name, |data|);
    ChunkIsHeaderAndData(StartTime(b), EndTime(b), |Raw(es)|, crc, o.codec.name, data);
  }

  // ---------- unfolding from the back ----------

  lemma RawMore(es: seq<Entry>, e: Entry)
    ensures Raw(es + [e]) == Raw(es) + EntryBytes(e)
  {
    assert (es + [e])[..|es|] == es;
  }

  lemma BoundsMore(es: seq<Entry>, e: Entry)
    ensures BoundsOf(es + [e]) == if IsMessage(e) then Widened(BoundsOf(es), e.record.logTime) else BoundsOf(es)
  {
    assert (es + [e])[..|es|] == es;
  }

  lemma IndexMore(es: seq<Entry>, e: Entry)
    ensures IndexOf(es + [e]) == if IsMessage(e) then Indexed(IndexOf(es), e.record.messageChannel, e.record.logTime, |Raw(es)|)
                                 else IndexOf(es)
  {
    assert (es + [e])[..|es|] == es;
  }

  lemma IndexBytesMore(ix: IndexMap, channels: seq<nat>, n: nat)
    requires n < |channels|
    ensures IndexBytes(ix, channels[..n + 1]) == IndexBytes(ix, channels[..n]) + EntryBytes(IndexRecord(ix, channels[n]))
  {
    hide EntryBytes, IndexRecord;
    assert channels[..n + 1][..n] == channels[..n];
  }

  lemma IndexOffsetsMore(ix: IndexMap, channels: seq<nat>, base: nat, n: nat)
    requires n < |channels|
    ensures IndexOffsets(ix, channels[..n + 1], base) ==
            IndexOffsets(ix, channels[..n], base) + [(channels[n], base + |IndexBytes(ix, channels[..n])|)]
  {
    hide IndexBytes;
    assert channels[..n + 1][..n] == channels[..n];
  }

  lemma LayoutMore(o: Options, items: seq<Item>, item: Item)
    ensures Layout(o, items + [item]) == Layout(o, items) + ItemBytes(o, item)
    ensures ChunkIndexList(o, items + [item]) == ChunkIndexList(o, items) +
            (if item.ChunkOf? then [ChunkIndexFor(o, item.entries, |Layout(o, items)|)] else [])
    ensures AttachmentIndexList(o, items + [item]) == AttachmentIndexList(o, items) +
            (if item.AttachmentOf? then [AttachmentIndexFor(o, item.header, item.content, |Layout(o, items)|)] else [])
    ensures MetadataIndexList(o, items + [item]) == MetadataIndexList(o, items) +
            (if IsMetadata(item) then [MetadataIndexFor(item.entry, |Layout(o, items)|)] else [])
  {
    hide ItemBytes, ChunkIndexFor, AttachmentIndexFor, MetadataIndexFor;
    assert (items + [item])[..|items|] == items;
  }

  // ---------- what the running checksum covers ----------

  /** The bytes of an item that reach the running checksum: those of a chunk's data only
      if chunk checksums are calculated. */
  function HashedBytes(o: Options, item: Item): bytes {
    if item.ChunkOf? && !o.chunkCrcs then FinalHeader(o, item.entries) + Trailer(o, item.entries)
    else ItemBytes(o, item)
  }

  function Hashed(o: Options, items: seq<Item>): bytes
    decreases |items|
  {
    if items == [] then MAGIC else Hashed(o, items[..|items| - 1]) + HashedBytes(o, items[|items| - 1])
  }

  lemma HashedMore(o: Options, items: seq<Item>, item: Item)
    ensures Hashed(o, items + [item]) == Hashed(o, items) + HashedBytes(o, item)
  {
    hide HashedBytes;
    assert (items + [item])[..|items|] == items;
  }

  /** The running checksum covers the whole file when chunk checksums are calculated or
      nothing is chunked. */
  lemma {:induction false} HashedIsLayout(o: Options, items: seq<Item>)
    requires o.chunkCrcs || forall i :: i in items ==> !i.ChunkOf?
    ensures Hashed(o, items) == Layout(o, items)
    decreases |items|
  {
    hide ItemBytes, FinalHeader, Trailer;
    if items != [] {
      HashedIsLayout(o, items[..|items| - 1]);
    }
  }
}
