/** The Rust readers that jump by index, and that every index the writer emits takes them to
    exactly what it describes. */
module RustRead {
  import opened Bytes
  import opened Crc
  import opened Format
  import opened Records
  import opened RustLayout

  datatype ReadError = BadIndex | BadRecord | UnknownChannel | UnexpectedEnd

  datatype Read<+T> = Got(value: T) | Failed(error: ReadError)

  /** Opcode, body and end of the record at a position, if it is all there. */
  datatype Frame = NoFrame | Frame(op: byte, body: bytes, next: nat)

  function FrameAt(buf: bytes, at: nat): (f: Frame)
    ensures f.Frame? ==> at + 9 <= f.next <= |buf|
  {
    if at + 9 > |buf| then NoFrame
    else
      var length := FromLE(buf[at + 1..at + 9]);
      if at + 9 + length > |buf| then NoFrame else Frame(buf[at], buf[at + 9..at + 9 + length], at + 9 + length)
  }

  /** A record that stands at a position is found there. */
  lemma FrameIsFound(buf: bytes, at: nat, op: byte, body: bytes)
    requires At(buf, at, Framed(op, body)) && |body| < U64
    ensures FrameAt(buf, at) == Frame(op, body, at + 9 + |body|)
  {
    hide LE, FromLE, Pow256;
    var piece := Framed(op, body);
    AtSplits(buf, at, [op], LE(|body|, 8) + body);
    AtSplits(buf, at + 1, LE(|body|, 8), body);
    Powers();
    FromLEFits(|body|, 8);
    assert buf[at + 1..at + 9] == LE(|body|, 8);
    assert buf[at..at + 1][0] == op;
  }

  // ---------- seeking a message ----------

  /** What a walk over uncompressed records finds at an offset. */
  function Walk(data: bytes, at: nat, target: nat): (r: Read<Record>)
    ensures r.Got? ==> r.value.Message?
    decreases |data| - at
  {
    var f := FrameAt(data, at);
    if f.NoFrame? then Failed(BadIndex)
    else if at < target then Walk(data, f.next, target)
    else if at != target then Failed(BadIndex)
    else
      match Decode(f.op, f.body)
      case Known(r) => if r.Message? then Got(r) else Failed(BadIndex)
      case Broken => Failed(BadRecord)
      case Unknown => Failed(BadIndex)
  }

  /** The chunk an index points at; only its body is looked at. */
  function ChunkAt(mcap: bytes, index: ChunkIndexRecord): Read<Record> {
    var end := index.chunkOffset + index.chunkLength;
    if |mcap| < end || index.chunkOffset + 9 > end then Failed(BadIndex)
    else
      match Decode(OP_CHUNK, mcap[index.chunkOffset + 9..end])
      case Known(r) => if r.Chunk? then Got(r) else Failed(BadIndex)
      case _ => Failed(BadRecord)
  }

  /** A message whose channel the summary knows. */
  function OfKnownChannel(r: Read<Record>, known: set<nat>): Read<Record> {
    if r.Got? && r.value.Message? && r.value.messageChannel !in known then Failed(UnknownChannel) else r
  }

  /** `Summary::seek_message`; the message stands for itself and its channel. */
  function Sought(c: Codec, mcap: bytes, known: set<nat>, index: ChunkIndexRecord, target: nat): Read<Record> {
    match ChunkAt(mcap, index)
    case Failed(e) => Failed(e)
    case Got(chunk) =>
      if !chunk.Chunk? then Failed(BadIndex)
      else
        var data := c.expand(chunk.records);
        if data.None? then Failed(BadRecord) else OfKnownChannel(Walk(data.value, 0, target), known)
  }

  /** The loop of `seek_message`, with its running offset. */
  method SeekMessage(c: Codec, mcap: bytes, known: set<nat>, index: ChunkIndexRecord, target: nat) returns (r: Read<Record>)
    ensures r == Sought(c, mcap, known, index, target)
  {
    var chunk := ChunkAt(mcap, index);
    if chunk.Failed? {
      return Failed(chunk.error);
    }
    if !chunk.value.Chunk? {
      return Failed(BadIndex);
    }
    var expanded := c.expand(chunk.value.records);
    if expanded.None? {
      return Failed(BadRecord);
    }
    var data, offset := expanded.value, 0;
    while true
      invariant Walk(data, offset, target) == Walk(data, 0, target)
      decreases |data| - offset
    {
      var f := FrameAt(data, offset);
      if f.NoFrame? {
        return Failed(BadIndex);
      }
      if offset < target {
        offset := f.next;
      } else {
        if offset != target {
          return Failed(BadIndex);
        }
        var d := Decode(f.op, f.body);
        if d.Broken? {
          return Failed(BadRecord);
        }
        if d.Known? && d.record.Message? {
          return if d.record.messageChannel in known then Got(d.record) else Failed(UnknownChannel);
        }
        return Failed(BadIndex);
      }
    }
  }

  // ---------- entries are boundaries ----------

  /** Every record's bytes stand in the chunk's data where the records before it end. */
  lemma {:induction false} EntryStands(es: seq<Entry>, i: nat)
    requires i < |es|
    ensures At(Raw(es), |Raw(es[..i])|, EntryBytes(es[i]))
    ensures |Raw(es[..i])| + |EntryBytes(es[i])| == |Raw(es[..i + 1])| <= |Raw(es)|
    decreases |es|
  {
    hide EntryBytes, At;
    var n := |es| - 1;
    RawMore(es[..i], es[i]);
    assert es[..i] + [es[i]] == es[..i + 1];
    assert es == es[..n] + [es[n]];
    RawMore(es[..n], es[n]);
    if i < n {
      EntryStands(es[..n], i);
      assert es[..n][..i] == es[..i] && es[..n][..i + 1] == es[..i + 1];
      AtPrefix(Raw(es[..n]), EntryBytes(es[n]), |Raw(es[..i])|, EntryBytes(es[i]));
    } else {
      assert es[..i + 1] == es;
      AtLast(Raw(es[..n]), EntryBytes(es[n]));
    }
  }

  lemma AtPrefix(buf: bytes, more: bytes, at: nat, piece: bytes)
    requires At(buf, at, piece)
    ensures At(buf + more, at, piece)
  {
    assert (buf + more)[at..at + |piece|] == buf[at..at + |piece|];
  }

  lemma AtLast(before: bytes, piece: bytes)
    ensures At(before + piece, |before|, piece)
  {
  }

  /** Bodies fit their 64-bit length field. */
  ghost predicate BodiesFit(es: seq<Entry>) {
    forall i :: 0 <= i < |es| ==> |EntryBody(es[i])| < U64
  }

  lemma EntryFrame(es: seq<Entry>, i: nat)
    requires i < |es| && BodiesFit(es)
    ensures FrameAt(Raw(es), |Raw(es[..i])|) == Frame(EntryOp(es[i]), EntryBody(es[i]), |Raw(es[..i + 1])|)
    ensures |Raw(es[..i])| < |Raw(es[..i + 1])|
  {
    hide Raw, At, Framed, FrameAt, EntryOp, EntryBody;
    EntryStands(es, i);
    FrameIsFound(Raw(es), |Raw(es[..i])|, EntryOp(es[i]), EntryBody(es[i]));
    FramedLength(EntryOp(es[i]), EntryBody(es[i]));
  }

  lemma FramedLength(op: byte, body: bytes)
    ensures |Framed(op, body)| == 9 + |body|
  {
    hide LE;
  }

  lemma {:induction false} RawGrows(es: seq<Entry>, i: nat, j: nat)
    requires i <= j <= |es|
    ensures |Raw(es[..i])| <= |Raw(es[..j])|
    ensures i < j ==> |Raw(es[..i])| < |Raw(es[..j])|
    decreases j - i
  {
    hide EntryBytes;
    if i < j {
      RawGrows(es, i, j - 1);
      RawMore(es[..j - 1], es[j - 1]);
      assert es[..j - 1] + [es[j - 1]] == es[..j];
      FramedLength(EntryOp(es[j - 1]), EntryBody(es[j - 1]));
      EntryBytesLength(es[j - 1]);
    }
  }

  lemma EntryBytesLength(e: Entry)
    ensures |EntryBytes(e)| == 9 + |EntryBody(e)|
  {
    hide EntryOp, EntryBody;
    FramedLength(EntryOp(e), EntryBody(e));
  }

  /** Walking from any record reaches any later one. */
  lemma {:induction false} WalkReaches(es: seq<Entry>, i: nat, j: nat)
    requires i <= j < |es| && BodiesFit(es) && es[j].Typed? && es[j].record.Message? && es[j].record.Fits()
    ensures Walk(Raw(es), |Raw(es[..i])|, |Raw(es[..j])|) == Got(es[j].record)
    decreases j - i
  {
    hide Raw, FrameAt, Decode, BodiesFit, EntryBytes;
    EntryFrame(es, i);
    if i < j {
      RawGrows(es, i, j);
      WalkReaches(es, i + 1, j);
    } else {
      DecodesBack(es[j].record);
    }
  }

  // ---------- message indexes ----------

  /** Everything a channel's index lists is a message of that channel, at the offset where it
      starts and with its log time. */
  lemma {:induction false} IndexedIsMessage(es: seq<Entry>, channel: nat, k: nat) returns (j: nat)
    requires channel in IndexOf(es) && k < |IndexOf(es)[channel]|
    ensures j < |es| && IsMessage(es[j]) && es[j].record.messageChannel == channel
    ensures IndexOf(es)[channel][k] == (es[j].record.logTime, |Raw(es[..j])|)
    decreases |es|
  {
    hide Raw;
    var n := |es| - 1;
    var before, last := es[..n], es[n];
    if IsMessage(last) && last.record.messageChannel == channel &&
       (channel !in IndexOf(before) || k == |IndexOf(before)[channel]|) {
      j := n;
    } else {
      j := IndexedIsMessage(before, channel, k);
      assert before[..j] == es[..j];
    }
  }

  /** Every message is listed. */
  lemma {:induction false} MessageIsIndexed(es: seq<Entry>, j: nat)
    requires j < |es| && IsMessage(es[j])
    ensures es[j].record.messageChannel in IndexOf(es)
    ensures (es[j].record.logTime, |Raw(es[..j])|) in IndexOf(es)[es[j].record.messageChannel]
    decreases |es|
  {
    hide Raw;
    var n := |es| - 1;
    var before, last := es[..n], es[n];
    if j < n {
      MessageIsIndexed(before, j);
      assert before[..j] == es[..j];
    }
  }

  /** The message index of a listed channel stands where the chunk index says. */
  lemma {:induction false} IndexStands(ix: IndexMap, channels: seq<nat>, base: nat, k: nat)
    requires k < |channels|
    ensures |IndexOffsets(ix, channels, base)| == |channels|
    ensures var (channel, offset) := IndexOffsets(ix, channels, base)[k];
            channel == channels[k] && base <= offset &&
            At(IndexBytes(ix, channels), offset - base, EntryBytes(IndexRecord(ix, channel)))
    decreases |channels|
  {
    hide EntryBytes, At, IndexRecord;
    var n := |channels| - 1;
    OffsetsLength(ix, channels, base);
    OffsetsLength(ix, channels[..n], base);
    if k < n {
      IndexStands(ix, channels[..n], base, k);
      AtPrefix(IndexBytes(ix, channels[..n]), EntryBytes(IndexRecord(ix, channels[n])),
               IndexOffsets(ix, channels[..n], base)[k].1 - base, EntryBytes(IndexRecord(ix, channels[k])));
    } else {
      AtLast(IndexBytes(ix, channels[..n]), EntryBytes(IndexRecord(ix, channels[n])));
    }
  }

  lemma {:induction false} OffsetsLength(ix: IndexMap, channels: seq<nat>, base: nat)
    ensures |IndexOffsets(ix, channels, base)| == |channels|
    decreases |channels|
  {
    hide IndexBytes;
    if channels != [] {
      OffsetsLength(ix, channels[..|channels| - 1], base);
    }
  }

  // ---------- items in the file ----------

  /** Every item stands in the file where the items before it end. */
  lemma {:induction false} ItemStands(o: Options, items: seq<Item>, i: nat)
    requires i < |items|
    ensures At(Layout(o, items), |Layout(o, items[..i])|, ItemBytes(o, items[i]))
    decreases |items|
  {
    hide ItemBytes, At;
    var n := |items| - 1;
    if i < n {
      ItemStands(o, items[..n], i);
      assert items[..n][..i] == items[..i];
      AtPrefix(Layout(o, items[..n]), ItemBytes(o, items[n]), |Layout(o, items[..i])|, ItemBytes(o, items[i]));
    } else {
      AtLast(Layout(o, items[..n]), ItemBytes(o, items[n]));
    }
  }

  /** Every chunk index belongs to a chunk. */
  lemma {:induction false} ChunkIndexPoints(o: Options, items: seq<Item>, k: nat) returns (i: nat)
    requires k < |ChunkIndexList(o, items)|
    ensures i < |items| && items[i].ChunkOf?
    ensures ChunkIndexList(o, items)[k] == ChunkIndexFor(o, items[i].entries, |Layout(o, items[..i])|)
    decreases |items|
  {
    hide ChunkIndexFor, Layout;
    var n := |items| - 1;
    if k < |ChunkIndexList(o, items[..n])| {
      i := ChunkIndexPoints(o, items[..n], k);
      assert items[..n][..i] == items[..i];
    } else {
      i := n;
    }
  }

  /** And every chunk has one. */
  lemma {:induction false} ChunkHasIndex(o: Options, items: seq<Item>, i: nat)
    requires i < |items| && items[i].ChunkOf?
    ensures ChunkIndexFor(o, items[i].entries, |Layout(o, items[..i])|) in ChunkIndexList(o, items)
    decreases |items|
  {
    hide ChunkIndexFor, Layout;
    var n := |items| - 1;
    if i < n {
      ChunkHasIndex(o, items[..n], i);
      assert items[..n][..i] == items[..i];
    }
  }

  lemma {:induction false} AttachmentIndexPoints(o: Options, items: seq<Item>, k: nat) returns (i: nat)
    requires k < |AttachmentIndexList(o, items)|
    ensures i < |items| && items[i].AttachmentOf?
    ensures AttachmentIndexList(o, items)[k] ==
            AttachmentIndexFor(o, items[i].header, items[i].content, |Layout(o, items[..i])|)
    decreases |items|
  {
    hide AttachmentIndexFor, Layout;
    var n := |items| - 1;
    if k < |AttachmentIndexList(o, items[..n])| {
      i := AttachmentIndexPoints(o, items[..n], k);
      assert items[..n][..i] == items[..i];
    } else {
      i := n;
    }
  }

  lemma {:induction false} MetadataIndexPoints(o: Options, items: seq<Item>, k: nat) returns (i: nat)
    requires k < |MetadataIndexList(o, items)|
    ensures i < |items| && IsMetadata(items[i])
    ensures MetadataIndexList(o, items)[k] == MetadataIndexFor(items[i].entry, |Layout(o, items[..i])|)
    decreases |items|
  {
    hide MetadataIndexFor, Layout;
    var n := |items| - 1;
    if k < |MetadataIndexList(o, items[..n])| {
      i := MetadataIndexPoints(o, items[..n], k);
      assert items[..n][..i] == items[..i];
    } else {
      i := n;
    }
  }

  // ---------- chunk indexes resolve ----------

  /** A chunk that fits its length fields. */
  ghost predicate ChunkFits(o: Options, es: seq<Entry>) {
    && ChunkRecord(o, es).Fits()
    && |Body(ChunkRecord(o, es))| < U64
    && BodiesFit(es)
    && (forall i :: 0 <= i < |es| && es[i].Typed? ==> es[i].record.Fits())
    && (forall channel :: channel in IndexOf(es) ==> MessageIndex(channel, IndexOf(es)[channel]).Fits() &&
                                                     |Body(MessageIndex(channel, IndexOf(es)[channel]))| < U64)
  }

  lemma ChunkStands(o: Options, items: seq<Item>, rest: bytes, i: nat)
    requires i < |items| && items[i].ChunkOf?
    ensures var mcap, at, es := Layout(o, items) + rest, |Layout(o, items[..i])|, items[i].entries;
            At(mcap, at, ChunkBytes(o, es)) && At(mcap, at + |ChunkBytes(o, es)|, Trailer(o, es))
  {
    hide Layout, At, ChunkBytes, Trailer;
    ItemStands(o, items, i);
    var at := |Layout(o, items[..i])|;
    AtPrefix(Layout(o, items), rest, at, ItemBytes(o, items[i]));
    AtSplits(Layout(o, items) + rest, at, ChunkBytes(o, items[i].entries), Trailer(o, items[i].entries));
  }

  lemma BodyOfFrame(buf: bytes, at: nat, op: byte, body: bytes)
    requires At(buf, at, Framed(op, body))
    ensures at + 9 + |body| <= |buf| && buf[at + 9..at + |Framed(op, body)|] == body
    ensures |Framed(op, body)| == 9 + |body|
  {
    hide LE;
    AtSplits(buf, at, [op], LE(|body|, 8) + body);
    AtSplits(buf, at + 1, LE(|body|, 8), body);
  }

  /** Offset and length of a chunk index cover exactly one chunk record, with the records
      that were written into it. */
  lemma ChunkIndexResolves(o: Options, items: seq<Item>, rest: bytes, i: nat)
    requires i < |items| && items[i].ChunkOf? && ChunkFits(o, items[i].entries)
    ensures var mcap, es := Layout(o, items) + rest, items[i].entries;
            var index := ChunkIndexFor(o, es, |Layout(o, items[..i])|);
            At(mcap, index.chunkOffset, Encode(ChunkRecord(o, es))) &&
            index.chunkLength == |Encode(ChunkRecord(o, es))| &&
            ChunkAt(mcap, index) == Got(ChunkRecord(o, es))
  {
    hide Layout, At, Framed, Decode, Body, Trailer, ChunkRecord, Ascending, IndexOffsets, BoundsOf, Raw;
    var es := items[i].entries;
    ChunkStands(o, items, rest, i);
    ChunkRecordIsChunk(o, es);
    BodyOfFrame(Layout(o, items) + rest, |Layout(o, items[..i])|, OP_CHUNK, Body(ChunkRecord(o, es)));
    DecodesBack(ChunkRecord(o, es));
  }

  lemma ChunkRecordIsChunk(o: Options, es: seq<Entry>)
    ensures ChunkRecord(o, es).Chunk? && ChunkRecord(o, es).Opcode() == OP_CHUNK
    ensures ChunkRecord(o, es).records == o.codec.finished(Raw(es))
  {
  }

  /** Seeking to an index entry returns the message it was made for. */
  lemma SeekFindsMessage(o: Options, items: seq<Item>, rest: bytes, known: set<nat>, i: nat, channel: nat, k: nat)
    requires Sound(o.codec) && i < |items| && items[i].ChunkOf? && ChunkFits(o, items[i].entries) && channel in known
    requires var ix := IndexOf(items[i].entries); channel in ix && k < |ix[channel]|
    ensures var mcap, es := Layout(o, items) + rest, items[i].entries;
            var index := ChunkIndexFor(o, es, |Layout(o, items[..i])|);
            var (time, offset) := IndexOf(es)[channel][k];
            exists j :: 0 <= j < |es| && IsMessage(es[j]) && es[j].record.messageChannel == channel &&
              es[j].record.logTime == time && offset == |Raw(es[..j])| &&
              Sought(o.codec, mcap, known, index, offset) == Got(es[j].record)
  {
    hide Layout, At, Encode, ChunkRecord, IndexOf, Raw, ChunkIndexFor, ChunkAt, Walk, Sound;
    var es := items[i].entries;
    ChunkIndexResolves(o, items, rest, i);
    ChunkRecordIsChunk(o, es);
    ExpandsBack(o.codec, Raw(es));
    var j := IndexedIsMessage(es, channel, k);
    assert es[..0] == [];
    RawEmpty();
    WalkReaches(es, 0, j);
  }

  lemma RawEmpty()
    ensures Raw([]) == []
  {
  }

  lemma ExpandsBack(c: Codec, raw: bytes)
    requires Sound(c)
    ensures c.expand(c.finished(raw)) == Some(raw)
  {
  }

  /** Every message written into a chunk can be sought: its channel's index has an entry that
      leads back to it. */
  lemma EveryMessageIsFound(o: Options, items: seq<Item>, rest: bytes, known: set<nat>, i: nat, j: nat)
    requires Sound(o.codec) && i < |items| && items[i].ChunkOf? && ChunkFits(o, items[i].entries)
    requires j < |items[i].entries| && IsMessage(items[i].entries[j]) && items[i].entries[j].record.messageChannel in known
    ensures var mcap, es := Layout(o, items) + rest, items[i].entries;
            var m := es[j].record;
            var index := ChunkIndexFor(o, es, |Layout(o, items[..i])|);
            m.messageChannel in IndexOf(es) && (m.logTime, |Raw(es[..j])|) in IndexOf(es)[m.messageChannel] &&
            Sought(o.codec, mcap, known, index, |Raw(es[..j])|) == Got(m)
  {
    hide Layout, At, Encode, ChunkRecord, IndexOf, Raw, ChunkIndexFor, ChunkAt, Walk, Sound;
    var es := items[i].entries;
    ChunkIndexResolves(o, items, rest, i);
    ChunkRecordIsChunk(o, es);
    ExpandsBack(o.codec, Raw(es));
    MessageIsIndexed(es, j);
    assert es[..0] == [];
    RawEmpty();
    WalkReaches(es, 0, j);
  }

  // ---------- message indexes resolve ----------

  /** The single record `read_message_indexes` takes from a position: it must be a message
      index of the expected channel. */
  function IndexAt(mcap: bytes, offset: nat, channel: nat): Read<IntMap> {
    if |mcap| < offset + 15 then Failed(BadIndex)
    else
      var f := FrameAt(mcap, offset);
      if f.NoFrame? then Failed(UnexpectedEnd)
      else
        match Decode(f.op, f.body)
        case Known(r) =>
          if !r.MessageIndex? || r.indexChannel != channel then Failed(BadIndex) else Got(r.entries)
        case Broken => Failed(BadRecord)
        case Unknown => Failed(BadIndex)
  }

  /** `read_message_indexes`: the indexes of the listed channels, or the first failure. */
  function IndexesAt(mcap: bytes, known: set<nat>, offsets: IntMap): Read<IndexMap>
    decreases |offsets|
  {
    if offsets == [] then Got(map[])
    else
      var n := |offsets| - 1;
      match IndexesAt(mcap, known, offsets[..n])
      case Failed(e) => Failed(e)
      case Got(before) =>
        var (channel, offset) := offsets[n];
        match IndexAt(mcap, offset, channel)
        case Failed(e) => Failed(e)
        case Got(entries) => if channel !in known then Failed(UnknownChannel) else Got(before[channel := entries])
  }

  /** What `read_message_indexes` returns: a chunk index without offsets is refused. */
  function IndexesRead(mcap: bytes, known: set<nat>, index: ChunkIndexRecord): Read<IndexMap> {
    if index.indexOffsets == [] then Failed(BadIndex) else IndexesAt(mcap, known, index.indexOffsets)
  }

  method ReadMessageIndexes(mcap: bytes, known: set<nat>, index: ChunkIndexRecord) returns (r: Read<IndexMap>)
    ensures r == IndexesRead(mcap, known, index)
  {
    hide IndexAt;
    var offsets := index.indexOffsets;
    if offsets == [] {
      return Failed(BadIndex);
    }
    var found: IndexMap := map[];
    var i := 0;
    while i < |offsets|
      invariant i <= |offsets|
      invariant IndexesAt(mcap, known, offsets[..i]) == Got(found)
    {
      assert offsets[..i + 1][..i] == offsets[..i];
      var (channel, offset) := offsets[i];
      var entries := IndexAt(mcap, offset, channel);
      if entries.Failed? {
        FailureStays(mcap, known, offsets, i + 1);
        return Failed(entries.error);
      }
      if channel !in known {
        FailureStays(mcap, known, offsets, i + 1);
        return Failed(UnknownChannel);
      }
      found := found[channel := entries.value];
      i := i + 1;
    }
    assert offsets[..i] == offsets;
    r := Got(found);
  }

  lemma {:induction false} FailureStays(mcap: bytes, known: set<nat>, offsets: IntMap, n: nat)
    requires n <= |offsets| && IndexesAt(mcap, known, offsets[..n]).Failed?
    ensures IndexesAt(mcap, known, offsets) == IndexesAt(mcap, known, offsets[..n])
    decreases |offsets|
  {
    hide IndexAt;
    if n < |offsets| {
      var m := |offsets| - 1;
      assert offsets[..m][..n] == offsets[..n];
      FailureStays(mcap, known, offsets[..m], n);
    } else {
      assert offsets[..n] == offsets;
    }
  }

  lemma MessageIndexBodyLength(channel: nat, entries: IntMap)
    ensures |Body(MessageIndex(channel, entries))| >= 6
  {
    hide LE, IntPairs;
  }

  /** A message index of the trailer is read back where the chunk index says it is. */
  lemma IndexIsReadBack(mcap: bytes, offset: nat, channel: nat, entries: IntMap)
    requires At(mcap, offset, EntryBytes(Typed(MessageIndex(channel, entries))))
    requires MessageIndex(channel, entries).Fits() && |Body(MessageIndex(channel, entries))| < U64
    ensures IndexAt(mcap, offset, channel) == Got(entries)
  {
    hide Body, Framed, FrameAt, Decode, At, FitsIntMap;
    var r := MessageIndex(channel, entries);
    FrameIsFound(mcap, offset, OP_MESSAGE_INDEX, Body(r));
    MessageIndexBodyLength(channel, entries);
    DecodesBack(r);
  }

  lemma IndexesAtMore(mcap: bytes, known: set<nat>, before: IntMap, channel: nat, offset: nat)
    requires IndexesAt(mcap, known, before).Got? && IndexAt(mcap, offset, channel).Got? && channel in known
    ensures IndexesAt(mcap, known, before + [(channel, offset)]) ==
            Got(IndexesAt(mcap, known, before).value[channel := IndexAt(mcap, offset, channel).value])
  {
    hide IndexAt;
    assert (before + [(channel, offset)])[..|before|] == before;
  }

  lemma NoIndexes(mcap: bytes, known: set<nat>, ix: IndexMap, base: nat)
    ensures IndexesAt(mcap, known, IndexOffsets(ix, [], base)) == Got(map[])
  {
  }

  /** Reading the listed indexes one after the other gives each channel its own. */
  lemma {:induction false} IndexesAreReadBack(mcap: bytes, known: set<nat>, ix: IndexMap, channels: seq<nat>, base: nat)
    requires At(mcap, base, IndexBytes(ix, channels))
    requires forall c :: c in channels ==> c in ix && c in known && MessageIndex(c, ix[c]).Fits() &&
                                           |Body(MessageIndex(c, ix[c]))| < U64
    ensures IndexesAt(mcap, known, IndexOffsets(ix, channels, base)).Got?
    ensures var found := IndexesAt(mcap, known, IndexOffsets(ix, channels, base)).value;
            (forall c :: c in found <==> c in channels) && (forall c :: c in found ==> found[c] == ix[c])
    decreases |channels|
  {
    hide At, EntryBytes, IndexAt, Body, Record.Fits, IndexesAt, IndexOffsets, IndexBytes;
    if channels == [] {
      NoIndexes(mcap, known, ix, base);
    } else {
      var n := |channels| - 1;
      assert channels == channels[..n + 1];
      IndexBytesMore(ix, channels, n);
      IndexOffsetsMore(ix, channels, base, n);
      AtSplits(mcap, base, IndexBytes(ix, channels[..n]), EntryBytes(IndexRecord(ix, channels[n])));
      IndexesAreReadBack(mcap, known, ix, channels[..n], base);
      IndexIsReadBack(mcap, base + |IndexBytes(ix, channels[..n])|, channels[n], ix[channels[n]]);
      IndexesAtMore(mcap, known, IndexOffsets(ix, channels[..n], base), channels[n], base + |IndexBytes(ix, channels[..n])|);
      assert channels == channels[..n] + [channels[n]];
    }
  }

  /** The message indexes a chunk index leads to are those of the chunk's messages. */
  lemma OffsetsResolve(o: Options, items: seq<Item>, rest: bytes, i: nat, known: set<nat>)
    requires i < |items| && items[i].ChunkOf? && ChunkFits(o, items[i].entries) && o.emitMessageIndexes
    requires forall c :: c in IndexOf(items[i].entries) ==> c in known && c < U16
    ensures var mcap, es := Layout(o, items) + rest, items[i].entries;
            IndexesAt(mcap, known, ChunkIndexFor(o, es, |Layout(o, items[..i])|).indexOffsets) == Got(IndexOf(es))
  {
    hide Layout, At, ChunkBytes, IndexBytes, IndexOffsets, IndexesAt, Ascending, BoundsOf, Raw, IndexOf, Body, FitsIntMap;
    var es := items[i].entries;
    var ix := IndexOf(es);
    ChunkStands(o, items, rest, i);
    var base := |Layout(o, items[..i])| + |ChunkBytes(o, es)|;
    IndexesAreReadBack(Layout(o, items) + rest, known, ix, Ascending(ix.Keys), base);
    var found := IndexesAt(Layout(o, items) + rest, known, IndexOffsets(ix, Ascending(ix.Keys), base)).value;
    assert found.Keys == ix.Keys;
    assert found == ix;
  }

  /** A chunk index has no offsets exactly if its chunk has no messages, or indexes are off. */
  lemma OffsetsOrNone(o: Options, es: seq<Entry>, at: nat)
    requires forall c :: c in IndexOf(es) ==> c < U16
    ensures ChunkIndexFor(o, es, at).indexOffsets == [] <==> !o.emitMessageIndexes || forall j :: 0 <= j < |es| ==> !IsMessage(es[j])
  {
    hide BoundsOf, Raw, ChunkBytes, Trailer, IndexOf, Ascending;
    NoneAscend(U16);
    if j :| 0 <= j < |es| && IsMessage(es[j]) {
      MessageIsIndexed(es, j);
      assert es[j].record.messageChannel in Ascending(IndexOf(es).Keys);
    } else {
      NoMessagesNoIndex(es);
      assert ChunkIndexes(o, es).Keys == {};
    }
    if !o.emitMessageIndexes {
      assert ChunkIndexes(o, es).Keys == {};
    }
  }

  lemma {:induction false} NoneAscend(n: nat)
    ensures AscendingBelow({}, n) == [] && Ascending({}) == AscendingBelow({}, U16)
    decreases n
  {
    if n > 0 {
      NoneAscend(n - 1);
    }
  }

  lemma {:induction false} NoMessagesNoIndex(es: seq<Entry>)
    requires forall j :: 0 <= j < |es| ==> !IsMessage(es[j])
    ensures IndexOf(es) == map[]
    decreases |es|
  {
    if es != [] {
      NoMessagesNoIndex(es[..|es| - 1]);
    }
  }

  /** Reading the message indexes of a chunk gives those of its messages; for a chunk without
      messages, or with message indexes off, it fails. */
  lemma MessageIndexesResolve(o: Options, items: seq<Item>, rest: bytes, i: nat, known: set<nat>)
    requires i < |items| && items[i].ChunkOf? && ChunkFits(o, items[i].entries)
    requires forall c :: c in IndexOf(items[i].entries) ==> c in known && c < U16
    ensures var mcap, es := Layout(o, items) + rest, items[i].entries;
            IndexesRead(mcap, known, ChunkIndexFor(o, es, |Layout(o, items[..i])|)) ==
            if o.emitMessageIndexes && exists j :: 0 <= j < |es| && IsMessage(es[j]) then Got(IndexOf(es)) else Failed(BadIndex)
  {
    hide Layout, IndexesAt, IndexOf, ChunkIndexFor, ChunkFits;
    var es := items[i].entries;
    IndexIsChunkIndex(o, es, |Layout(o, items[..i])|);
    OffsetsOrNone(o, es, |Layout(o, items[..i])|);
    if o.emitMessageIndexes {
      OffsetsResolve(o, items, rest, i, known);
    }
  }

  lemma IndexIsChunkIndex(o: Options, es: seq<Entry>, at: nat)
    ensures ChunkIndexFor(o, es, at).ChunkIndex?
  {
  }

  // ---------- attachments and metadata resolve ----------

  /** The only record in a slice of the file. */
  function OnlyRecord(mcap: bytes, offset: nat, length: nat): Read<Record> {
    if |mcap| < offset + length then Failed(BadIndex)
    else
      var slice := mcap[offset..offset + length];
      var f := FrameAt(slice, 0);
      if f.NoFrame? then Failed(UnexpectedEnd)
      else
        match Decode(f.op, f.body)
        case Broken => Failed(BadRecord)
        case Unknown => Failed(BadIndex)
        case Known(r) => if f.next != |slice| then Failed(BadIndex) else Got(r)
  }

  /** `attachment`: the attachment with the given index. */
  function AttachmentAt(mcap: bytes, offset: nat, length: nat): (r: Read<Record>)
    ensures r.Got? ==> r.value.Attachment?
  {
    match OnlyRecord(mcap, offset, length)
    case Failed(e) => Failed(e)
    case Got(r) => if r.Attachment? then Got(r) else Failed(BadIndex)
  }

  /** `metadata`: the metadata with the given index. */
  function MetadataAt(mcap: bytes, offset: nat, length: nat): (r: Read<Record>)
    ensures r.Got? ==> r.value.Metadata?
  {
    match OnlyRecord(mcap, offset, length)
    case Failed(e) => Failed(e)
    case Got(r) => if r.Metadata? then Got(r) else Failed(BadIndex)
  }

  lemma OnlyRecordIs(mcap: bytes, offset: nat, op: byte, body: bytes, r: Record)
    requires At(mcap, offset, Framed(op, body)) && |body| < U64 && Decode(op, body) == Known(r)
    ensures OnlyRecord(mcap, offset, |Framed(op, body)|) == Got(r)
  {
    hide Framed, Decode, FrameAt;
    var piece := Framed(op, body);
    var slice := mcap[offset..offset + |piece|];
    assert slice == piece;
    AtWhole(piece);
    FrameIsFound(slice, 0, op, body);
    FramedLength(op, body);
  }

  /** The attachment as a record: what reading gives back. */
  function AttachmentRecord(h: AttachmentHeader, data: bytes): Record {
    Attachment(h.logTime, h.createTime, h.name, h.mediaType, data)
  }

  lemma StartIsFields(h: AttachmentHeader, data: bytes)
    ensures AttachmentStart(h, |data|) + data == AttachmentFields(h.logTime, h.createTime, h.name, h.mediaType, data)
  {
    hide LE, Str;
    var a, b, c, d, e := LE(h.logTime, 8), LE(h.createTime, 8), Str(h.name), Str(h.mediaType), LE(|data|, 8);
    assert a + b + c + d + e + data == a + (b + (c + (d + (e + data))));
  }

  /** An attachment is read back whether or not its checksum was calculated. */
  lemma AttachmentDecodes(o: Options, h: AttachmentHeader, data: bytes)
    requires AttachmentRecord(h, data).Fits()
    ensures var body := AttachmentStart(h, |data|) + data + WordBytes(AttachmentCrc(o, h, data));
            Decode(OP_ATTACHMENT, body) == Known(AttachmentRecord(h, data))
  {
    hide LE, FromLE, Pow256, At, ReadInt, ReadPrefixed, ReadWord, Str, WordBytes, Checksum, AttachmentFields, AttachmentStart;
    StartIsFields(h, data);
    var fields := AttachmentFields(h.logTime, h.createTime, h.name, h.mediaType, data);
    var crc := WordBytes(AttachmentCrc(o, h, data));
    var b := fields + crc;
    AtWhole(b);
    AtSplits(b, 0, fields, crc);
    AttachmentFieldsReadBack(b, h.logTime, h.createTime, h.name, h.mediaType, data);
    ReadWordAt(b, |fields|, AttachmentCrc(o, h, data));
    assert b[..|fields|] == fields;
  }

  /** Every attachment index leads to its attachment. */
  lemma AttachmentIndexResolves(o: Options, items: seq<Item>, rest: bytes, k: nat) returns (i: nat)
    requires k < |AttachmentIndexList(o, items)|
    ensures i < |items| && items[i].AttachmentOf?
    ensures var index, item := AttachmentIndexList(o, items)[k], items[i];
            index.AttachmentIndex? &&
            (AttachmentRecord(item.header, item.content).Fits() && |AttachmentBytes(o, item.header, item.content)| < U64 ==>
               AttachmentAt(Layout(o, items) + rest, index.attachmentOffset, index.attachmentLength) ==
               Got(AttachmentRecord(item.header, item.content)))
  {
    hide Layout, At, Framed, Decode, AttachmentStart, WordBytes, AttachmentCrc, AttachmentIndexList, OnlyRecord;
    i := AttachmentIndexPoints(o, items, k);
    var h, data := items[i].header, items[i].content;
    ItemStands(o, items, i);
    AtPrefix(Layout(o, items), rest, |Layout(o, items[..i])|, ItemBytes(o, items[i]));
    var body := AttachmentStart(h, |data|) + data + WordBytes(AttachmentCrc(o, h, data));
    FramedLength(OP_ATTACHMENT, body);
    if AttachmentRecord(h, data).Fits() && |AttachmentBytes(o, h, data)| < U64 {
      AttachmentDecodes(o, h, data);
      OnlyRecordIs(Layout(o, items) + rest, |Layout(o, items[..i])|, OP_ATTACHMENT, body, AttachmentRecord(h, data));
    }
  }

  /** Every metadata index leads to its metadata. */
  lemma MetadataIndexResolves(o: Options, items: seq<Item>, rest: bytes, k: nat) returns (i: nat)
    requires k < |MetadataIndexList(o, items)|
    ensures i < |items| && IsMetadata(items[i])
    ensures var index, r := MetadataIndexList(o, items)[k], items[i].entry.record;
            index.MetadataIndex? && index.metadataIndexName == r.metadataName &&
            (r.Fits() && |Body(r)| < U64 ==>
               MetadataAt(Layout(o, items) + rest, index.metadataOffset, index.metadataLength) == Got(r))
  {
    hide Layout, At, Framed, Decode, Body, MetadataIndexList, OnlyRecord, FitsMap;
    i := MetadataIndexPoints(o, items, k);
    var r := items[i].entry.record;
    ItemStands(o, items, i);
    AtPrefix(Layout(o, items), rest, |Layout(o, items[..i])|, ItemBytes(o, items[i]));
    if r.Fits() && |Body(r)| < U64 {
      DecodesBack(r);
      OnlyRecordIs(Layout(o, items) + rest, |Layout(o, items[..i])|, OP_METADATA, Body(r), r);
    }
  }
}
