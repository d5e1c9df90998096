/** The Rust `Writer`: the object that turns calls into bytes. Every method is proved to
    take the state machine's step and to leave the output holding exactly the bytes the
    state's items stand for, whether chunks are written in place or buffered. */
module RustWriter {
  import opened Bytes
  import opened Crc
  import opened Format
  import opened Records
  import opened RustIo
  import opened RustLayout
  import opened RustRegistry
  import opened RustMachine
  import opened RustSummary
  import C = RustChunk
  import A = RustAttachment

  datatype WriteMode =
    | RawMode(crc: CountingCrc)
    | ChunkMode(cw: C.ChunkWriter)
    | AttachmentMode(aw: A.AttachmentWriter)
    | Gone

  function NumAttachments(items: seq<Item>): nat
    decreases |items|
  {
    if items == [] then 0
    else NumAttachments(items[..|items| - 1]) + (if items[|items| - 1].AttachmentOf? then 1 else 0)
  }

  function NumMetadata(items: seq<Item>): nat
    decreases |items|
  {
    if items == [] then 0
    else NumMetadata(items[..|items| - 1]) + (if IsMetadata(items[|items| - 1]) then 1 else 0)
  }

  /** What the writer keeps beside the state: the indexes and counts of its items. */
  datatype Books = Books(
    chunkIndexes: seq<Record>,
    attachmentCount: nat,
    attachmentIndexes: seq<Record>,
    metadataCount: nat,
    metadataIndexes: seq<Record>)

  /** The books that belong to a list of items. */
  function BooksOf(o: Options, items: seq<Item>): Books {
    Books(ChunkIndexList(o, items), NumAttachments(items),
          if o.emitAttachmentIndexes then AttachmentIndexList(o, items) else [],
          NumMetadata(items), if o.emitMetadataIndexes then MetadataIndexList(o, items) else [])
  }

  lemma NothingAdded<T>(s: seq<T>)
    ensures s + [] == s
  {
  }

  lemma NumbersMore(items: seq<Item>, item: Item)
    ensures NumAttachments(items + [item]) == NumAttachments(items) + (if item.AttachmentOf? then 1 else 0)
    ensures NumMetadata(items + [item]) == NumMetadata(items) + (if IsMetadata(item) then 1 else 0)
  {
    assert (items + [item])[..|items|] == items;
  }

  /** The books after a chunk, an attachment, or a record of its own. */
  lemma BooksMore(o: Options, items: seq<Item>, item: Item)
    ensures var b, t, at := BooksOf(o, items), BooksOf(o, items + [item]), |Layout(o, items)|;
            match item {
              case ChunkOf(es) => t == b.(chunkIndexes := b.chunkIndexes + [ChunkIndexFor(o, es, at)])
              case AttachmentOf(h, content) =>
                t == b.(attachmentCount := b.attachmentCount + 1,
                        attachmentIndexes := b.attachmentIndexes +
                          (if o.emitAttachmentIndexes then [AttachmentIndexFor(o, h, content, at)] else []))
              case Lone(e) =>
                t == if !IsMetadata(item) then b
                     else b.(metadataCount := b.metadataCount + 1,
                             metadataIndexes := b.metadataIndexes +
                               (if o.emitMetadataIndexes then [MetadataIndexFor(e, at)] else []))
            }
  {
    hide Layout, ChunkIndexFor, AttachmentIndexFor, MetadataIndexFor, ChunkIndexList, AttachmentIndexList, MetadataIndexList,
         NumAttachments, NumMetadata;
    NumbersMore(items, item);
    LayoutMore(o, items, item);
    NothingAdded(ChunkIndexList(o, items));
    NothingAdded(AttachmentIndexList(o, items));
    NothingAdded(MetadataIndexList(o, items));
    NothingAdded<Record>([]);
  }

  /** Nothing is open: the output is the layout of the items. */
  ghost predicate IdleOk(o: Options, sink: ChunkSink, mode: WriteMode, items: seq<Item>)
    reads sink.inner, sink.Target()
  {
    && mode.RawMode? && sink.Valid() && sink.inner.AtEnd()
    && sink.inner.data == Layout(o, items)
    && mode.crc.hasher == HashIf(o.dataCrc, Hashed(o, items))
  }

  /** A chunk is open behind the items. */
  ghost predicate ChunkOk(o: Options, sink: ChunkSink, mode: WriteMode, items: seq<Item>, es: seq<Entry>)
    reads sink.inner, sink.Target()
  {
    && mode.ChunkMode?
    && C.Tracks(mode.cw, o, es, Layout(o, items), Hashed(o, items))
    && C.Holds(mode.cw, sink, o, o.codec.emitted(Raw(es)), Layout(o, items))
  }

  /** An attachment is open behind the items. */
  ghost predicate AttachmentOk(o: Options, sink: ChunkSink, mode: WriteMode, items: seq<Item>, h: AttachmentHeader, length: nat,
                               content: bytes)
    reads sink.inner, sink.Target()
  {
    && mode.AttachmentMode? && sink.Valid() && sink.inner.AtEnd() && |content| <= length
    && A.Tracks(mode.aw, o, h, length, content, Layout(o, items), Hashed(o, items))
    && sink.inner.data == Layout(o, items) + A.Partial(h, length, content)
  }

  /** The output and the mode agree with what is open. */
  ghost predicate Written(o: Options, sink: ChunkSink, mode: WriteMode, items: seq<Item>, open: Open)
    reads sink.inner, sink.Target()
  {
    match open
    case Idle => IdleOk(o, sink, mode, items)
    case InChunk(es) => ChunkOk(o, sink, mode, items, es)
    case InAttachment(h, length, content) => AttachmentOk(o, sink, mode, items, h, length, content)
    case Taken => mode.Gone?
  }

  lemma ModeMatches(o: Options, sink: ChunkSink, mode: WriteMode, items: seq<Item>, open: Open)
    requires Written(o, sink, mode, items, open)
    ensures mode.RawMode? <==> open.Idle?
    ensures mode.ChunkMode? <==> open.InChunk?
    ensures mode.AttachmentMode? <==> open.InAttachment?
  {
    hide Layout, Hashed, HashIf, C.Tracks, C.Holds, A.Tracks, A.Partial, Raw;
  }

  class Writer {
    const options: Options
    const sink: ChunkSink
    var mode: WriteMode
    var schemas: Registry<SchemaContent>
    var channels: Registry<ChannelContent>
    var books: Books
    var bounds: Bounds
    var counts: map<nat, nat>
    var finished: bool
    ghost var items: seq<Item>
    ghost var open: Open

    ghost function Abs(): State
      reads this
    {
      State(items, open, schemas, channels, bounds, counts)
    }

    ghost predicate Valid()
      reads this, sink.inner, sink.Target()
    {
      && Sound(options.codec)
      && sink.Valid()
      && (sink.buffer.Some? <==> options.useChunks && options.disableSeeking)
      && schemas.next <= LAST_ID && channels.next <= LAST_ID
      && (open.InChunk? ==> options.useChunks)
      && books == BooksOf(options, items)
      && !finished
      && Written(options, sink, mode, items, open)
    }

    constructor (o: Options)
      requires Sound(o.codec)
      ensures Valid() && options == o && Abs() == Initial(o)
      ensures fresh(sink) && fresh(sink.inner) && fresh(sink.Target())
    {
      hide HashIf, CountingCrc.Wrote, Overwrite, NewCounter, EntryBytes, BooksOf, Layout, Hashed, Sound, HashedBytes, ItemBytes;
      options := o;
      var output := new Stream();
      var crc := NewCounter(o.dataCrc);
      NewCounterIsHash(o.dataCrc);
      WroteIsHash(o.dataCrc, [], 0, MAGIC);
      assert [] + MAGIC == MAGIC;
      output.Write(MAGIC);
      crc := crc.Wrote(MAGIC);
      var header := Typed(Header(o.profile, o.library));
      WroteIsHash(o.dataCrc, MAGIC, crc.count, EntryBytes(header));
      output.Write(EntryBytes(header));
      crc := crc.Wrote(EntryBytes(header));
      FirstItem(o, header);
      var buffer := None;
      if o.useChunks && o.disableSeeking {
        var scratch := new Stream();
        buffer := Some(scratch);
      }
      sink := new ChunkSink(output, buffer);
      mode := RawMode(crc);
      schemas := Empty();
      channels := Empty();
      books := Books([], 0, [], 0, []);
      bounds := None;
      counts := map[];
      finished := false;
      items := [Lone(header)];
      open := Idle;
    }

    static lemma FirstItem(o: Options, header: Entry)
      requires header.Typed? && header.record.Header?
      ensures Layout(o, [Lone(header)]) == Hashed(o, [Lone(header)]) == MAGIC + EntryBytes(header)
      ensures BooksOf(o, [Lone(header)]) == Books([], 0, [], 0, [])
    {
      hide EntryBytes;
      LayoutMore(o, [], Lone(header));
      HashedMore(o, [], Lone(header));
      BooksMore(o, [], Lone(header));
      assert [] + [Lone(header)] == [Lone(header)];
    }

    // ---------- chunks ----------

    /** Opens a chunk unless one is open. */
    method StartChunk() returns (r: Reply)
      requires Valid() && options.useChunks && !open.Taken?
      modifies this, sink.inner, sink.Target()
      ensures Valid()
      ensures old(open.InAttachment?) ==> r == Err(AttachmentNotInProgress) && Abs() == old(Abs())
      ensures !old(open.InAttachment?) ==>
                r == Ok && Abs() == old(Abs()).(open := if old(open.InChunk?) then old(open) else InChunk([]))
    {
      hide BooksOf, Layout, Hashed, Sound, HashIf, C.Tracks, C.Holds, Raw, AttachmentOk;
      ModeMatches(options, sink, mode, items, open);
      if mode.AttachmentMode? {
        return Err(AttachmentNotInProgress);
      }
      if mode.RawMode? {
        EmptyRaw();
        var cw := C.Begin(options, sink, mode.crc, Layout(options, items), Hashed(options, items));
        mode := ChunkMode(cw);
        open := InChunk([]);
      }
      r := Ok;
    }

    static lemma EmptyRaw()
      ensures Raw([]) == []
    {
    }

    /** Closes the chunk that is open, if one is. */
    method FinishChunk() returns (r: Reply)
      requires Valid() && !open.Taken?
      modifies this, sink.inner, sink.Target()
      ensures Valid()
      ensures old(open.InAttachment?) ==> r == Err(AttachmentNotInProgress) && Abs() == old(Abs())
      ensures !old(open.InAttachment?) ==> r == Ok && Abs() == Closed(old(Abs())) && open.Idle?
    {
      hide BooksOf, Layout, Hashed, Sound, HashIf, C.Tracks, C.Holds, Raw, ChunkIndexFor, ItemBytes, HashedBytes, AttachmentOk;
      ModeMatches(options, sink, mode, items, open);
      if mode.AttachmentMode? {
        return Err(AttachmentNotInProgress);
      }
      if mode.ChunkMode? {
        ghost var es := open.entries;
        var crc, index := C.Finish(mode.cw, options, sink, es, Layout(options, items), Hashed(options, items));
        BooksMore(options, items, ChunkOf(es));
        LayoutMore(options, items, ChunkOf(es));
        HashedMore(options, items, ChunkOf(es));
        books := books.(chunkIndexes := books.chunkIndexes + [index]);
        mode := RawMode(crc);
        items := items + [ChunkOf(es)];
        open := Idle;
      }
      r := Ok;
    }

    /** Writes a record into the open chunk. */
    method WriteIntoChunk(e: Entry)
      requires Valid() && open.InChunk?
      modifies this, sink.Target()
      ensures Valid() && Abs() == old(Abs()).(open := InChunk(old(open).entries + [e]))
    {
      hide BooksOf, Layout, Hashed, Sound, HashIf, C.Tracks, C.Holds, Raw, AttachmentOk, IdleOk;
      ghost var es := open.entries;
      var cw;
      if IsMessage(e) {
        cw := C.WriteMessage(mode.cw, options, sink, e.record, es, Layout(options, items), Hashed(options, items));
      } else {
        cw := C.WriteEntry(mode.cw, options, sink, e, es, Layout(options, items), Hashed(options, items));
      }
      mode := ChunkMode(cw);
      open := InChunk(es + [e]);
    }

    /** Writes a record behind the last item. */
    method WriteLone(e: Entry)
      requires Valid() && open.Idle? && !IsMetadata(Lone(e))
      modifies this, sink.inner
      ensures Valid() && Abs() == old(Abs()).(items := old(items) + [Lone(e)])
    {
      hide BooksOf, Layout, Hashed, Sound, HashIf, EntryBytes, Overwrite, CountingCrc.Wrote, ChunkOk, AttachmentOk;
      LoneMore(e);
      WroteIsHash(options.dataCrc, Hashed(options, items), mode.crc.count, EntryBytes(e));
      sink.inner.Write(EntryBytes(e));
      mode := RawMode(mode.crc.Wrote(EntryBytes(e)));
      items := items + [Lone(e)];
    }

    lemma LoneMore(e: Entry)
      ensures Layout(options, items + [Lone(e)]) == Layout(options, items) + EntryBytes(e)
      ensures Hashed(options, items + [Lone(e)]) == Hashed(options, items) + EntryBytes(e)
      ensures var b := BooksOf(options, items);
              BooksOf(options, items + [Lone(e)]) ==
              if !IsMetadata(Lone(e)) then b
              else b.(metadataCount := b.metadataCount + 1,
                      metadataIndexes := b.metadataIndexes +
                        (if options.emitMetadataIndexes then [MetadataIndexFor(e, |Layout(options, items)|)] else []))
    {
      hide BooksOf, Layout, Hashed, EntryBytes, MetadataIndexFor;
      LayoutMore(options, items, Lone(e));
      HashedMore(options, items, Lone(e));
      BooksMore(options, items, Lone(e));
    }

    /** A record other than metadata, in a chunk or on its own. */
    method WriteEntry(e: Entry, chunked: bool) returns (r: Reply)
      requires Valid() && !open.Taken? && (chunked ==> options.useChunks) && !IsMetadata(Lone(e))
      modifies this, sink.inner, sink.Target()
      ensures Valid() && (Abs(), r) == Put(old(Abs()), e, chunked)
    {
      hide Valid, Abs;
      AbsIs();
      if chunked {
        r := StartChunk();
        AbsIs();
        if r.Err? {
          return;
        }
        ghost var entries := open.entries;
        WriteIntoChunk(e);
        AbsIs();
        assert [] + [e] == [e];
      } else {
        r := FinishChunk();
        AbsIs();
        if r.Err? {
          return;
        }
        WriteLone(e);
        AbsIs();
      }
    }

    lemma AbsIs()
      ensures Abs() == State(items, open, schemas, channels, bounds, counts)
    {
    }

    // ---------- schemas and channels ----------

    method AddSchema(c: SchemaContent) returns (r: Reply)
      requires Valid() && !open.Taken? && !Overflows(schemas, c)
      modifies this, sink.inner, sink.Target()
      ensures Valid() && (Abs(), r) == RustMachine.AddSchema(options, old(Abs()), c)
    {
      hide Written, BooksOf, Sound, Put;
      if c in schemas.canonical.left {
        return Id(schemas.canonical.left[c]);
      }
      var id := FindFree(schemas.all, schemas.next);
      if id in schemas.all {
        schemas := schemas.(next := id);
        return Err(TooManySchemas);
      }
      schemas := schemas.Registered(c, id).(next := id + 1);
      r := WriteEntry(SchemaEntry(id, c), options.useChunks);
      r := if r.Err? then r else Id(id);
    }

    method AddChannel(c: ChannelContent) returns (r: Reply)
      requires Valid() && !open.Taken? && !Overflows(channels, c)
      modifies this, sink.inner, sink.Target()
      ensures Valid() && (Abs(), r) == RustMachine.AddChannel(options, old(Abs()), c)
    {
      hide Written, BooksOf, Sound, Put;
      if c in channels.canonical.left {
        return Id(channels.canonical.left[c]);
      }
      if c.schemaId != 0 && c.schemaId !in schemas.all {
        return Err(UnknownSchema);
      }
      var id := FindFree(channels.all, channels.next);
      if id in channels.all {
        channels := channels.(next := id);
        return Err(TooManyChannels);
      }
      channels := channels.Registered(c, id).(next := id + 1);
      r := WriteEntry(ChannelEntry(id, c), options.useChunks);
      r := if r.Err? then r else Id(id);
    }

    // ---------- messages ----------

    /** The schema half of `Write`. */
    method OfferSchema(m: OutMessage) returns (r: Reply)
      requires Valid() && !open.Taken? && !SchemaPanics(Abs(), m)
      modifies this, sink.inner, sink.Target()
      ensures Valid() && (Abs(), r) == RustMachine.OfferSchema(options, old(Abs()), m)
    {
      hide Written, BooksOf, Sound, Put;
      if m.schema.None? {
        return Ok;
      }
      var (id, c) := m.schema.value;
      if id in schemas.all {
        r := if schemas.all[id] != schemas.canonical.left[c] then Err(ConflictingSchemas) else Ok;
        return;
      }
      schemas := if schemas.Knows(c) then schemas.Aliased(c, id) else schemas.Registered(c, id);
      r := WriteEntry(SchemaEntry(id, c), options.useChunks);
    }

    /** The channel half of `Write`. */
    method OfferChannel(m: OutMessage) returns (r: Reply)
      requires Valid() && !open.Taken? && !ChannelPanics(Abs(), m)
      modifies this, sink.inner, sink.Target()
      ensures Valid() && (Abs(), r) == RustMachine.OfferChannel(options, old(Abs()), m)
    {
      hide Written, BooksOf, Sound, Put;
      var id, c := m.channelId, ContentOf(m);
      if id in channels.all {
        r := if channels.all[id] != channels.canonical.left[c] then Err(ConflictingChannels) else Ok;
        return;
      }
      channels := if channels.Knows(c) then channels.Aliased(c, id) else channels.Registered(c, id);
      r := WriteEntry(ChannelEntry(id, c), options.useChunks);
    }

    method Write(m: OutMessage) returns (r: Reply)
      requires Valid() && !open.Taken? && !WritePanics(options, Abs(), m)
      modifies this, sink.inner, sink.Target()
      ensures Valid() && (Abs(), r) == RustMachine.Write(options, old(Abs()), m)
    {
      hide Written, BooksOf, Sound, RustMachine.OfferSchema, RustMachine.OfferChannel, RustMachine.WriteKnown, OfferPanics;
      OfferSchemaKeepsChannels(options, Abs(), m);
      PanicsOnlyOnChannels(old(Abs()), RustMachine.OfferSchema(options, old(Abs()), m).0, m);
      OffersNeverTake(options, Abs(), m);
      r := OfferSchema(m);
      if r.Err? {
        return;
      }
      OffersNeverTake(options, Abs(), m);
      r := OfferChannel(m);
      if r.Err? {
        return;
      }
      r := WriteToKnownChannel(m.channelId, m.header, m.data);
    }

    static lemma PanicsOnlyOnChannels(s: State, t: State, m: OutMessage)
      requires s.channels == t.channels
      ensures ChannelPanics(s, m) == ChannelPanics(t, m)
    {
    }

    /** Offering content never makes the writer unusable. */
    static lemma OffersNeverTake(o: Options, s: State, m: OutMessage)
      requires !s.open.Taken?
      ensures !SchemaPanics(s, m) ==> !RustMachine.OfferSchema(o, s, m).0.open.Taken?
      ensures !ChannelPanics(s, m) ==> !RustMachine.OfferChannel(o, s, m).0.open.Taken?
    {
    }

    method WriteToKnownChannel(channelId: nat, h: MessageHeader, data: bytes) returns (r: Reply)
      requires Valid() && !open.Taken?
      modifies this, sink.inner, sink.Target()
      ensures Valid() && (Abs(), r) == WriteKnown(options, old(Abs()), channelId, h, data)
    {
      hide BooksOf, Sound, Put, Widened, Count, Layout, Hashed, C.Holds, HashIf, IdleOk, AttachmentOk;
      ModeMatches(options, sink, mode, items, open);
      if channelId !in channels.all {
        return Err(UnknownChannel);
      }
      bounds := Widened(bounds, h.logTime);
      counts := Count(counts, channelId);
      if mode.ChunkMode? && options.chunkSize.Some? {
        var current := mode.cw.plain.count;
        if current > options.chunkSize.value {
          r := FinishChunk();
        }
      }
      assert Abs() == Rolled(options, Counted(old(Abs()), channelId, h.logTime));
      r := WriteEntry(MessageEntry(channelId, h, data), options.useChunks);
    }

    method WritePrivateRecord(op: byte, data: bytes, inChunks: bool) returns (r: Reply)
      requires Valid() && !open.Taken?
      modifies this, sink.inner, sink.Target()
      ensures Valid() && (Abs(), r) == WritePrivate(options, old(Abs()), op, data, inChunks)
    {
      hide Written, BooksOf, Sound, Put;
      if op < 0x80 {
        return Err(OpcodeIsReserved);
      }
      r := WriteEntry(Private(op, data), options.useChunks && inChunks);
    }

    // ---------- attachments ----------

    method StartAttachment(length: nat, h: AttachmentHeader) returns (r: Reply)
      requires Valid() && !open.Taken?
      modifies this, sink.inner, sink.Target()
      ensures Valid() && (Abs(), r) == RustMachine.StartAttachment(old(Abs()), length, h)
    {
      hide BooksOf, Layout, Hashed, Sound, HashIf, A.Tracks, A.Partial, Raw, ChunkOk;
      r := FinishChunk();
      if r.Err? {
        return;
      }
      var aw := A.Begin(options, sink.inner, mode.crc, length, h, Hashed(options, items));
      mode := AttachmentMode(aw);
      open := InAttachment(h, length, []);
      r := Ok;
    }

    method PutAttachmentBytes(data: bytes) returns (r: Reply)
      requires Valid()
      modifies this, sink.inner
      ensures Valid() && (Abs(), r) == PutAttachment(old(Abs()), data)
    {
      hide BooksOf, Layout, Hashed, Sound, HashIf, A.Tracks, A.Partial, Raw, ChunkOk, IdleOk;
      ModeMatches(options, sink, mode, items, open);
      if !mode.AttachmentMode? {
        return Err(AttachmentNotInProgress);
      }
      ghost var h, length, content := open.header, open.length, open.content;
      var aw;
      aw, r := A.PutBytes(mode.aw, options, sink.inner, data, h, length, content, Layout(options, items), Hashed(options, items));
      mode := AttachmentMode(aw);
      if r.Ok? {
        open := InAttachment(h, length, content + data);
      }
    }

    method FinishAttachment() returns (r: Reply)
      requires Valid()
      modifies this, sink.inner
      ensures Valid() && (Abs(), r) == RustMachine.FinishAttachment(old(Abs()))
    {
      hide BooksOf, Layout, Hashed, Sound, HashIf, A.Partial, Raw, ChunkOk, IdleOk;
      ModeMatches(options, sink, mode, items, open);
      if !mode.AttachmentMode? {
        return Err(AttachmentNotInProgress);
      }
      var aw := mode.aw;
      var expected, current := aw.length, aw.outer.count - aw.attachmentOffset;
      if expected != current {
        mode := Gone;
        open := Taken;
        return Err(AttachmentIncomplete(expected, current));
      }
      CompleteAttachment();
      r := Ok;
    }

    /** All promised bytes have come. */
    method CompleteAttachment()
      requires Valid() && open.InAttachment? && |open.content| == open.length
      modifies this, sink.inner
      ensures Valid() && Abs() == RustMachine.FinishAttachment(old(Abs())).0
    {
      hide BooksOf, Layout, Hashed, Sound, HashIf, A.Partial, A.Tracks, AttachmentIndexFor, AttachmentBytes, ChunkOk;
      ghost var h, content := open.header, open.content;
      var crc, index := A.Finish(mode.aw, options, sink.inner, h, content, Layout(options, items), Hashed(options, items));
      AttachmentMore(h, content);
      books := books.(attachmentCount := books.attachmentCount + 1);
      if options.emitAttachmentIndexes {
        books := books.(attachmentIndexes := books.attachmentIndexes + [index]);
      } else {
        assert books.attachmentIndexes + [] == books.attachmentIndexes;
      }
      mode := RawMode(crc);
      items := items + [AttachmentOf(h, content)];
      open := Idle;
    }

    lemma AttachmentMore(h: AttachmentHeader, content: bytes)
      ensures var item, at := AttachmentOf(h, content), |Layout(options, items)|;
              Layout(options, items + [item]) == Layout(options, items) + AttachmentBytes(options, h, content) &&
              Hashed(options, items + [item]) == Hashed(options, items) + AttachmentBytes(options, h, content) &&
              BooksOf(options, items + [item]) ==
                BooksOf(options, items).(
                  attachmentCount := BooksOf(options, items).attachmentCount + 1,
                  attachmentIndexes := BooksOf(options, items).attachmentIndexes +
                    (if options.emitAttachmentIndexes then [AttachmentIndexFor(options, h, content, at)] else []))
    {
      hide BooksOf, Layout, Hashed, AttachmentBytes, AttachmentIndexFor;
      LayoutMore(options, items, AttachmentOf(h, content));
      HashedMore(options, items, AttachmentOf(h, content));
      BooksMore(options, items, AttachmentOf(h, content));
    }

    /** An attachment given at once. */
    method Attach(h: AttachmentHeader, data: bytes) returns (r: Reply)
      requires Valid() && !open.Taken?
      modifies this, sink.inner, sink.Target()
      ensures Valid() && (Abs(), r) == RustMachine.Attach(old(Abs()), h, data)
    {
      hide Written, BooksOf, Sound, RustMachine.StartAttachment, RustMachine.PutAttachment, RustMachine.FinishAttachment;
      r := StartAttachment(|data|, h);
      if r.Err? {
        return;
      }
      r := PutAttachmentBytes(data);
      if r.Err? {
        return;
      }
      r := FinishAttachment();
    }

    // ---------- metadata, flushing ----------

    method WriteMetadata(name: bytes, metadata: StringMap) returns (r: Reply)
      requires Valid() && !open.Taken?
      modifies this, sink.inner, sink.Target()
      ensures Valid() && (Abs(), r) == RustMachine.WriteMetadata(old(Abs()), name, metadata)
    {
      hide BooksOf, Layout, Hashed, Sound, HashIf, EntryBytes, Overwrite, CountingCrc.Wrote, ChunkOk, AttachmentOk;
      r := FinishChunk();
      if r.Err? {
        return;
      }
      var e := Typed(Metadata(name, metadata));
      var offset := sink.inner.pos;
      LoneMore(e);
      WroteIsHash(options.dataCrc, Hashed(options, items), mode.crc.count, EntryBytes(e));
      sink.inner.Write(EntryBytes(e));
      mode := RawMode(mode.crc.Wrote(EntryBytes(e)));
      var length := sink.inner.pos - offset;
      books := books.(metadataCount := books.metadataCount + 1);
      if options.emitMetadataIndexes {
        books := books.(metadataIndexes := books.metadataIndexes + [MetadataIndex(offset, length, name)]);
      } else {
        assert books.metadataIndexes + [] == books.metadataIndexes;
      }
      items := items + [Lone(e)];
    }

    method Flush() returns (r: Reply)
      requires Valid() && !open.Taken?
      modifies this, sink.inner, sink.Target()
      ensures Valid() && (Abs(), r) == RustMachine.Flush(old(Abs()))
    {
      hide Written, BooksOf, Sound;
      r := FinishChunk();
    }

    // ---------- the end ----------

    /** Closes the open chunk, then writes DataEnd, the summary section, the footer and the
        magic. An open attachment refuses. */
    method Finish(schemaOrder: seq<nat>, channelOrder: seq<nat>) returns (r: Reply)
      requires Valid() && !open.Taken? && schemas.Valid() && channels.Valid()
      requires Visits(schemaOrder, schemas.all) && Visits(channelOrder, channels.all)
      modifies this, sink.inner, sink.Target()
      ensures old(open.InAttachment?) ==> r == Err(AttachmentNotInProgress) && Valid() && Abs() == old(Abs())
      ensures !old(open.InAttachment?) ==>
                r == Ok && finished && sink.inner.data == WholeFile(options, Closed(old(Abs())), schemaOrder, channelOrder)
    {
      hide BooksOf, Layout, Hashed, Sound, HashIf, ChunkOk, AttachmentOk, Overwrite, EntryBytes, Ending,
           SchemasOf, ChannelsOf, StatisticsOf, Ascending, Registry.Valid, Groups;
      r := FinishChunk();
      if r.Err? {
        return;
      }
      var schemaMap := TakeSchemas(schemas);
      var channelMap := TakeChannels(channels, schemaMap);
      ghost var s := Abs();
      var listed := Listed(counts, Ascending(counts.Keys));
      var stats := Statistics(Total(listed), |schemas.all| % U16, |channels.all|, books.attachmentCount, books.metadataCount,
                              |books.chunkIndexes|, StartTime(bounds), EndTime(bounds), listed);
      StatisticsAre(s, |books.chunkIndexes|, books.attachmentCount, books.metadataCount);
      var summary := Summary(stats, channelMap, schemaMap, books.chunkIndexes, books.attachmentIndexes, books.metadataIndexes);
      SummaryKeys(s);
      finished := true;
      StoredIsChecksum(options.dataCrc, Hashed(options, items));
      var crc := Stored(mode.crc.hasher);
      sink.inner.Write(EntryBytes(Typed(DataEnd(crc))));
      WriteSummaryAndFooter(sink.inner, options, summary, schemaOrder, channelOrder);
    }

    static lemma StatisticsAre(s: State, chunks: nat, attachments: nat, metadata: nat)
      ensures var listed := Listed(s.counts, Ascending(s.counts.Keys));
              StatisticsOf(s, chunks, attachments, metadata) ==
              Statistics(Total(listed), |s.schemas.all| % U16, |s.channels.all|, attachments, metadata, chunks,
                         StartTime(s.bounds), EndTime(s.bounds), listed)
    {
    }
  }

  lemma SummaryKeys(s: State)
    requires s.schemas.Valid() && s.channels.Valid()
    ensures SchemasOf(s.schemas).Keys == s.schemas.all.Keys
    ensures ChannelsOf(s.channels, SchemasOf(s.schemas)).Keys == s.channels.all.Keys
  {
  }

  /** The summary of a state with nothing open. */
  ghost function SummaryOf(o: Options, s: State): Summary
    requires s.schemas.Valid() && s.channels.Valid()
  {
    var b := BooksOf(o, s.items);
    var schemas := SchemasOf(s.schemas);
    Summary(StatisticsOf(s, |b.chunkIndexes|, b.attachmentCount, b.metadataCount), ChannelsOf(s.channels, schemas), schemas,
            b.chunkIndexes, b.attachmentIndexes, b.metadataIndexes)
  }

  /** The value of the DataEnd record. */
  function DataCrc(o: Options, items: seq<Item>): bv32 {
    if o.dataCrc then Checksum(Hashed(o, items)) else 0
  }

  /** The file through its DataEnd record. */
  function DataSection(o: Options, items: seq<Item>): bytes {
    Layout(o, items) + EntryBytes(Typed(DataEnd(DataCrc(o, items))))
  }

  /** The finished file of a state with nothing open. */
  ghost function WholeFile(o: Options, s: State, schemaOrder: seq<nat>, channelOrder: seq<nat>): bytes
    requires s.schemas.Valid() && s.channels.Valid()
    requires Visits(schemaOrder, s.schemas.all) && Visits(channelOrder, s.channels.all)
  {
    SummaryKeys(s);
    var data := DataSection(o, s.items);
    data + Ending(o, Groups(o, SummaryOf(o, s), schemaOrder, channelOrder), |data|)
  }
}
