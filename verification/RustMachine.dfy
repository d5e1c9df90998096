/** The Rust writer as a state machine over items: which record ends up where, which IDs
    are handed out, what is counted and which calls are refused. It knows nothing of
    bytes on disk beyond the size at which a chunk is closed. */
module RustMachine {
  import opened Bytes
  import opened Format
  import opened Records
  import opened RustLayout
  import opened RustRegistry

  datatype SchemaContent = SchemaContent(name: bytes, encoding: bytes, data: bytes)

  /** The metadata is a sorted map, given by its entries in ascending order. */
  datatype ChannelContent = ChannelContent(schemaId: nat, topic: bytes, encoding: bytes, metadata: StringMap)

  datatype OutMessage = OutMessage(
    schema: Option<(nat, SchemaContent)>,
    channelId: nat,
    topic: bytes,
    encoding: bytes,
    metadata: StringMap,
    header: MessageHeader,
    data: bytes)

  datatype MessageHeader = MessageHeader(sequence: nat, logTime: nat, publishTime: nat)

  datatype Error =
    | TooManySchemas
    | TooManyChannels
    | UnknownSchema
    | UnknownChannel
    | ConflictingSchemas
    | ConflictingChannels
    | OpcodeIsReserved
    | AttachmentNotInProgress
    | AttachmentTooLarge(excess: nat, length: nat)
    | AttachmentIncomplete(expected: nat, current: nat)

  datatype Reply = Ok | Id(id: nat) | Err(error: Error)

  /** What is being written: nothing, a chunk, an attachment, or the writer is unusable
      because an attachment was finished before all its data had come. */
  datatype Open =
    | Idle
    | InChunk(entries: seq<Entry>)
    | InAttachment(header: AttachmentHeader, length: nat, content: bytes)
    | Taken

  datatype State = State(
    items: seq<Item>,
    open: Open,
    schemas: Registry<SchemaContent>,
    channels: Registry<ChannelContent>,
    bounds: Bounds,
    counts: map<nat, nat>)

  function Initial(o: Options): State {
    State([Lone(Typed(Header(o.profile, o.library)))], Idle, Empty(), Empty(), None, map[])
  }

  function SchemaEntry(id: nat, c: SchemaContent): Entry {
    Typed(Schema(id, c.name, c.encoding, c.data))
  }

  function ChannelEntry(id: nat, c: ChannelContent): Entry {
    Typed(Channel(id, c.schemaId, c.topic, c.encoding, c.metadata))
  }

  function MessageEntry(channelId: nat, h: MessageHeader, data: bytes): Entry {
    Typed(Message(channelId, h.sequence, h.logTime, h.publishTime, data))
  }

  // ---------- where records go ----------

  /** After closing the chunk that is open, if one is. */
  function Closed(s: State): State {
    if s.open.InChunk? then s.(items := s.items + [ChunkOf(s.open.entries)], open := Idle) else s
  }

  /** Writes a record into a chunk, which is opened if need be, or behind the last item. */
  function Put(s: State, e: Entry, chunked: bool): (State, Reply) {
    if s.open.InAttachment? then (s, Err(AttachmentNotInProgress))
    else if chunked then (s.(open := InChunk(if s.open.InChunk? then s.open.entries + [e] else [e])), Ok)
    else
      var c := Closed(s);
      (c.(items := c.items + [Lone(e)]), Ok)
  }

  // ---------- the calls ----------

  /** `Put`, answering with an ID. */
  function PutNew(s: State, e: Entry, chunked: bool, id: nat): (State, Reply) {
    var (t, r) := Put(s, e, chunked);
    (t, if r.Err? then r else Id(id))
  }

  function AddSchema(o: Options, s: State, c: SchemaContent): (State, Reply)
    requires s.schemas.next <= LAST_ID
  {
    match Add(s.schemas, c)
    case Existing(id) => (s, Id(id))
    case Full(g) => (s.(schemas := g), Err(TooManySchemas))
    case Fresh(id, g) => PutNew(s.(schemas := g), SchemaEntry(id, c), o.useChunks, id)
  }

  function AddChannel(o: Options, s: State, c: ChannelContent): (State, Reply)
    requires s.channels.next <= LAST_ID
  {
    if s.channels.Knows(c) then (s, Id(s.channels.canonical.left[c]))
    else if c.schemaId != 0 && c.schemaId !in s.schemas.all then (s, Err(UnknownSchema))
    else
      match Add(s.channels, c)
      case Existing(id) => (s, Id(id))
      case Full(g) => (s.(channels := g), Err(TooManyChannels))
      case Fresh(id, g) => PutNew(s.(channels := g), ChannelEntry(id, c), o.useChunks, id)
  }

  function Count(counts: map<nat, nat>, channel: nat): map<nat, nat> {
    counts[channel := (if channel in counts then counts[channel] else 0) + 1]
  }

  /** Counted before anything is written. */
  function Counted(s: State, channelId: nat, time: nat): State {
    s.(bounds := Widened(s.bounds, time), counts := Count(s.counts, channelId))
  }

  /** A chunk that has grown past the target size is closed before the next message. */
  function Rolled(o: Options, s: State): State {
    if s.open.InChunk? && o.chunkSize.Some? && |Raw(s.open.entries)| > o.chunkSize.value then Closed(s) else s
  }

  function WriteKnown(o: Options, s: State, channelId: nat, h: MessageHeader, data: bytes): (State, Reply) {
    if channelId !in s.channels.all then (s, Err(UnknownChannel))
    else Put(Rolled(o, Counted(s, channelId, h.logTime)), MessageEntry(channelId, h, data), o.useChunks)
  }

  predicate SchemaPanics(s: State, m: OutMessage) {
    m.schema.Some? && OfferPanics(s.schemas, m.schema.value.0, m.schema.value.1)
  }

  /** The schema half of `Write`. */
  function OfferSchema(o: Options, s: State, m: OutMessage): (State, Reply)
    requires !SchemaPanics(s, m)
  {
    if m.schema.None? then (s, Ok)
    else
      match Offer(s.schemas, m.schema.value.0, m.schema.value.1)
      case Agreed => (s, Ok)
      case Conflicting => (s, Err(ConflictingSchemas))
      case Accepted(g) => Put(s.(schemas := g), SchemaEntry(m.schema.value.0, m.schema.value.1), o.useChunks)
  }

  function ContentOf(m: OutMessage): ChannelContent {
    ChannelContent(if m.schema.Some? then m.schema.value.0 else 0, m.topic, m.encoding, m.metadata)
  }

  predicate ChannelPanics(s: State, m: OutMessage) {
    OfferPanics(s.channels, m.channelId, ContentOf(m))
  }

  /** The channel half of `Write`. */
  function OfferChannel(o: Options, s: State, m: OutMessage): (State, Reply)
    requires !ChannelPanics(s, m)
  {
    match Offer(s.channels, m.channelId, ContentOf(m))
    case Agreed => (s, Ok)
    case Conflicting => (s, Err(ConflictingChannels))
    case Accepted(g) => Put(s.(channels := g), ChannelEntry(m.channelId, ContentOf(m)), o.useChunks)
  }

  lemma OfferSchemaKeepsChannels(o: Options, s: State, m: OutMessage)
    requires !SchemaPanics(s, m)
    ensures OfferSchema(o, s, m).0.channels == s.channels
  {
  }

  /** `Write` panics in its schema half, or in its channel half if it comes that far. */
  predicate WritePanics(o: Options, s: State, m: OutMessage) {
    SchemaPanics(s, m) || (!OfferSchema(o, s, m).1.Err? && ChannelPanics(s, m))
  }

  function Write(o: Options, s: State, m: OutMessage): (State, Reply)
    requires !WritePanics(o, s, m)
  {
    var (s1, r1) := OfferSchema(o, s, m);
    if r1.Err? then (s1, r1)
    else
      OfferSchemaKeepsChannels(o, s, m);
      var (s2, r2) := OfferChannel(o, s1, m);
      if r2.Err? then (s2, r2) else WriteKnown(o, s2, m.channelId, m.header, m.data)
  }

  function WritePrivate(o: Options, s: State, op: byte, data: bytes, inChunks: bool): (State, Reply) {
    if op < 0x80 then (s, Err(OpcodeIsReserved)) else Put(s, Private(op, data), o.useChunks && inChunks)
  }

  function StartAttachment(s: State, length: nat, h: AttachmentHeader): (State, Reply) {
    if s.open.InAttachment? then (s, Err(AttachmentNotInProgress))
    else (Closed(s).(open := InAttachment(h, length, [])), Ok)
  }

  function PutAttachment(s: State, data: bytes): (State, Reply) {
    if !s.open.InAttachment? then (s, Err(AttachmentNotInProgress))
    else
      var total := |s.open.content| + |data|;
      if total > s.open.length then (s, Err(AttachmentTooLarge(total - s.open.length, s.open.length)))
      else (s.(open := s.open.(content := s.open.content + data)), Ok)
  }

  /** Finishing too early leaves the writer without its output. */
  function FinishAttachment(s: State): (State, Reply) {
    if !s.open.InAttachment? then (s, Err(AttachmentNotInProgress))
    else if |s.open.content| != s.open.length then
      (s.(open := Taken), Err(AttachmentIncomplete(s.open.length, |s.open.content|)))
    else (s.(items := s.items + [AttachmentOf(s.open.header, s.open.content)], open := Idle), Ok)
  }

  function Attach(s: State, h: AttachmentHeader, data: bytes): (State, Reply) {
    var (s1, r1) := StartAttachment(s, |data|, h);
    if r1.Err? then (s1, r1)
    else
      var (s2, r2) := PutAttachment(s1, data);
      if r2.Err? then (s2, r2) else FinishAttachment(s2)
  }

  function WriteMetadata(s: State, name: bytes, metadata: StringMap): (State, Reply) {
    Put(s, Typed(Metadata(name, metadata)), false)
  }

  function Flush(s: State): (State, Reply) {
    if s.open.InAttachment? then (s, Err(AttachmentNotInProgress)) else (Closed(s), Ok)
  }
}
