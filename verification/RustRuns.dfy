/** Whole runs of the Rust writer: any calls in any order. What is true of the state
    machine's IDs, records and counts after every run. */
module RustRuns {
  import opened Bytes
  import opened Format
  import opened Records
  import opened RustLayout
  import opened RustRegistry
  import opened RustMachine

  datatype Call =
    | CallAddSchema(schema: SchemaContent)
    | CallAddChannel(channel: ChannelContent)
    | CallWrite(message: OutMessage)
    | CallWriteKnown(channelId: nat, header: MessageHeader, data: bytes)
    | CallPrivate(op: byte, data: bytes, inChunks: bool)
    | CallStartAttachment(length: nat, attachment: AttachmentHeader)
    | CallPut(data: bytes)
    | CallFinishAttachment
    | CallAttach(attachment: AttachmentHeader, data: bytes)
    | CallMetadata(name: bytes, metadata: StringMap)
    | CallFlush

  /** IDs are 16-bit integers. */
  predicate InRange(c: Call) {
    c.CallWrite? ==> c.message.channelId <= LAST_ID && (c.message.schema.Some? ==> c.message.schema.value.0 <= LAST_ID)
  }

  /** The calls on which the writer panics: any use of the output after an attachment was
      finished too early, a 16-bit ID counter that would overflow, and a taken ID offered
      with content that was never seen. */
  predicate Panics(o: Options, s: State, c: Call)
    requires s.schemas.next <= LAST_ID && s.channels.next <= LAST_ID
  {
    || (s.open.Taken? && !c.CallPut? && !c.CallFinishAttachment?)
    || (c.CallAddSchema? && Overflows(s.schemas, c.schema))
    || (c.CallAddChannel? && Overflows(s.channels, c.channel))
    || (c.CallWrite? && WritePanics(o, s, c.message))
  }

  function Step(o: Options, s: State, c: Call): (State, Reply)
    requires s.schemas.next <= LAST_ID && s.channels.next <= LAST_ID && !Panics(o, s, c)
  {
    match c
    case CallAddSchema(d) => AddSchema(o, s, d)
    case CallAddChannel(d) => AddChannel(o, s, d)
    case CallWrite(m) => Write(o, s, m)
    case CallWriteKnown(id, h, d) => WriteKnown(o, s, id, h, d)
    case CallPrivate(op, d, i) => WritePrivate(o, s, op, d, i)
    case CallStartAttachment(l, h) => StartAttachment(s, l, h)
    case CallPut(d) => PutAttachment(s, d)
    case CallFinishAttachment => FinishAttachment(s)
    case CallAttach(h, d) => Attach(s, h, d)
    case CallMetadata(n, m) => WriteMetadata(s, n, m)
    case CallFlush => Flush(s)
  }

  // ---------- the records of a state ----------

  /** The records of an item, in order. */
  function EntriesOf(item: Item): seq<Entry> {
    match item
    case Lone(e) => [e]
    case ChunkOf(es) => es
    case AttachmentOf(_, _) => []
  }

  function EntriesIn(items: seq<Item>): seq<Entry>
    decreases |items|
  {
    if items == [] then [] else EntriesIn(items[..|items| - 1]) + EntriesOf(items[|items| - 1])
  }

  /** Every record written so far, in order, those of the open chunk included. */
  function AllEntries(s: State): seq<Entry> {
    EntriesIn(s.items) + (if s.open.InChunk? then s.open.entries else [])
  }

  lemma EntriesMore(items: seq<Item>, item: Item)
    ensures EntriesIn(items + [item]) == EntriesIn(items) + EntriesOf(item)
  {
    assert (items + [item])[..|items|] == items;
  }

  /** Closing a chunk moves its records without changing them. */
  lemma ClosedKeepsEntries(s: State)
    ensures AllEntries(Closed(s)) == AllEntries(s)
  {
    if s.open.InChunk? {
      EntriesMore(s.items, ChunkOf(s.open.entries));
    }
  }

  /** A write appends one record or, refused, changes nothing. */
  lemma PutAppends(s: State, e: Entry, chunked: bool)
    ensures var (t, r) := Put(s, e, chunked);
            AllEntries(t) == AllEntries(s) + (if r.Err? then [] else [e]) &&
            (r.Err? <==> s.open.InAttachment?) && (r.Err? ==> t == s && r == Err(AttachmentNotInProgress)) &&
            (!r.Err? ==> r == Ok) &&
            t == s.(items := t.items, open := t.open)
  {
    if s.open.InAttachment? {
      assert AllEntries(s) + [] == AllEntries(s);
    } else if chunked {
      if s.open.InChunk? {
        assert EntriesIn(s.items) + (s.open.entries + [e]) == (EntriesIn(s.items) + s.open.entries) + [e];
      } else {
        assert EntriesIn(s.items) + [] == EntriesIn(s.items);
      }
    } else {
      var c := Closed(s);
      ClosedKeepsEntries(s);
      EntriesMore(c.items, Lone(e));
      assert EntriesIn(c.items) + [] == EntriesIn(c.items);
      assert EntriesIn(c.items + [Lone(e)]) + [] == EntriesIn(c.items + [Lone(e)]);
    }
  }

  // ---------- IDs keep the content they were written with ----------

  /** The ID a record declares or uses is registered, with the record's content. */
  ghost predicate Registered(schemas: Registry<SchemaContent>, channels: Registry<ChannelContent>, e: Entry)
    requires schemas.Valid() && channels.Valid()
  {
    e.Typed? ==>
      match e.record
      case Schema(id, n, k, d) => id in schemas.all && schemas.Content(id) == SchemaContent(n, k, d)
      case Channel(id, sid, t, k, m) => id in channels.all && channels.Content(id) == ChannelContent(sid, t, k, m)
      case Message(id, _, _, _, _) => id in channels.all
      case _ => true
  }

  ghost predicate AllRegistered(schemas: Registry<SchemaContent>, channels: Registry<ChannelContent>, es: seq<Entry>)
    requires schemas.Valid() && channels.Valid()
  {
    forall i :: 0 <= i < |es| ==> Registered(schemas, channels, es[i])
  }

  /** Channels name no schema or one that is registered. */
  ghost predicate SchemasKnown(schemas: Registry<SchemaContent>, channels: Registry<ChannelContent>)
    requires channels.Valid()
  {
    forall id :: id in channels.all ==> channels.Content(id).schemaId == 0 || channels.Content(id).schemaId in schemas.all
  }

  /** What every reachable state satisfies. */
  ghost predicate Sane(s: State) {
    && s.schemas.Valid() && s.channels.Valid()
    && AllRegistered(s.schemas, s.channels, AllEntries(s))
    && SchemasKnown(s.schemas, s.channels)
  }

  lemma RegisteredStays(s: State, schemas: Registry<SchemaContent>, channels: Registry<ChannelContent>)
    requires Sane(s) && schemas.Valid() && channels.Valid()
    requires Keeps(s.schemas, schemas) && Keeps(s.channels, channels)
    ensures AllRegistered(schemas, channels, AllEntries(s))
  {
    hide AllEntries, Registry.Valid, Registry.Content;
    var es := AllEntries(s);
    forall i | 0 <= i < |es| ensures Registered(schemas, channels, es[i]) {
      assert Registered(s.schemas, s.channels, es[i]);
    }
  }

  lemma KeepsItself<T>(r: Registry<T>)
    requires r.Valid()
    ensures Keeps(r, r)
  {
  }

  /** Writing a record whose ID is registered keeps a state sane. */
  lemma PutKeepsSane(s: State, e: Entry, chunked: bool)
    requires Sane(s) && Registered(s.schemas, s.channels, e)
    ensures Sane(Put(s, e, chunked).0)
  {
    hide AllEntries, Put, Registered, SchemasKnown, Registry.Valid;
    PutAppends(s, e, chunked);
    assert AllEntries(s) + [] == AllEntries(s);
  }

  /** Registering a schema keeps a state sane. */
  lemma NewSchemaKeepsSane(s: State, r: Registry<SchemaContent>)
    requires Sane(s) && r.Valid() && Keeps(s.schemas, r)
    ensures Sane(s.(schemas := r))
  {
    hide Registry.Valid, Registered, Registry.Content, AllEntries;
    KeepsItself(s.channels);
    RegisteredStays(s, r, s.channels);
    SameEntries(s, s.(schemas := r));
  }

  lemma SameEntries(s: State, t: State)
    requires s.items == t.items && s.open == t.open
    ensures AllEntries(s) == AllEntries(t)
  {
  }

  /** So does registering a channel that names no schema or a registered one. */
  lemma NewChannelKeepsSane(s: State, r: Registry<ChannelContent>, c: ChannelContent)
    requires Sane(s) && r.Valid() && Keeps(s.channels, r)
    requires forall id :: id in r.all && id !in s.channels.all ==> r.Content(id) == c
    requires c.schemaId == 0 || c.schemaId in s.schemas.all
    ensures Sane(s.(channels := r))
  {
    hide Registry.Valid, Registered, Registry.Content, AllEntries;
    KeepsItself(s.schemas);
    RegisteredStays(s, s.schemas, r);
    SameEntries(s, s.(channels := r));
  }

  lemma AddedOnly(r: Registry<ChannelContent>, c: ChannelContent)
    requires r.Valid() && !Overflows(r, c)
    ensures var a := Add(r, c);
            (a.Fresh? ==> forall id :: id in a.registry.all && id !in r.all ==> id == a.id) &&
            (a.Full? ==> a.registry.all == r.all)
  {
  }

  lemma OfferedOnly(r: Registry<ChannelContent>, id: nat, c: ChannelContent)
    requires r.Valid() && id <= LAST_ID && !OfferPanics(r, id, c)
    ensures var a := Offer(r, id, c);
            a.Accepted? ==> forall k :: k in a.registry.all && k !in r.all ==> k == id
  {
  }

  lemma AddSchemaKeepsSane(o: Options, s: State, c: SchemaContent)
    requires Sane(s) && !Overflows(s.schemas, c)
    ensures Sane(AddSchema(o, s, c).0)
  {
    hide Put, Registry.Valid, Registry.Content, AllEntries, Add, Keeps, SchemasKnown, AllRegistered, Overflows;
    AddIsSound(s.schemas, c);
    NextInRange(s.schemas);
    match Add(s.schemas, c)
    case Existing(id) =>
    case Full(g) => NewSchemaKeepsSane(s, g);
    case Fresh(id, g) =>
      NewSchemaKeepsSane(s, g);
      PutKeepsSane(s.(schemas := g), SchemaEntry(id, c), o.useChunks);
  }

  lemma NextInRange<T>(r: Registry<T>)
    requires r.Valid()
    ensures r.next <= LAST_ID
  {
  }

  lemma AddChannelKeepsSane(o: Options, s: State, c: ChannelContent)
    requires Sane(s) && !Overflows(s.channels, c)
    ensures Sane(AddChannel(o, s, c).0)
  {
    hide Put, Registry.Valid, Registry.Content, AllEntries, Add, Keeps, SchemasKnown, AllRegistered, Overflows;
    AddIsSound(s.channels, c);
    AddedOnly(s.channels, c);
    NextInRange(s.channels);
    if !s.channels.Knows(c) && (c.schemaId == 0 || c.schemaId in s.schemas.all) {
      match Add(s.channels, c)
      case Existing(id) =>
      case Full(g) => NewChannelKeepsSane(s, g, c);
      case Fresh(id, g) =>
        NewChannelKeepsSane(s, g, c);
        PutKeepsSane(s.(channels := g), ChannelEntry(id, c), o.useChunks);
    }
  }

  lemma OfferSchemaKeepsSane(o: Options, s: State, m: OutMessage)
    requires Sane(s) && !SchemaPanics(s, m) && InRange(CallWrite(m))
    ensures var (t, r) := OfferSchema(o, s, m);
            Sane(t) && (!r.Err? ==> m.schema.None? || m.schema.value.0 in t.schemas.all)
  {
    hide Put, Registry.Valid, Registry.Content, AllEntries, Offer, Keeps, SchemasKnown, AllRegistered, OfferPanics;
    if m.schema.Some? {
      var (id, c) := m.schema.value;
      OfferIsSound(s.schemas, id, c);
      match Offer(s.schemas, id, c)
      case Agreed =>
      case Conflicting =>
      case Accepted(g) =>
        NewSchemaKeepsSane(s, g);
        PutKeepsSane(s.(schemas := g), SchemaEntry(id, c), o.useChunks);
        PutAppends(s.(schemas := g), SchemaEntry(id, c), o.useChunks);
    }
  }

  lemma OfferChannelKeepsSane(o: Options, s: State, m: OutMessage)
    requires Sane(s) && !ChannelPanics(s, m) && InRange(CallWrite(m))
    requires m.schema.None? || m.schema.value.0 in s.schemas.all
    ensures Sane(OfferChannel(o, s, m).0)
  {
    hide Put, Registry.Valid, Registry.Content, AllEntries, Offer, Keeps, SchemasKnown, AllRegistered, OfferPanics;
    var c := ContentOf(m);
    OfferIsSound(s.channels, m.channelId, c);
    OfferedOnly(s.channels, m.channelId, c);
    match Offer(s.channels, m.channelId, c)
    case Agreed =>
    case Conflicting =>
    case Accepted(g) =>
      NewChannelKeepsSane(s, g, c);
      PutKeepsSane(s.(channels := g), ChannelEntry(m.channelId, c), o.useChunks);
  }

  lemma RolledKeepsEntries(o: Options, s: State)
    ensures AllEntries(Rolled(o, s)) == AllEntries(s)
    ensures Rolled(o, s) == s.(items := Rolled(o, s).items, open := Rolled(o, s).open)
    ensures Rolled(o, s).open.InAttachment? == s.open.InAttachment?
    ensures s.open.InAttachment? ==> Rolled(o, s) == s
  {
    hide AllEntries, Raw;
    ClosedKeepsEntries(s);
  }

  lemma WriteKnownKeepsSane(o: Options, s: State, channelId: nat, h: MessageHeader, data: bytes)
    requires Sane(s)
    ensures Sane(WriteKnown(o, s, channelId, h, data).0)
  {
    hide Put, Registry.Valid, Registry.Content, AllEntries, Rolled, SchemasKnown, AllRegistered;
    if channelId in s.channels.all {
      var c := Counted(s, channelId, h.logTime);
      SameEntries(s, c);
      RolledKeepsEntries(o, c);
      PutKeepsSane(Rolled(o, c), MessageEntry(channelId, h, data), o.useChunks);
    }
  }

  lemma WriteKeepsSane(o: Options, s: State, m: OutMessage)
    requires Sane(s) && !WritePanics(o, s, m) && InRange(CallWrite(m))
    ensures Sane(Write(o, s, m).0)
  {
    hide Sane, OfferSchema, OfferChannel, WriteKnown, SchemaPanics, OfferPanics;
    OfferSchemaKeepsSane(o, s, m);
    OfferSchemaKeepsChannels(o, s, m);
    var (s1, r1) := OfferSchema(o, s, m);
    if !r1.Err? {
      OfferChannelKeepsSane(o, s1, m);
      var (s2, r2) := OfferChannel(o, s1, m);
      WriteKnownKeepsSane(o, s2, m.channelId, m.header, m.data);
    }
  }

  /** Attachments leave the records and the registries alone. */
  lemma AttachmentKeepsEntries(s: State)
    ensures forall length, h :: AllEntries(StartAttachment(s, length, h).0) == AllEntries(s)
    ensures forall data :: AllEntries(PutAttachment(s, data).0) == AllEntries(s)
    ensures AllEntries(FinishAttachment(s).0) == AllEntries(s)
  {
    ClosedKeepsEntries(s);
    if s.open.InAttachment? {
      EntriesMore(s.items, AttachmentOf(s.open.header, s.open.content));
    }
  }

  lemma AttachKeepsSane(s: State, h: AttachmentHeader, data: bytes)
    requires Sane(s)
    ensures Sane(Attach(s, h, data).0)
  {
    hide AllEntries, Registry.Valid, AllRegistered, SchemasKnown;
    AttachmentKeepsEntries(s);
    var s1 := StartAttachment(s, |data|, h).0;
    AttachmentKeepsEntries(s1);
    AttachmentKeepsEntries(PutAttachment(s1, data).0);
  }

  /** Every call keeps a state sane. */
  lemma StepKeepsSane(o: Options, s: State, c: Call)
    requires Sane(s) && InRange(c) && !Panics(o, s, c)
    ensures Sane(Step(o, s, c).0)
  {
    hide AddSchema, AddChannel, Write, WriteKnown, Attach, AllEntries, Registry.Valid, AllRegistered, SchemasKnown, Put, WritePanics,
         Overflows;
    match c
    case CallAddSchema(d) => AddSchemaKeepsSane(o, s, d);
    case CallAddChannel(d) => AddChannelKeepsSane(o, s, d);
    case CallWrite(m) => WriteKeepsSane(o, s, m);
    case CallWriteKnown(id, h, d) => WriteKnownKeepsSane(o, s, id, h, d);
    case CallPrivate(op, d, i) =>
      if op >= 0x80 {
        PutKeepsSane(s, Private(op, d), o.useChunks && i);
      }
    case CallStartAttachment(l, h) => AttachmentKeepsEntries(s);
    case CallPut(d) => AttachmentKeepsEntries(s);
    case CallFinishAttachment => AttachmentKeepsEntries(s);
    case CallAttach(h, d) => AttachKeepsSane(s, h, d);
    case CallMetadata(n, m) => PutKeepsSane(s, Typed(Metadata(n, m)), false);
    case CallFlush => ClosedKeepsEntries(s);
  }

  // ---------- runs ----------

  /** None of the calls panics. */
  ghost predicate Safe(o: Options, s: State, calls: seq<Call>)
    requires Sane(s)
    decreases |calls|
  {
    calls == [] ||
    (NextInRange(s.schemas); NextInRange(s.channels);
     InRange(calls[0]) && !Panics(o, s, calls[0]) &&
     (StepKeepsSane(o, s, calls[0]);
      Safe(o, Step(o, s, calls[0]).0, calls[1..])))
  }

  /** The state after a run. */
  ghost function Run(o: Options, s: State, calls: seq<Call>): (t: State)
    requires Sane(s) && Safe(o, s, calls)
    ensures Sane(t)
    decreases |calls|
  {
    if calls == [] then s
    else
      NextInRange(s.schemas);
      NextInRange(s.channels);
      StepKeepsSane(o, s, calls[0]);
      Run(o, Step(o, s, calls[0]).0, calls[1..])
  }

  lemma InitialIsSane(o: Options)
    ensures Sane(Initial(o))
  {
    EmptyIsValid<SchemaContent>();
    EmptyIsValid<ChannelContent>();
    assert AllEntries(Initial(o)) == [Typed(Header(o.profile, o.library))] by {
      EntriesMore([], Initial(o).items[0]);
      assert [] + [Initial(o).items[0]] == Initial(o).items;
    }
  }

  // ---------- counting ----------

  /** Channel and log time of the messages among some records, in order. */
  function MessagesIn(es: seq<Entry>): seq<(nat, nat)>
    decreases |es|
  {
    if es == [] then []
    else
      var last := es[|es| - 1];
      MessagesIn(es[..|es| - 1]) + (if IsMessage(last) then [(last.record.messageChannel, last.record.logTime)] else [])
  }

  lemma MessagesMore(es: seq<Entry>, e: Entry)
    ensures MessagesIn(es + [e]) ==
            MessagesIn(es) + (if IsMessage(e) then [(e.record.messageChannel, e.record.logTime)] else [])
  {
    assert (es + [e])[..|es|] == es;
  }

  /** The message a call counts, whether or not it is then written. */
  function CountedBy(o: Options, s: State, c: Call): Option<(nat, nat)>
    requires !(c.CallWrite? && WritePanics(o, s, c.message))
  {
    match c
    case CallWriteKnown(id, h, _) => if id in s.channels.all then Some((id, h.logTime)) else None
    case CallWrite(m) =>
      var (s1, r1) := OfferSchema(o, s, m);
      if r1.Err? then None
      else
        OfferSchemaKeepsChannels(o, s, m);
        if OfferChannel(o, s1, m).1.Err? then None else Some((m.channelId, m.header.logTime))
    case _ => None
  }

  /** A call that counts a message although an attachment is open, so that it is refused. */
  predicate Loses(o: Options, s: State, c: Call)
    requires !(c.CallWrite? && WritePanics(o, s, c.message))
  {
    CountedBy(o, s, c).Some? && s.open.InAttachment?
  }

  /** The messages counted so far, and how many of them were not written. */
  datatype Ledger = Ledger(told: seq<(nat, nat)>, lost: nat)

  function Noted(o: Options, s: State, c: Call, l: Ledger): Ledger
    requires !(c.CallWrite? && WritePanics(o, s, c.message))
  {
    var m := CountedBy(o, s, c);
    Ledger(if m.Some? then l.told + [m.value] else l.told, if Loses(o, s, c) then l.lost + 1 else l.lost)
  }

  function CountsOf(told: seq<(nat, nat)>): map<nat, nat>
    decreases |told|
  {
    if told == [] then map[] else Count(CountsOf(told[..|told| - 1]), told[|told| - 1].0)
  }

  function SpanOf(told: seq<(nat, nat)>): Bounds
    decreases |told|
  {
    if told == [] then None else Widened(SpanOf(told[..|told| - 1]), told[|told| - 1].1)
  }

  lemma ToldMore(told: seq<(nat, nat)>, m: (nat, nat))
    ensures CountsOf(told + [m]) == Count(CountsOf(told), m.0)
    ensures SpanOf(told + [m]) == Widened(SpanOf(told), m.1)
  {
    assert (told + [m])[..|told|] == told;
  }

  /** The state's counters are those of the ledger, and the ledger is about the records. */
  ghost predicate Accounts(s: State, l: Ledger) {
    var written := MessagesIn(AllEntries(s));
    && s.counts == CountsOf(l.told)
    && s.bounds == SpanOf(l.told)
    && |l.told| == |written| + l.lost
    && (l.lost == 0 ==> written == l.told)
    && (forall m :: m in l.told ==> m.0 <= LAST_ID)
  }

  /** A record other than a message changes no account. */
  lemma PutKeepsAccounts(s: State, e: Entry, chunked: bool, l: Ledger)
    requires Accounts(s, l) && !IsMessage(e)
    ensures Accounts(Put(s, e, chunked).0, l)
  {
    hide AllEntries, Put, CountsOf, SpanOf, MessagesIn;
    PutAppends(s, e, chunked);
    MessagesMore(AllEntries(s), e);
    assert MessagesIn(AllEntries(s)) + [] == MessagesIn(AllEntries(s));
  }

  lemma SameAccounts(s: State, t: State, l: Ledger)
    requires Accounts(s, l) && AllEntries(s) == AllEntries(t) && s.counts == t.counts && s.bounds == t.bounds
    ensures Accounts(t, l)
  {
  }

  /** Counting a message, rolling the chunk and writing the message or failing to. */
  lemma WriteKnownAccounts(o: Options, s: State, id: nat, h: MessageHeader, data: bytes, l: Ledger)
    requires Accounts(s, l) && s.channels.Valid()
    ensures Accounts(WriteKnown(o, s, id, h, data).0, Noted(o, s, CallWriteKnown(id, h, data), l))
  {
    hide AllEntries, Put, CountsOf, SpanOf, MessagesIn, Widened, Count, Rolled;
    if id in s.channels.all {
      var c := Counted(s, id, h.logTime);
      var e := MessageEntry(id, h, data);
      SameEntries(s, c);
      RolledKeepsEntries(o, c);
      PutAppends(Rolled(o, c), e, o.useChunks);
      MessagesMore(AllEntries(s), e);
      ToldMore(l.told, (id, h.logTime));
    }
  }

  lemma OfferSchemaAccounts(o: Options, s: State, m: OutMessage, l: Ledger)
    requires Accounts(s, l) && !SchemaPanics(s, m)
    ensures var (t, r) := OfferSchema(o, s, m);
            Accounts(t, l) && (!r.Err? ==> t.open.InAttachment? == s.open.InAttachment?)
  {
    hide AllEntries, Put, CountsOf, SpanOf, MessagesIn, Accounts, OfferPanics;
    if m.schema.Some? && Offer(s.schemas, m.schema.value.0, m.schema.value.1).Accepted? {
      var g := Offer(s.schemas, m.schema.value.0, m.schema.value.1).registry;
      var e := SchemaEntry(m.schema.value.0, m.schema.value.1);
      SameEntries(s, s.(schemas := g));
      SameAccounts(s, s.(schemas := g), l);
      PutKeepsAccounts(s.(schemas := g), e, o.useChunks, l);
      PutOpens(s.(schemas := g), e, o.useChunks);
    }
  }

  lemma PutOpens(s: State, e: Entry, chunked: bool)
    ensures Put(s, e, chunked).0.open.InAttachment? == s.open.InAttachment?
  {
  }

  lemma OfferChannelAccounts(o: Options, s: State, m: OutMessage, l: Ledger)
    requires Accounts(s, l) && !ChannelPanics(s, m)
    ensures var (t, r) := OfferChannel(o, s, m);
            Accounts(t, l) && (!r.Err? ==> t.open.InAttachment? == s.open.InAttachment? && m.channelId in t.channels.all)
  {
    hide AllEntries, CountsOf, SpanOf, MessagesIn, Accounts, Put;
    var c := ContentOf(m);
    var a := Offer(s.channels, m.channelId, c);
    if a.Accepted? {
      var e := ChannelEntry(m.channelId, c);
      SameEntries(s, s.(channels := a.registry));
      SameAccounts(s, s.(channels := a.registry), l);
      PutKeepsAccounts(s.(channels := a.registry), e, o.useChunks, l);
      PutAppends(s.(channels := a.registry), e, o.useChunks);
      PutOpens(s.(channels := a.registry), e, o.useChunks);
    }
  }

  lemma WriteAccounts(o: Options, s: State, m: OutMessage, l: Ledger)
    requires Sane(s) && Accounts(s, l) && !WritePanics(o, s, m) && InRange(CallWrite(m))
    ensures Accounts(Write(o, s, m).0, Noted(o, s, CallWrite(m), l))
  {
    hide Accounts, OfferSchema, OfferChannel, WriteKnown, SchemaPanics, OfferPanics, AllRegistered, SchemasKnown, Registry.Valid;
    OfferSchemaKeepsSane(o, s, m);
    OfferSchemaAccounts(o, s, m, l);
    OfferSchemaKeepsChannels(o, s, m);
    var (s1, r1) := OfferSchema(o, s, m);
    if !r1.Err? {
      OfferChannelKeepsSane(o, s1, m);
      OfferChannelAccounts(o, s1, m, l);
      var (s2, r2) := OfferChannel(o, s1, m);
      if !r2.Err? {
        WriteKnownAccounts(o, s2, m.channelId, m.header, m.data, l);
      }
    }
  }

  lemma AddSchemaAccounts(o: Options, s: State, c: SchemaContent, l: Ledger)
    requires Accounts(s, l) && s.schemas.next <= LAST_ID
    ensures Accounts(AddSchema(o, s, c).0, l)
  {
    hide AllEntries, Put, CountsOf, SpanOf, MessagesIn, Accounts;
    match Add(s.schemas, c)
    case Existing(_) =>
    case Full(g) =>
      SameEntries(s, s.(schemas := g));
      SameAccounts(s, s.(schemas := g), l);
    case Fresh(id, g) =>
      SameEntries(s, s.(schemas := g));
      SameAccounts(s, s.(schemas := g), l);
      PutKeepsAccounts(s.(schemas := g), SchemaEntry(id, c), o.useChunks, l);
  }

  lemma AddChannelAccounts(o: Options, s: State, c: ChannelContent, l: Ledger)
    requires Accounts(s, l) && s.channels.next <= LAST_ID
    ensures Accounts(AddChannel(o, s, c).0, l)
  {
    hide AllEntries, Put, CountsOf, SpanOf, MessagesIn, Accounts;
    match Add(s.channels, c)
    case Existing(_) =>
    case Full(g) =>
      SameEntries(s, s.(channels := g));
      SameAccounts(s, s.(channels := g), l);
    case Fresh(id, g) =>
      SameEntries(s, s.(channels := g));
      SameAccounts(s, s.(channels := g), l);
      PutKeepsAccounts(s.(channels := g), ChannelEntry(id, c), o.useChunks, l);
  }

  lemma AttachAccounts(s: State, h: AttachmentHeader, data: bytes, l: Ledger)
    requires Accounts(s, l)
    ensures Accounts(Attach(s, h, data).0, l)
  {
    hide AllEntries, Accounts;
    AttachmentKeepsEntries(s);
    var s1 := StartAttachment(s, |data|, h).0;
    AttachmentKeepsEntries(s1);
    AttachmentKeepsEntries(PutAttachment(s1, data).0);
    SameAccounts(s, Attach(s, h, data).0, l);
  }

  /** Every call keeps the accounts. */
  lemma StepAccounts(o: Options, s: State, c: Call, l: Ledger)
    requires Sane(s) && Accounts(s, l) && InRange(c) && !Panics(o, s, c)
    ensures Accounts(Step(o, s, c).0, Noted(o, s, c, l))
  {
    hide AddSchema, AddChannel, Write, WriteKnown, Attach, AllEntries, Registry.Valid, AllRegistered, SchemasKnown, Put, WritePanics,
         Overflows, Accounts, StartAttachment, PutAttachment, FinishAttachment;
    NextInRange(s.schemas);
    NextInRange(s.channels);
    match c
    case CallAddSchema(d) => AddSchemaAccounts(o, s, d, l);
    case CallAddChannel(d) => AddChannelAccounts(o, s, d, l);
    case CallWrite(m) => WriteAccounts(o, s, m, l);
    case CallWriteKnown(id, h, d) => WriteKnownAccounts(o, s, id, h, d, l);
    case CallPrivate(op, d, i) => PutKeepsAccounts(s, Private(op, d), o.useChunks && i, l);
    case CallAttach(h, d) => AttachAccounts(s, h, d, l);
    case CallMetadata(n, m) => PutKeepsAccounts(s, Typed(Metadata(n, m)), false, l);
    case CallStartAttachment(_, _) => QuietStep(o, s, c, l);
    case CallPut(_) => QuietStep(o, s, c, l);
    case CallFinishAttachment => QuietStep(o, s, c, l);
    case CallFlush => QuietStep(o, s, c, l);
  }

  lemma QuietStep(o: Options, s: State, c: Call, l: Ledger)
    requires s.schemas.next <= LAST_ID && s.channels.next <= LAST_ID && !Panics(o, s, c) && Accounts(s, l)
    requires c.CallStartAttachment? || c.CallPut? || c.CallFinishAttachment? || c.CallFlush?
    ensures Accounts(Step(o, s, c).0, l)
  {
    hide AllEntries, Accounts;
    AttachmentKeepsEntries(s);
    ClosedKeepsEntries(s);
    SameAccounts(s, Step(o, s, c).0, l);
  }

  /** The ledger of a run. */
  ghost function LedgerOf(o: Options, s: State, calls: seq<Call>, l: Ledger): Ledger
    requires Sane(s) && Safe(o, s, calls)
    decreases |calls|
  {
    if calls == [] then l
    else
      NextInRange(s.schemas);
      NextInRange(s.channels);
      StepKeepsSane(o, s, calls[0]);
      LedgerOf(o, Step(o, s, calls[0]).0, calls[1..], Noted(o, s, calls[0], l))
  }

  lemma {:induction false} RunAccounts(o: Options, s: State, calls: seq<Call>, l: Ledger)
    requires Sane(s) && Safe(o, s, calls) && Accounts(s, l)
    ensures Accounts(Run(o, s, calls), LedgerOf(o, s, calls, l))
    decreases |calls|
  {
    hide Registry.Valid, AllRegistered, SchemasKnown, Accounts, Step, Noted, WritePanics, Overflows;
    if calls != [] {
      NextInRange(s.schemas);
      NextInRange(s.channels);
      StepKeepsSane(o, s, calls[0]);
      StepAccounts(o, s, calls[0], l);
      RunAccounts(o, Step(o, s, calls[0]).0, calls[1..], Noted(o, s, calls[0], l));
    }
  }

  // ---------- IDs keep their meaning ----------

  /** Every ID of `s` stands for the same content in `t`. */
  ghost predicate IdsKept(s: State, t: State)
    requires Sane(s) && Sane(t)
  {
    Keeps(s.schemas, t.schemas) && Keeps(s.channels, t.channels)
  }

  lemma PutKeepsIds(s: State, e: Entry, chunked: bool)
    ensures Put(s, e, chunked).0.schemas == s.schemas && Put(s, e, chunked).0.channels == s.channels
  {
  }

  lemma AddKeepsIds(o: Options, s: State, c: Call)
    requires Sane(s) && !Panics(o, s, c) && (c.CallAddSchema? || c.CallAddChannel?)
    ensures Sane(Step(o, s, c).0) && IdsKept(s, Step(o, s, c).0)
  {
    hide Registry.Valid, Registry.Content, Add, AllRegistered, SchemasKnown, Overflows, AllEntries;
    StepKeepsSane(o, s, c);
    KeepsItself(s.schemas);
    KeepsItself(s.channels);
    match c
    case CallAddSchema(d) => AddIsSound(s.schemas, d);
    case CallAddChannel(d) => AddIsSound(s.channels, d);
  }

  lemma OffersKeepIds(o: Options, s: State, m: OutMessage)
    requires Sane(s) && !WritePanics(o, s, m) && InRange(CallWrite(m))
    ensures Sane(Write(o, s, m).0) && IdsKept(s, Write(o, s, m).0)
  {
    hide Registry.Valid, Registry.Content, Offer, AllRegistered, SchemasKnown, AllEntries, OfferPanics, Rolled;
    WriteKeepsSane(o, s, m);
    KeepsItself(s.schemas);
    KeepsItself(s.channels);
    if m.schema.Some? {
      OfferIsSound(s.schemas, m.schema.value.0, m.schema.value.1);
    }
    OfferSchemaKeepsChannels(o, s, m);
    if !OfferSchema(o, s, m).1.Err? {
      OfferIsSound(s.channels, m.channelId, ContentOf(m));
      var s2 := OfferChannel(o, OfferSchema(o, s, m).0, m).0;
      RolledKeepsEntries(o, Counted(s2, m.channelId, m.header.logTime));
    }
  }

  lemma StepKeepsIds(o: Options, s: State, c: Call)
    requires Sane(s) && InRange(c) && !Panics(o, s, c)
    ensures Sane(Step(o, s, c).0) && IdsKept(s, Step(o, s, c).0)
  {
    hide AddSchema, AddChannel, Write, Registry.Valid, Registry.Content, AllRegistered, SchemasKnown, AllEntries, WritePanics,
         Overflows, Keeps, Rolled, Counted;
    StepKeepsSane(o, s, c);
    KeepsItself(s.schemas);
    KeepsItself(s.channels);
    match c
    case CallAddSchema(_) => AddKeepsIds(o, s, c);
    case CallAddChannel(_) => AddKeepsIds(o, s, c);
    case CallWrite(m) => OffersKeepIds(o, s, m);
    case CallWriteKnown(id, h, d) => WriteKnownKeepsIds(o, s, id, h, d);
    case _ =>
  }

  lemma WriteKnownKeepsIds(o: Options, s: State, id: nat, h: MessageHeader, data: bytes)
    ensures WriteKnown(o, s, id, h, data).0.schemas == s.schemas && WriteKnown(o, s, id, h, data).0.channels == s.channels
  {
    hide Put, Rolled;
    var c := Counted(s, id, h.logTime);
    RolledKeepsEntries(o, c);
    PutKeepsIds(Rolled(o, c), MessageEntry(id, h, data), o.useChunks);
  }

  /** Whatever calls follow, an ID once registered keeps standing for the same content. */
  lemma {:induction false} RunKeepsIds(o: Options, s: State, calls: seq<Call>)
    requires Sane(s) && Safe(o, s, calls)
    ensures IdsKept(s, Run(o, s, calls))
    decreases |calls|
  {
    hide Registry.Valid, Registry.Content, AllRegistered, SchemasKnown, Step, Panics, Keeps;
    if calls == [] {
      KeepsItself(s.schemas);
      KeepsItself(s.channels);
    } else {
      NextInRange(s.schemas);
      NextInRange(s.channels);
      StepKeepsIds(o, s, calls[0]);
      var t := Step(o, s, calls[0]).0;
      RunKeepsIds(o, t, calls[1..]);
      var u := Run(o, t, calls[1..]);
      KeepsTransitive(s.schemas, t.schemas, u.schemas);
      KeepsTransitive(s.channels, t.channels, u.channels);
    }
  }
}
