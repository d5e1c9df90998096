/** The Rust `ChannelAccumulator`, which follows the schema and channel records of a data
    section, and which files of the Rust writer it accepts. */
module RustAccumulator {
  import opened Bytes
  import opened Format
  import opened Records
  import opened RustLayout
  import opened RustRegistry
  import opened RustMachine
  import opened RustRuns

  /** The schemas and channels met so far. */
  datatype Directory = Directory(schemas: map<nat, SchemaContent>, channels: map<nat, ChannelContent>)

  /** After one more record; nothing, if the record is refused. */
  function Met(k: Directory, e: Entry): Option<Directory> {
    if !e.Typed? then Some(k)
    else
      match e.record
      case Schema(id, n, enc, d) =>
        var c := SchemaContent(n, enc, d);
        if id == 0 || (id in k.schemas && k.schemas[id] != c) then None else Some(k.(schemas := k.schemas[id := c]))
      case Channel(id, sid, t, enc, m) =>
        var c := ChannelContent(sid, t, enc, m);
        if (sid != 0 && sid !in k.schemas) || (id in k.channels && k.channels[id] != c) then None
        else Some(k.(channels := k.channels[id := c]))
      case _ => Some(k)
  }

  function Accumulate(es: seq<Entry>): Option<Directory>
    decreases |es|
  {
    if es == [] then Some(Directory(map[], map[]))
    else
      match Accumulate(es[..|es| - 1])
      case None => None
      case Some(k) => Met(k, es[|es| - 1])
  }

  class ChannelAccumulator {
    var schemas: map<nat, SchemaContent>
    var channels: map<nat, ChannelContent>

    constructor ()
      ensures schemas == map[] && channels == map[]
    {
      schemas := map[];
      channels := map[];
    }

    method AddSchema(id: nat, c: SchemaContent) returns (ok: bool)
      modifies this
      ensures ok <==> id != 0 && (id in old(schemas) ==> old(schemas)[id] == c)
      ensures channels == old(channels) && schemas == if ok then old(schemas)[id := c] else old(schemas)
    {
      if id == 0 {
        return false;
      }
      if id in schemas {
        ok := schemas[id] == c;
        assert ok ==> schemas[id := c] == schemas;
      } else {
        schemas := schemas[id := c];
        ok := true;
      }
    }

    method AddChannel(id: nat, c: ChannelContent) returns (ok: bool)
      modifies this
      ensures ok <==> (c.schemaId == 0 || c.schemaId in old(schemas)) && (id in old(channels) ==> old(channels)[id] == c)
      ensures schemas == old(schemas) && channels == if ok then old(channels)[id := c] else old(channels)
    {
      if c.schemaId != 0 && c.schemaId !in schemas {
        return false;
      }
      if id in channels {
        ok := channels[id] == c;
        assert ok ==> channels[id := c] == channels;
      } else {
        channels := channels[id := c];
        ok := true;
      }
    }

    /** Takes in one record. */
    method Meet(e: Entry) returns (ok: bool)
      modifies this
      ensures ok <==> Met(Directory(old(schemas), old(channels)), e).Some?
      ensures ok ==> Met(Directory(old(schemas), old(channels)), e) == Some(Directory(schemas, channels))
    {
      ok := true;
      if e.Typed? {
        match e.record {
          case Schema(id, n, enc, d) => ok := AddSchema(id, SchemaContent(n, enc, d));
          case Channel(id, sid, t, enc, m) => ok := AddChannel(id, ChannelContent(sid, t, enc, m));
          case _ =>
        }
      }
    }

    /** Follows the records of a data section until one is refused. */
    method Follow(es: seq<Entry>) returns (ok: bool)
      requires schemas == map[] && channels == map[]
      modifies this
      ensures ok <==> Accumulate(es).Some?
      ensures ok ==> Accumulate(es).value == Directory(schemas, channels)
    {
      hide Met;
      var i := 0;
      while i < |es|
        invariant i <= |es|
        invariant Accumulate(es[..i]) == Some(Directory(schemas, channels))
      {
        AccumulateMore(es[..i], es[i]);
        assert es[..i] + [es[i]] == es[..i + 1];
        ok := Meet(es[i]);
        if !ok {
          RefusalStays(es, i + 1);
          return;
        }
        i := i + 1;
      }
      assert es[..i] == es;
      ok := true;
    }
  }

  lemma AccumulateMore(es: seq<Entry>, e: Entry)
    ensures Accumulate(es + [e]) == match Accumulate(es) case None => None case Some(k) => Met(k, e)
  {
    hide Met;
    assert (es + [e])[..|es|] == es;
  }

  lemma {:induction false} RefusalStays(es: seq<Entry>, n: nat)
    requires n <= |es| && Accumulate(es[..n]).None?
    ensures Accumulate(es).None?
    decreases |es|
  {
    hide Met;
    if n < |es| {
      assert es[..|es| - 1][..n] == es[..n];
      RefusalStays(es[..|es| - 1], n);
    } else {
      assert es[..n] == es;
    }
  }

  // ---------- which states are readable ----------

  /** What the registries of a state stand for. */
  ghost function Registries(s: State): Directory
    requires s.schemas.Valid() && s.channels.Valid()
  {
    Directory(map id | id in s.schemas.all :: s.schemas.Content(id), map id | id in s.channels.all :: s.channels.Content(id))
  }

  /** Following the records written so far succeeds and gives every registered schema and
      channel, with its content. */
  ghost predicate Readable(s: State)
    requires s.schemas.Valid() && s.channels.Valid()
  {
    Accumulate(AllEntries(s)) == Some(Registries(s))
  }

  ghost predicate Within(k: Directory, all: Directory) {
    && (forall id :: id in k.schemas ==> id in all.schemas && all.schemas[id] == k.schemas[id])
    && (forall id :: id in k.channels ==> id in all.channels && all.channels[id] == k.channels[id])
  }

  /** The records never claim more than the registries. */
  lemma {:induction false} FollowedIsRegistered(s: State, n: nat)
    requires Sane(s) && n <= |AllEntries(s)|
    ensures Accumulate(AllEntries(s)[..n]).Some? ==> Within(Accumulate(AllEntries(s)[..n]).value, Registries(s))
    decreases n
  {
    hide AllEntries, Registry.Valid, Registry.Content;
    var es := AllEntries(s);
    if n > 0 {
      FollowedIsRegistered(s, n - 1);
      AccumulateMore(es[..n - 1], es[n - 1]);
      assert es[..n - 1] + [es[n - 1]] == es[..n];
      assert Registered(s.schemas, s.channels, es[n - 1]);
    }
  }

  lemma FollowedWithin(s: State)
    requires Sane(s)
    ensures Accumulate(AllEntries(s)).Some? ==> Within(Accumulate(AllEntries(s)).value, Registries(s))
  {
    hide AllEntries, Registry.Valid, Registry.Content;
    FollowedIsRegistered(s, |AllEntries(s)|);
    assert AllEntries(s)[..|AllEntries(s)|] == AllEntries(s);
  }

  /** A record that is neither schema nor channel makes no difference. */
  lemma OtherRecords(s: State, e: Entry, chunked: bool)
    requires s.schemas.Valid() && s.channels.Valid() && !(e.Typed? && (e.record.Schema? || e.record.Channel?))
    ensures Readable(Put(s, e, chunked).0) <==> Readable(s)
  {
    hide AllEntries, Put, Registry.Valid, Registry.Content;
    PutAppends(s, e, chunked);
    AccumulateMore(AllEntries(s), e);
    assert AllEntries(s) + [] == AllEntries(s);
  }

  lemma SameReadable(s: State, t: State)
    requires s.schemas.Valid() && s.channels.Valid() && t.schemas.Valid() && t.channels.Valid()
    requires AllEntries(s) == AllEntries(t) && s.schemas.canonical == t.schemas.canonical && s.schemas.all == t.schemas.all
    requires s.channels.canonical == t.channels.canonical && s.channels.all == t.channels.all
    ensures Readable(s) <==> Readable(t)
  {
    hide AllEntries, Accumulate;
    assert Registries(s).schemas == Registries(t).schemas;
    assert Registries(s).channels == Registries(t).channels;
  }

  /** Registering and writing a new schema keeps a file readable exactly if it was, the record
      is really written, and the ID is not zero. */
  lemma NewSchema(s: State, g: Registry<SchemaContent>, id: nat, c: SchemaContent, chunked: bool)
    requires Sane(s) && g.Valid() && Keeps(s.schemas, g) && id !in s.schemas.all
    requires forall k :: k in g.all <==> k in s.schemas.all || k == id
    requires g.Content(id) == c
    ensures var t := Put(s.(schemas := g), SchemaEntry(id, c), chunked).0;
            Readable(t) <==> Readable(s) && id != 0 && !s.open.InAttachment?
  {
    hide AllEntries, Put, Registry.Valid, Registry.Content, AllRegistered, SchemasKnown, Accumulate;
    var s1 := s.(schemas := g);
    var e := SchemaEntry(id, c);
    SameEntries(s, s1);
    PutAppends(s1, e, chunked);
    var t := Put(s1, e, chunked).0;
    AccumulateMore(AllEntries(s), e);
    FollowedWithin(s);
    var a := Accumulate(AllEntries(s));
    if s.open.InAttachment? {
      assert AllEntries(s) + [] == AllEntries(s);
      assert id in Registries(t).schemas;
      assert a.Some? ==> id !in a.value.schemas;
    } else if a.Some? && id != 0 {
      var k := a.value;
      assert id !in k.schemas;
      assert Accumulate(AllEntries(t)) == Some(k.(schemas := k.schemas[id := c]));
      if Readable(s) {
        assert Registries(t).schemas == k.schemas[id := c];
      } else if Readable(t) {
        assert Registries(t).schemas == k.schemas[id := c] && Registries(t).channels == k.channels;
        assert Registries(s).channels == k.channels;
        OnlyOneMore(Registries(s).schemas, k.schemas, id, c, Registries(t).schemas);
      }
    }
  }

  /** Two maps that agree after the same new key is added were the same before. */
  lemma OnlyOneMore<T>(a: map<nat, T>, b: map<nat, T>, id: nat, c: T, after: map<nat, T>)
    requires id !in a && id !in b && after == b[id := c]
    requires forall k :: k in after <==> k in a || k == id
    requires forall k :: k in a ==> after[k] == a[k]
    ensures a == b
  {
    forall k | k in a ensures k in b && a[k] == b[k] {
      assert k in after;
    }
    forall k | k in b ensures k in a {
      assert k in after;
    }
  }

  /** The same for a new channel, whose schema is registered. */
  lemma NewChannel(s: State, g: Registry<ChannelContent>, id: nat, c: ChannelContent, chunked: bool)
    requires Sane(s) && g.Valid() && Keeps(s.channels, g) && id !in s.channels.all
    requires forall k :: k in g.all <==> k in s.channels.all || k == id
    requires g.Content(id) == c && (c.schemaId == 0 || c.schemaId in s.schemas.all)
    ensures var t := Put(s.(channels := g), ChannelEntry(id, c), chunked).0;
            Readable(t) <==> Readable(s) && !s.open.InAttachment?
  {
    hide AllEntries, Put, Registry.Valid, Registry.Content, AllRegistered, SchemasKnown, Accumulate;
    var s1 := s.(channels := g);
    var e := ChannelEntry(id, c);
    SameEntries(s, s1);
    PutAppends(s1, e, chunked);
    var t := Put(s1, e, chunked).0;
    AccumulateMore(AllEntries(s), e);
    FollowedWithin(s);
    var a := Accumulate(AllEntries(s));
    if s.open.InAttachment? {
      assert AllEntries(s) + [] == AllEntries(s);
      assert id in Registries(t).channels;
      assert a.Some? ==> id !in a.value.channels;
    } else if a.Some? {
      var k := a.value;
      assert id !in k.channels;
      if Readable(s) {
        assert Accumulate(AllEntries(t)) == Some(k.(channels := k.channels[id := c]));
        assert Registries(t).channels == k.channels[id := c];
      } else if Readable(t) {
        assert Registries(s).schemas == k.schemas;
        OnlyOneMore(Registries(s).channels, k.channels, id, c, Registries(t).channels);
      }
    }
  }

  // ---------- calls ----------

  predicate SchemaIsNew(s: State, m: OutMessage) {
    m.schema.Some? && m.schema.value.0 !in s.schemas.all
  }

  /** The message has no schema, or one that is registered under its ID. */
  predicate SchemaAgrees(s: State, m: OutMessage) {
    m.schema.Some? ==>
      m.schema.value.0 in s.schemas.all && s.schemas.Knows(m.schema.value.1) &&
      s.schemas.all[m.schema.value.0] == s.schemas.canonical.left[m.schema.value.1]
  }

  /** The calls that spoil a file for linear readers: registering something new while an
      attachment is open, and offering schema ID zero for the first time. */
  predicate Spoils(s: State, c: Call) {
    match c
    case CallAddSchema(d) =>
      s.open.InAttachment? && !s.schemas.Knows(d) && exists id :: s.schemas.next <= id <= LAST_ID && id !in s.schemas.all
    case CallAddChannel(d) =>
      s.open.InAttachment? && !s.channels.Knows(d) && (d.schemaId == 0 || d.schemaId in s.schemas.all) &&
      exists id :: s.channels.next <= id <= LAST_ID && id !in s.channels.all
    case CallWrite(m) =>
      if SchemaIsNew(s, m) then s.open.InAttachment? || m.schema.value.0 == 0
      else s.open.InAttachment? && m.channelId !in s.channels.all && SchemaAgrees(s, m)
    case _ => false
  }

  lemma AddedKeys<T>(r: Registry<T>, c: T)
    requires r.Valid() && !Overflows(r, c)
    ensures Add(r, c).Existing? <==> r.Knows(c)
    ensures Add(r, c).Fresh? <==> !r.Knows(c) && exists id :: r.next <= id <= LAST_ID && id !in r.all
    ensures Add(r, c).Fresh? ==> Add(r, c).id != 0
    ensures Add(r, c).Fresh? ==> forall k :: k in Add(r, c).registry.all <==> k in r.all || k == Add(r, c).id
    ensures Add(r, c).Full? ==> Add(r, c).registry.all == r.all && Add(r, c).registry.canonical == r.canonical
  {
  }

  lemma AddSchemaReadable(o: Options, s: State, c: SchemaContent)
    requires Sane(s) && !Overflows(s.schemas, c)
    ensures s.schemas.next <= LAST_ID && Sane(AddSchema(o, s, c).0)
    ensures Readable(AddSchema(o, s, c).0) <==> Readable(s) && !Spoils(s, CallAddSchema(c))
  {
    hide Put, Registry.Valid, Registry.Content, AllEntries, Add, Keeps, SchemasKnown, AllRegistered, Overflows, Readable;
    NextInRange(s.schemas);
    AddSchemaKeepsSane(o, s, c);
    AddIsSound(s.schemas, c);
    AddedKeys(s.schemas, c);
    match Add(s.schemas, c)
    case Existing(id) =>
    case Full(g) =>
      SameEntries(s, s.(schemas := g));
      SameReadable(s, s.(schemas := g));
    case Fresh(id, g) => NewSchema(s, g, id, c, o.useChunks);
  }

  lemma AddChannelReadable(o: Options, s: State, c: ChannelContent)
    requires Sane(s) && !Overflows(s.channels, c)
    ensures s.channels.next <= LAST_ID && Sane(AddChannel(o, s, c).0)
    ensures Readable(AddChannel(o, s, c).0) <==> Readable(s) && !Spoils(s, CallAddChannel(c))
  {
    hide Put, Registry.Valid, Registry.Content, AllEntries, Add, Keeps, SchemasKnown, AllRegistered, Overflows, Readable;
    NextInRange(s.channels);
    AddChannelKeepsSane(o, s, c);
    AddIsSound(s.channels, c);
    AddedKeys(s.channels, c);
    if !s.channels.Knows(c) && (c.schemaId == 0 || c.schemaId in s.schemas.all) {
      match Add(s.channels, c)
      case Existing(id) =>
      case Full(g) =>
        SameEntries(s, s.(channels := g));
        SameReadable(s, s.(channels := g));
      case Fresh(id, g) => NewChannel(s, g, id, c, o.useChunks);
    }
  }

  lemma OfferedKeys<T>(r: Registry<T>, id: nat, c: T)
    requires r.Valid() && !OfferPanics(r, id, c)
    ensures Offer(r, id, c).Accepted? <==> id !in r.all
    ensures Offer(r, id, c).Agreed? <==> id in r.all && r.Knows(c) && r.all[id] == r.canonical.left[c]
    ensures Offer(r, id, c).Accepted? ==> forall k :: k in Offer(r, id, c).registry.all <==> k in r.all || k == id
  {
  }

  /** The schema half of a write spoils the file exactly if the schema is new and either an
      attachment is open or its ID is zero. */
  lemma OfferSchemaReadable(o: Options, s: State, m: OutMessage)
    requires Sane(s) && !SchemaPanics(s, m) && InRange(CallWrite(m))
    ensures var (t, r) := OfferSchema(o, s, m);
            Sane(t) && (!r.Err? ==> m.schema.None? || m.schema.value.0 in t.schemas.all) &&
            (Readable(t) <==> Readable(s) && !(SchemaIsNew(s, m) && (s.open.InAttachment? || m.schema.value.0 == 0))) &&
            (r.Err? <==> if SchemaIsNew(s, m) then s.open.InAttachment? else !SchemaAgrees(s, m)) &&
            (!r.Err? ==> t.open.InAttachment? == s.open.InAttachment?)
  {
    hide Put, Registry.Valid, Registry.Content, AllEntries, Offer, Keeps, SchemasKnown, AllRegistered, Readable;
    OfferSchemaKeepsSane(o, s, m);
    if m.schema.Some? {
      var (id, c) := m.schema.value;
      OfferIsSound(s.schemas, id, c);
      OfferedKeys(s.schemas, id, c);
      match Offer(s.schemas, id, c)
      case Agreed =>
      case Conflicting =>
      case Accepted(g) =>
        NewSchema(s, g, id, c, o.useChunks);
        PutAppends(s.(schemas := g), SchemaEntry(id, c), o.useChunks);
        PutOpens(s.(schemas := g), SchemaEntry(id, c), o.useChunks);
    }
  }

  lemma OfferChannelReadable(o: Options, s: State, m: OutMessage)
    requires Sane(s) && !ChannelPanics(s, m) && InRange(CallWrite(m))
    requires m.schema.None? || m.schema.value.0 in s.schemas.all
    ensures var t := OfferChannel(o, s, m).0;
            Sane(t) && (Readable(t) <==> Readable(s) && !(m.channelId !in s.channels.all && s.open.InAttachment?))
  {
    hide Put, Registry.Valid, Registry.Content, AllEntries, Offer, Keeps, SchemasKnown, AllRegistered, Readable, OfferPanics;
    OfferChannelKeepsSane(o, s, m);
    var c := ContentOf(m);
    OfferIsSound(s.channels, m.channelId, c);
    OfferedKeys(s.channels, m.channelId, c);
    match Offer(s.channels, m.channelId, c)
    case Agreed =>
    case Conflicting =>
    case Accepted(g) => NewChannel(s, g, m.channelId, c, o.useChunks);
  }

  lemma WriteKnownReadable(o: Options, s: State, id: nat, h: MessageHeader, data: bytes)
    requires Sane(s)
    ensures Sane(WriteKnown(o, s, id, h, data).0)
    ensures Readable(WriteKnown(o, s, id, h, data).0) <==> Readable(s)
  {
    hide Put, Registry.Valid, Registry.Content, AllEntries, Rolled, Readable, AllRegistered, SchemasKnown;
    WriteKnownKeepsSane(o, s, id, h, data);
    if id in s.channels.all {
      var c := Counted(s, id, h.logTime);
      SameEntries(s, c);
      RolledKeepsEntries(o, c);
      SameReadable(s, Rolled(o, c));
      OtherRecords(Rolled(o, c), MessageEntry(id, h, data), o.useChunks);
    }
  }

  lemma WriteReadable(o: Options, s: State, m: OutMessage)
    requires Sane(s) && !WritePanics(o, s, m) && InRange(CallWrite(m))
    ensures Sane(Write(o, s, m).0)
    ensures Readable(Write(o, s, m).0) <==> Readable(s) && !Spoils(s, CallWrite(m))
  {
    hide Sane, OfferSchema, OfferChannel, WriteKnown, Readable;
    WriteKeepsSane(o, s, m);
    OfferSchemaReadable(o, s, m);
    OfferSchemaKeepsChannels(o, s, m);
    var (s1, r1) := OfferSchema(o, s, m);
    if !r1.Err? {
      OfferChannelReadable(o, s1, m);
      var (s2, r2) := OfferChannel(o, s1, m);
      if !r2.Err? {
        WriteKnownReadable(o, s2, m.channelId, m.header, m.data);
      }
    }
  }

  lemma StepReadable(o: Options, s: State, c: Call)
    requires Sane(s) && InRange(c) && !Panics(o, s, c)
    ensures Sane(Step(o, s, c).0) && (Readable(Step(o, s, c).0) <==> Readable(s) && !Spoils(s, c))
  {
    hide AddSchema, AddChannel, Write, WriteKnown, AllEntries, Registry.Valid, AllRegistered, SchemasKnown, Put,
         WritePanics, Overflows, Readable;
    NextInRange(s.schemas);
    NextInRange(s.channels);
    StepKeepsSane(o, s, c);
    match c
    case CallAddSchema(d) => AddSchemaReadable(o, s, d);
    case CallAddChannel(d) => AddChannelReadable(o, s, d);
    case CallWrite(m) => WriteReadable(o, s, m);
    case CallWriteKnown(id, h, d) => WriteKnownReadable(o, s, id, h, d);
    case CallPrivate(op, d, i) => OtherRecords(s, Private(op, d), o.useChunks && i);
    case CallMetadata(n, m) => OtherRecords(s, Typed(Metadata(n, m)), false);
    case CallAttach(h, d) =>
      var s1 := StartAttachment(s, |d|, h).0;
      AttachmentKeepsEntries(s);
      AttachmentKeepsEntries(s1);
      AttachmentKeepsEntries(PutAttachment(s1, d).0);
      SameReadable(s, Step(o, s, c).0);
    case _ =>
      AttachmentKeepsEntries(s);
      ClosedKeepsEntries(s);
      SameReadable(s, Step(o, s, c).0);
  }

  // ---------- runs ----------

  /** No call of the run spoils the file. */
  ghost predicate NeverSpoils(o: Options, s: State, calls: seq<Call>)
    requires Sane(s) && Safe(o, s, calls)
    decreases |calls|
  {
    calls == [] ||
    (NextInRange(s.schemas); NextInRange(s.channels); StepKeepsSane(o, s, calls[0]);
     !Spoils(s, calls[0]) && NeverSpoils(o, Step(o, s, calls[0]).0, calls[1..]))
  }

  lemma {:induction false} RunReadable(o: Options, s: State, calls: seq<Call>)
    requires Sane(s) && Safe(o, s, calls)
    ensures Readable(Run(o, s, calls)) <==> Readable(s) && NeverSpoils(o, s, calls)
    decreases |calls|
  {
    hide Registry.Valid, AllRegistered, SchemasKnown, Step, Panics, Spoils, Readable;
    if calls != [] {
      NextInRange(s.schemas);
      NextInRange(s.channels);
      StepReadable(o, s, calls[0]);
      RunReadable(o, Step(o, s, calls[0]).0, calls[1..]);
    }
  }

  /** Following the data section of a finished file gives exactly the schemas and channels
      the writer registered, and so repeats in the summary, if and only if no call spoiled
      the file. */
  lemma LinearReadersAgreeWithSummary(o: Options, calls: seq<Call>)
    requires Sane(Initial(o)) && Safe(o, Initial(o), calls)
    ensures var s := Closed(Run(o, Initial(o), calls));
            !s.open.Taken? && !s.open.InAttachment? ==>
              ((Accumulate(EntriesIn(s.items)) == Some(Registries(s))) <==> NeverSpoils(o, Initial(o), calls))
  {
    hide Safe, Run, NeverSpoils, Registry.Valid, AllRegistered, SchemasKnown, Accumulate;
    InitialIsReadable(o);
    RunReadable(o, Initial(o), calls);
    var t := Run(o, Initial(o), calls);
    ClosedKeepsEntries(t);
    var s := Closed(t);
    if !s.open.Taken? && !s.open.InAttachment? {
      assert EntriesIn(s.items) + [] == EntriesIn(s.items);
      SameReadable(t, s);
    }
  }

  lemma InitialIsReadable(o: Options)
    requires Sane(Initial(o))
    ensures Readable(Initial(o))
  {
    var items := Initial(o).items;
    EntriesMore([], items[0]);
    assert [] + [items[0]] == items;
    var e := Typed(Header(o.profile, o.library));
    assert AllEntries(Initial(o)) == [] + [e];
    AccumulateMore([], e);
    assert Registries(Initial(o)) == Directory(map[], map[]);
  }

  /** Opening an attachment, adding a channel while it is open, and finishing it. */
  function SpoilingCalls(): seq<Call> {
    [CallStartAttachment(0, AttachmentHeader(0, 0, [], [])), CallAddChannel(ChannelContent(0, [], [], [])), CallFinishAttachment]
  }

  /** A run after which the summary has a channel that no record of the data section declares:
      the call fails, and the channel stays registered. */
  lemma RegisteredWithoutRecord(o: Options)
    ensures Sane(Initial(o)) && Safe(o, Initial(o), SpoilingCalls()) && !NeverSpoils(o, Initial(o), SpoilingCalls())
    ensures var s := Run(o, Initial(o), SpoilingCalls());
            s.open.Idle? && s.channels.all == map[1 := 1] &&
            Accumulate(EntriesIn(s.items)) == Some(Directory(map[], map[])) &&
            Accumulate(EntriesIn(s.items)) != Some(Registries(s))
  {
    hide Sane, AllEntries, NeverSpoils, EntriesIn, Accumulate, Registries;
    InitialIsSane(o);
    var calls := SpoilingCalls();
    var s0 := Initial(o);
    var s1 := Step(o, s0, calls[0]).0;
    StepKeepsSane(o, s0, calls[0]);
    assert calls[1..] == [calls[1], calls[2]];
    assert s1.open.InAttachment? && s1.channels.all == map[];
    var s2 := Step(o, s1, calls[1]).0;
    StepKeepsSane(o, s1, calls[1]);
    assert calls[1..][1..] == [calls[2]];
    assert s2.channels.all == map[1 := 1] && s2.open == s1.open && s2.items == s0.items;
    var s3 := Step(o, s2, calls[2]).0;
    StepKeepsSane(o, s2, calls[2]);
    assert calls[1..][1..][1..] == [];
    assert Safe(o, s3, []);
    assert Safe(o, s2, calls[1..][1..]);
    assert Safe(o, s1, calls[1..]);
    assert Safe(o, s0, calls);
    assert s3 == Run(o, s0, calls);
    OnlyTheHeader(o);
    HasChannel(s3, 1);
    SpoiltRun(o, s3);
  }

  lemma HasChannel(s: State, id: nat)
    requires Sane(s) && id in s.channels.all
    ensures id in Registries(s).channels
  {
  }

  lemma OnlyTheHeader(o: Options)
    requires Sane(Initial(o))
    ensures Accumulate(EntriesIn(Initial(o).items + [AttachmentOf(AttachmentHeader(0, 0, [], []), [])])) ==
            Some(Directory(map[], map[]))
  {
    hide Accumulate, EntriesIn, Sane, Registry.Valid;
    var items := Initial(o).items;
    EntriesMore(items, AttachmentOf(AttachmentHeader(0, 0, [], []), []));
    assert EntriesIn(items) + [] == EntriesIn(items);
    InitialIsReadable(o);
    assert AllEntries(Initial(o)) == EntriesIn(items);
    NothingRegistered(o);
  }

  lemma NothingRegistered(o: Options)
    requires Sane(Initial(o))
    ensures Registries(Initial(o)) == Directory(map[], map[])
  {
  }

  lemma SpoiltRun(o: Options, s: State)
    requires Sane(Initial(o)) && Safe(o, Initial(o), SpoilingCalls()) && s == Run(o, Initial(o), SpoilingCalls())
    requires s.open.Idle? && Sane(s) && Accumulate(EntriesIn(s.items)) != Some(Registries(s))
    ensures !NeverSpoils(o, Initial(o), SpoilingCalls())
  {
    hide Safe, Run, NeverSpoils, Registry.Valid, AllRegistered, SchemasKnown, Accumulate, Registries, EntriesIn;
    LinearReadersAgreeWithSummary(o, SpoilingCalls());
  }
}
