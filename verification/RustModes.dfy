/** Seeking or buffering makes no difference to what the Rust writer writes. */
module RustModes {
  import opened Bytes
  import opened Crc
  import opened Format
  import opened Records
  import opened RustIo
  import opened RustLayout
  import opened RustRegistry
  import opened RustMachine
  import opened RustRuns
  import opened RustSummary
  import opened RustWriter

  /** Makes one call on the writer. */
  method Perform(w: Writer, c: Call) returns (r: Reply)
    requires w.Valid() && Sane(w.Abs()) && InRange(c) && !Panics(w.options, w.Abs(), c)
    modifies w, w.sink.inner, w.sink.Target()
    ensures w.Valid() && (w.Abs(), r) == Step(w.options, old(w.Abs()), c)
  {
    hide Writer.Valid, Write, WriteKnown, AddSchema, AddChannel, Attach, RustMachine.StartAttachment, RustMachine.PutAttachment,
         RustMachine.FinishAttachment, RustMachine.WriteMetadata, RustMachine.Flush, WritePrivate, Sane, WritePanics, Overflows;
    match c
    case CallAddSchema(d) => r := w.AddSchema(d);
    case CallAddChannel(d) => r := w.AddChannel(d);
    case CallWrite(m) => r := w.Write(m);
    case CallWriteKnown(id, h, d) => r := w.WriteToKnownChannel(id, h, d);
    case CallPrivate(op, d, i) => r := w.WritePrivateRecord(op, d, i);
    case CallStartAttachment(l, h) => r := w.StartAttachment(l, h);
    case CallPut(d) => r := w.PutAttachmentBytes(d);
    case CallFinishAttachment => r := w.FinishAttachment();
    case CallAttach(h, d) => r := w.Attach(h, d);
    case CallMetadata(n, m) => r := w.WriteMetadata(n, m);
    case CallFlush => r := w.Flush();
  }

  /** The state in which a run ends allows the file to be finished. */
  ghost predicate CanFinish(s: State) {
    s.open.Idle? || s.open.InChunk?
  }

  lemma SafeUnfold(o: Options, s: State, calls: seq<Call>)
    requires Sane(s) && Safe(o, s, calls) && calls != []
    ensures s.schemas.next <= LAST_ID && s.channels.next <= LAST_ID && InRange(calls[0]) && !Panics(o, s, calls[0])
    ensures var t := Step(o, s, calls[0]).0;
            Sane(t) && Safe(o, t, calls[1..]) && Run(o, s, calls) == Run(o, t, calls[1..])
  {
    hide Step, Panics, AllRegistered, SchemasKnown;
    StepKeepsSane(o, s, calls[0]);
  }

  /** Writes a whole file: any calls, then `Finish`. */
  method WriteFile(o: Options, calls: seq<Call>, schemaOrder: seq<nat>, channelOrder: seq<nat>) returns (file: bytes)
    requires Sound(o.codec) && Sane(Initial(o)) && Safe(o, Initial(o), calls) && CanFinish(Run(o, Initial(o), calls))
    requires Visits(schemaOrder, Run(o, Initial(o), calls).schemas.all)
    requires Visits(channelOrder, Run(o, Initial(o), calls).channels.all)
    ensures file == WholeFile(o, Closed(Run(o, Initial(o), calls)), schemaOrder, channelOrder)
  {
    hide Safe, Run, Step, Panics, Initial, WholeFile, Visits, AllRegistered, SchemasKnown, Registry.Valid, Sound, Writer.Valid;
    var w := new Writer(o);
    var i := 0;
    while i < |calls|
      invariant i <= |calls| && fresh(w) && fresh(w.sink.inner) && fresh(w.sink.Target()) && w.options == o
      invariant w.Valid() && Sane(w.Abs()) && Safe(o, w.Abs(), calls[i..])
      invariant Run(o, w.Abs(), calls[i..]) == Run(o, Initial(o), calls)
    {
      SafeUnfold(o, w.Abs(), calls[i..]);
      assert calls[i..][1..] == calls[i + 1..];
      var r := Perform(w, calls[i]);
      i := i + 1;
    }
    RunNothing(o, w.Abs());
    assert calls[i..] == [];
    var r := w.Finish(schemaOrder, channelOrder);
    file := w.sink.inner.data;
  }

  lemma RunNothing(o: Options, s: State)
    requires Sane(s)
    ensures Safe(o, s, []) && Run(o, s, []) == s
  {
  }

  // ---------- the option has no effect ----------

  /** The same options with seeking allowed or not. */
  function Seeking(o: Options, disabled: bool): Options {
    o.(disableSeeking := disabled)
  }

  lemma {:induction false} SameLayout(o: Options, b: bool, items: seq<Item>)
    ensures Layout(Seeking(o, b), items) == Layout(o, items)
    ensures Hashed(Seeking(o, b), items) == Hashed(o, items)
    ensures ChunkIndexList(Seeking(o, b), items) == ChunkIndexList(o, items)
    ensures AttachmentIndexList(Seeking(o, b), items) == AttachmentIndexList(o, items)
    ensures MetadataIndexList(Seeking(o, b), items) == MetadataIndexList(o, items)
    decreases |items|
  {
    if items != [] {
      var item := items[|items| - 1];
      SameItem(o, b, item);
      hide ItemBytes, HashedBytes, ChunkIndexFor, AttachmentIndexFor, MetadataIndexFor;
      SameLayout(o, b, items[..|items| - 1]);
    }
  }

  lemma SameItem(o: Options, b: bool, item: Item)
    ensures ItemBytes(Seeking(o, b), item) == ItemBytes(o, item)
    ensures HashedBytes(Seeking(o, b), item) == HashedBytes(o, item)
    ensures item.ChunkOf? ==> forall at :: ChunkIndexFor(Seeking(o, b), item.entries, at) == ChunkIndexFor(o, item.entries, at)
    ensures item.AttachmentOf? ==>
              forall at :: AttachmentIndexFor(Seeking(o, b), item.header, item.content, at) ==
                           AttachmentIndexFor(o, item.header, item.content, at)
  {
    hide Encode, Raw, BoundsOf, IndexOf, Ascending, IndexBytes, IndexOffsets, ChunkHeader, EntryBytes, AttachmentStart, Framed;
  }

  lemma SameWriteKnown(o: Options, b: bool, s: State, id: nat, h: MessageHeader, data: bytes)
    ensures WriteKnown(Seeking(o, b), s, id, h, data) == WriteKnown(o, s, id, h, data)
  {
    hide Put, Rolled, Counted;
    SameRoll(o, b, Counted(s, id, h.logTime));
  }

  lemma SameOffers(o: Options, b: bool, s: State, m: OutMessage)
    ensures !SchemaPanics(s, m) ==> OfferSchema(Seeking(o, b), s, m) == OfferSchema(o, s, m)
    ensures !ChannelPanics(s, m) ==> OfferChannel(Seeking(o, b), s, m) == OfferChannel(o, s, m)
  {
    hide Put, Offer, OfferPanics;
  }

  lemma SameWrite(o: Options, b: bool, s: State, m: OutMessage)
    ensures WritePanics(Seeking(o, b), s, m) == WritePanics(o, s, m)
    ensures !WritePanics(o, s, m) ==> Write(Seeking(o, b), s, m) == Write(o, s, m)
  {
    hide OfferSchema, OfferChannel, WriteKnown, OfferPanics, Seeking;
    SameOffers(o, b, s, m);
    if !SchemaPanics(s, m) {
      OfferSchemaKeepsChannels(o, s, m);
      var s1 := OfferSchema(o, s, m).0;
      SameOffers(o, b, s1, m);
      if !OfferSchema(o, s, m).1.Err? && !ChannelPanics(s1, m) {
        SameWriteKnown(o, b, OfferChannel(o, s1, m).0, m.channelId, m.header, m.data);
      }
    }
  }

  lemma SameStep(o: Options, b: bool, s: State, c: Call)
    requires s.schemas.next <= LAST_ID && s.channels.next <= LAST_ID
    ensures Panics(Seeking(o, b), s, c) == Panics(o, s, c)
    ensures !Panics(o, s, c) ==> Step(Seeking(o, b), s, c) == Step(o, s, c)
  {
    hide Put, Add, Overflows, Write, WriteKnown, WritePanics, Attach;
    match c
    case CallWrite(m) => SameWrite(o, b, s, m);
    case CallWriteKnown(id, h, d) => SameWriteKnown(o, b, s, id, h, d);
    case _ =>
  }

  lemma SameRoll(o: Options, b: bool, s: State)
    ensures Rolled(Seeking(o, b), s) == Rolled(o, s)
  {
    hide Raw;
  }

  lemma {:induction false} SameRun(o: Options, b: bool, s: State, calls: seq<Call>)
    requires Sane(s) && Safe(o, s, calls)
    ensures Safe(Seeking(o, b), s, calls) && Run(Seeking(o, b), s, calls) == Run(o, s, calls)
    decreases |calls|
  {
    hide AllRegistered, SchemasKnown, Step, Panics;
    if calls != [] {
      SameStep(o, b, s, calls[0]);
      StepKeepsSane(o, s, calls[0]);
      SameRun(o, b, Step(o, s, calls[0]).0, calls[1..]);
    }
  }

  lemma {:induction false} SameOffsets(o: Options, b: bool, gs: seq<Group>, start: nat)
    ensures Ending(Seeking(o, b), gs, start) == Ending(o, gs, start)
  {
    hide GroupBytes, GroupOffsets, Raw;
  }

  lemma SameBooks(o: Options, b: bool, items: seq<Item>)
    ensures BooksOf(Seeking(o, b), items) == BooksOf(o, items)
    ensures DataSection(Seeking(o, b), items) == DataSection(o, items)
  {
    hide Layout, Hashed, ChunkIndexList, AttachmentIndexList, MetadataIndexList, EntryBytes, NumAttachments, NumMetadata, Checksum;
    SameLayout(o, b, items);
  }

  lemma SameGroups(o: Options, b: bool, m: Summary, schemaOrder: seq<nat>, channelOrder: seq<nat>)
    requires forall id :: id in schemaOrder ==> id in m.schemas
    requires forall id :: id in channelOrder ==> id in m.channels
    ensures Groups(Seeking(o, b), m, schemaOrder, channelOrder) == Groups(o, m, schemaOrder, channelOrder)
  {
    hide GroupIf, SchemaEntries, ChannelEntries, TypedAll;
  }

  lemma SameFile(o: Options, b: bool, s: State, schemaOrder: seq<nat>, channelOrder: seq<nat>)
    requires s.schemas.Valid() && s.channels.Valid()
    requires Visits(schemaOrder, s.schemas.all) && Visits(channelOrder, s.channels.all)
    ensures WholeFile(Seeking(o, b), s, schemaOrder, channelOrder) == WholeFile(o, s, schemaOrder, channelOrder)
  {
    SameBooks(o, b, s.items);
    hide Layout, Hashed, BooksOf, DataSection, Seeking, Ending, StatisticsOf, SchemasOf, ChannelsOf, Registry.Valid, GroupIf, SchemaEntries,
         ChannelEntries, TypedAll, EntryBytes;
    SummaryKeys(s);
    var m := SummaryOf(o, s);
    assert SummaryOf(Seeking(o, b), s) == m;
    hide Groups;
    SameGroups(o, b, m, schemaOrder, channelOrder);
    SameOffsets(o, b, Groups(o, m, schemaOrder, channelOrder), |DataSection(o, s.items)|);
  }

  /** The same calls on a writer that seeks back to patch chunk headers and on one that
      patches them in a buffer give the same file. */
  method WriteBothWays(o: Options, calls: seq<Call>, schemaOrder: seq<nat>, channelOrder: seq<nat>)
    returns (direct: bytes, buffered: bytes)
    requires Sound(o.codec) && Sane(Initial(o)) && Safe(o, Initial(o), calls) && CanFinish(Run(o, Initial(o), calls))
    requires Visits(schemaOrder, Run(o, Initial(o), calls).schemas.all)
    requires Visits(channelOrder, Run(o, Initial(o), calls).channels.all)
    ensures direct == buffered == WholeFile(o, Closed(Run(o, Initial(o), calls)), schemaOrder, channelOrder)
  {
    hide Safe, Run, Registry.Valid, Visits, WholeFile, AllRegistered, SchemasKnown, AllEntries;
    var no, yes := Seeking(o, false), Seeking(o, true);
    SameRun(o, false, Initial(o), calls);
    SameRun(o, true, Initial(o), calls);
    ghost var s := Closed(Run(o, Initial(o), calls));
    SameFile(o, false, s, schemaOrder, channelOrder);
    SameFile(o, true, s, schemaOrder, channelOrder);
    direct := WriteFile(no, calls, schemaOrder, channelOrder);
    buffered := WriteFile(yes, calls, schemaOrder, channelOrder);
  }
}
