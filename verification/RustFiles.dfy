/** Finished files: what the Rust readers find in the output of any run of the Rust writer. */
module RustFiles {
  import opened Bytes
  import opened Format
  import opened Records
  import opened RustIo
  import opened RustLayout
  import opened RustRegistry
  import opened RustMachine
  import opened RustRuns
  import opened RustSummary
  import opened RustRead
  import opened RustWriter
  import opened RustModes

  /** What follows the items in a finished file. */
  ghost function Rest(o: Options, s: State, schemaOrder: seq<nat>, channelOrder: seq<nat>): bytes
    requires s.schemas.Valid() && s.channels.Valid()
    requires Visits(schemaOrder, s.schemas.all) && Visits(channelOrder, s.channels.all)
  {
    SummaryKeys(s);
    EntryBytes(Typed(DataEnd(DataCrc(o, s.items)))) +
    Ending(o, Groups(o, SummaryOf(o, s), schemaOrder, channelOrder), |DataSection(o, s.items)|)
  }

  lemma WholeFileParts(o: Options, s: State, schemaOrder: seq<nat>, channelOrder: seq<nat>)
    requires s.schemas.Valid() && s.channels.Valid()
    requires Visits(schemaOrder, s.schemas.all) && Visits(channelOrder, s.channels.all)
    ensures WholeFile(o, s, schemaOrder, channelOrder) == Layout(o, s.items) + Rest(o, s, schemaOrder, channelOrder)
  {
    hide Layout, EntryBytes, Ending, Groups, DataCrc, SchemasOf, ChannelsOf, StatisticsOf, BooksOf, Registry.Valid;
    SummaryKeys(s);
    JoinAssociates(Layout(o, s.items), EntryBytes(Typed(DataEnd(DataCrc(o, s.items)))),
                   Ending(o, Groups(o, SummaryOf(o, s), schemaOrder, channelOrder), |DataSection(o, s.items)|));
  }

  lemma {:induction false} EntriesOfItem(items: seq<Item>, i: nat, j: nat)
    requires i < |items| && j < |EntriesOf(items[i])|
    ensures EntriesOf(items[i])[j] in EntriesIn(items)
    decreases |items|
  {
    var n := |items| - 1;
    if i < n {
      EntriesOfItem(items[..n], i, j);
    }
  }

  /** The channels a chunk indexes are registered. */
  lemma IndexedIsKnown(s: State, i: nat, channel: nat)
    requires Sane(s) && i < |s.items| && s.items[i].ChunkOf? && channel in IndexOf(s.items[i].entries)
    ensures channel in s.channels.all && channel < U16
  {
    hide IndexOf, EntriesIn, Raw, Registry.Content, SchemasKnown;
    var es := s.items[i].entries;
    IndexIsNotEmpty(es, channel);
    var j := IndexedIsMessage(es, channel, 0);
    EntriesOfItem(s.items, i, j);
    var all := AllEntries(s);
    assert es[j] in all;
    var k :| 0 <= k < |all| && all[k] == es[j];
    assert Registered(s.schemas, s.channels, all[k]);
  }

  lemma {:induction false} IndexIsNotEmpty(es: seq<Entry>, channel: nat)
    requires channel in IndexOf(es)
    ensures IndexOf(es)[channel] != []
    decreases |es|
  {
    hide Raw;
    var n := |es| - 1;
    if channel in IndexOf(es[..n]) {
      IndexIsNotEmpty(es[..n], channel);
    }
  }

  /** In every finished file, whatever the calls: each chunk index of the summary leads to
      exactly the chunk record it describes, its message index offsets lead to the indexes of
      the chunk's messages, and seeking every message of the chunk by its index entry returns
      that message. */
  lemma ChunkIndexesOfFilesResolve(o: Options, calls: seq<Call>, schemaOrder: seq<nat>, channelOrder: seq<nat>, k: nat)
    returns (i: nat)
    requires Sound(o.codec) && Sane(Initial(o)) && Safe(o, Initial(o), calls) && CanFinish(Run(o, Initial(o), calls))
    requires Visits(schemaOrder, Run(o, Initial(o), calls).schemas.all)
    requires Visits(channelOrder, Run(o, Initial(o), calls).channels.all)
    requires k < |SummaryOf(o, Closed(Run(o, Initial(o), calls))).chunkIndexes|
    ensures var s := Closed(Run(o, Initial(o), calls));
            var index := SummaryOf(o, s).chunkIndexes[k];
            i < |s.items| && s.items[i].ChunkOf? && index.ChunkIndex? &&
            (ChunkFits(o, s.items[i].entries) ==>
               ResolvesTo(o, WholeFile(o, s, schemaOrder, channelOrder), index, s.items[i].entries, s.channels.all.Keys))
  {
    hide Safe, Run, Registry.Valid, Visits, AllRegistered, SchemasKnown, ChunkFits, WholeFile, Rest, Sound, Layout, ChunkIndexFor,
         ChunkIndexList, AttachmentIndexList, MetadataIndexList, NumAttachments, NumMetadata, StatisticsOf, ResolvesTo, SchemasOf,
         ChannelsOf, AllEntries;
    var t := Run(o, Initial(o), calls);
    var s := Closed(t);
    ClosedKeepsEntries(t);
    i := ChunkIndexPoints(o, s.items, k);
    var es := s.items[i].entries;
    if ChunkFits(o, es) {
      WholeFileParts(o, s, schemaOrder, channelOrder);
      ChunkResolves(o, s, Rest(o, s, schemaOrder, channelOrder), i);
    }
    ChunkIndexIs(o, es, |Layout(o, s.items[..i])|);
  }

  lemma ChunkIndexIs(o: Options, es: seq<Entry>, at: nat)
    ensures ChunkIndexFor(o, es, at).ChunkIndex?
  {
  }

  /** A chunk index leads to a chunk of the given records, to its message indexes, and to
      every one of its messages. */
  ghost predicate ResolvesTo(o: Options, file: bytes, index: ChunkIndexRecord, es: seq<Entry>, known: set<nat>) {
    && At(file, index.chunkOffset, Encode(ChunkRecord(o, es)))
    && index.chunkLength == |Encode(ChunkRecord(o, es))|
    && ChunkAt(file, index) == Got(ChunkRecord(o, es))
    && IndexesRead(file, known, index) ==
       (if o.emitMessageIndexes && exists j :: 0 <= j < |es| && IsMessage(es[j]) then Got(IndexOf(es)) else Failed(BadIndex))
    && forall j :: 0 <= j < |es| && IsMessage(es[j]) ==> Seekable(o, file, known, index, es, j)
  }

  /** The index of the message's channel lists it, and seeking to the listed offset gives it. */
  ghost predicate Seekable(o: Options, file: bytes, known: set<nat>, index: ChunkIndexRecord, es: seq<Entry>, j: nat)
    requires j < |es| && IsMessage(es[j])
  {
    var m := es[j].record;
    && m.messageChannel in IndexOf(es)
    && (m.logTime, |Raw(es[..j])|) in IndexOf(es)[m.messageChannel]
    && Sought(o.codec, file, known, index, |Raw(es[..j])|) == Got(m)
  }

  lemma ChunkResolves(o: Options, s: State, rest: bytes, i: nat)
    requires Sound(o.codec) && Sane(s) && i < |s.items| && s.items[i].ChunkOf? && ChunkFits(o, s.items[i].entries)
    ensures ChunkIndexFor(o, s.items[i].entries, |Layout(o, s.items[..i])|).ChunkIndex?
    ensures ResolvesTo(o, Layout(o, s.items) + rest, ChunkIndexFor(o, s.items[i].entries, |Layout(o, s.items[..i])|),
                       s.items[i].entries, s.channels.all.Keys)
  {
    hide Sane, ChunkFits, Sound, Layout, IndexesRead, Sought, ChunkAt, Encode, ChunkRecord, IndexOf, Raw, At, ChunkIndexFor;
    var es := s.items[i].entries;
    ChunkIndexIs(o, es, |Layout(o, s.items[..i])|);
    ChunkIndexResolves(o, s.items, rest, i);
    var known := s.channels.all.Keys;
    forall channel | channel in IndexOf(es) ensures channel in known && channel < U16 {
      IndexedIsKnown(s, i, channel);
    }
    MessageIndexesResolve(o, s.items, rest, i, known);
    forall j | 0 <= j < |es| && IsMessage(es[j])
      ensures Seekable(o, Layout(o, s.items) + rest, known, ChunkIndexFor(o, es, |Layout(o, s.items[..i])|), es, j)
    {
      MessageIsIndexed(es, j);
      EveryMessageIsFound(o, s.items, rest, known, i, j);
    }
  }
}
