/** The linear Python reader, and how the seeking reader compares with it in each mode. */
module PyLinear {
  import opened Bytes
  import opened Sorting
  import opened PyQueue
  import opened PyReader
  import R = Records

  // ---------- reading from front to back ----------

  /** The wanted messages from here on, with what has been seen before, or None if a
      channel or schema has not been seen. */
  function Linear(stream: seq<R.Record>, channels: map<nat, R.ChannelRecord>, schemas: map<nat, R.SchemaRecord>, query: Query)
    : Option<seq<Triple>>
    decreases |stream|
  {
    if stream == [] then Some([])
    else
      var r, rest := stream[0], stream[1..];
      match r
      case Schema(id, _, _, _) => Linear(rest, channels, schemas[id := r], query)
      case Channel(id, schemaId, _, _, _) =>
        if schemaId != 0 && schemaId !in schemas then None else Linear(rest, channels[id := r], schemas, query)
      case Message(channelId, _, _, _, _) =>
        if channelId !in channels then None
        else
          var channel := channels[channelId];
          if !query.Wants(channel, r) then Linear(rest, channels, schemas, query)
          else if channel.channelSchema != 0 && channel.channelSchema !in schemas then None
          else
            var later :- Linear(rest, channels, schemas, query);
            Some([Triple(if channel.channelSchema == 0 then None else Some(schemas[channel.channelSchema]), channel, r)] + later)
      case _ => Linear(rest, channels, schemas, query)
  }

  /** Time ascending, or descending. */
  function TripleKey(reverse: bool): Triple -> Key {
    (t: Triple) => Key(if reverse then 0 - t.message.logTime else t.message.logTime, 0, 0)
  }

  /** What the linear reader yields. */
  function LinearRead(stream: seq<R.Record>, query: Query, logTimeOrder: bool, reverse: bool): Option<seq<Triple>> {
    var found :- Linear(stream, map[], map[], query);
    Some(if logTimeOrder then Sort(found, TripleKey(reverse)) else found)
  }

  class NonSeekingReader {
    const stream: seq<R.Record>
    var schemas: map<nat, R.SchemaRecord>
    var channels: map<nat, R.ChannelRecord>

    constructor (stream: seq<R.Record>)
      ensures this.stream == stream && schemas == map[] && channels == map[]
    {
      this.stream, schemas, channels := stream, map[], map[];
    }

    method IterMessagesInternal(query: Query) returns (found: Option<seq<Triple>>)
      modifies this
      ensures found == old(Linear(stream, channels, schemas, query))
    {
      var out: seq<Triple> := [];
      ghost var all := Linear(stream, channels, schemas, query);
      assert stream[0..] == stream;
      if all.Some? {
        assert [] + all.value == all.value;
      }
      for i := 0 to |stream|
        invariant all == match Linear(stream[i..], channels, schemas, query) case None => None case Some(rest) => Some(out + rest)
      {
        var record := stream[i];
        assert stream[i..][0] == record && stream[i..][1..] == stream[i + 1..];
        match record
        case Schema(id, _, _, _) =>
          schemas := schemas[id := record];
        case Channel(id, schemaId, _, _, _) =>
          if schemaId != 0 && schemaId !in schemas {
            return None;
          }
          channels := channels[id := record];
        case Message(channelId, _, _, _, _) =>
          if channelId !in channels {
            return None;
          }
          var channel := channels[channelId];
          if query.Wants(channel, record) {
            var schema: Option<R.SchemaRecord> := None;
            if channel.channelSchema != 0 {
              if channel.channelSchema !in schemas {
                return None;
              }
              schema := Some(schemas[channel.channelSchema]);
            }
            ghost var later := Linear(stream[i + 1..], channels, schemas, query);
            var t := Triple(schema, channel, record);
            if later.Some? {
              assert out + ([t] + later.value) == (out + [t]) + later.value;
            }
            out := out + [t];
          }
        case _ =>
      }
      assert stream[|stream|..] == [] && out + [] == out;
      found := Some(out);
    }

    /** Sorting by time keeps the file order of equal times, in both directions. */
    method IterMessages(query: Query, logTimeOrder: bool, reverse: bool) returns (found: Option<seq<Triple>>)
      requires schemas == map[] && channels == map[]
      modifies this
      ensures found == LinearRead(stream, query, logTimeOrder, reverse)
    {
      hide Sort, Linear, TripleKey;
      found := IterMessagesInternal(query);
      if found.Some? && logTimeOrder {
        found := Some(Sort(found.value, TripleKey(reverse)));
      }
    }
  }

  // ---------- when summary and stream agree ----------

  function TripleOf(): Item -> Triple {
    (x: Item) => if x.MessageItem? then Triple(x.schema, x.channel, x.message) else Triple(None, R.Channel(0, 0, [], [], []), R.Message(0, 0, 0, 0, []))
  }

  /** The messages among records. */
  function MessagesOf(records: seq<R.Record>): seq<R.MessageRecord>
    decreases |records|
  {
    if records == [] then []
    else if records[0].Message? then [records[0]] + MessagesOf(records[1..])
    else MessagesOf(records[1..])
  }

  /** A wanted message as the summary describes it. */
  function TripleFor(m: R.MessageRecord, summary: Summary, query: Query): seq<Triple> {
    if m.messageChannel !in summary.channels || !query.Wants(summary.channels[m.messageChannel], m) then []
    else
      var channel := summary.channels[m.messageChannel];
      var schema := if channel.channelSchema == 0 || channel.channelSchema !in summary.schemas then None
                    else Some(summary.schemas[channel.channelSchema]);
      [Triple(schema, channel, m)]
  }

  function TriplesFor(messages: seq<R.MessageRecord>, summary: Summary, query: Query): seq<Triple>
    decreases |messages|
  {
    if messages == [] then [] else TripleFor(messages[0], summary, query) + TriplesFor(messages[1..], summary, query)
  }

  /** When a message comes, what has been seen about its channel and schema is what the
      summary says. */
  ghost predicate Announced(stream: seq<R.Record>, channels: map<nat, R.ChannelRecord>, schemas: map<nat, R.SchemaRecord>, summary: Summary)
    decreases |stream|
  {
    stream != [] ==>
      var r, rest := stream[0], stream[1..];
      match r
      case Schema(id, _, _, _) => Announced(rest, channels, schemas[id := r], summary)
      case Channel(id, schemaId, _, _, _) =>
        (schemaId == 0 || schemaId in schemas) && Announced(rest, channels[id := r], schemas, summary)
      case Message(channelId, _, _, _, _) => SameLookups(r, channels, schemas, summary) && Announced(rest, channels, schemas, summary)
      case _ => Announced(rest, channels, schemas, summary)
  }

  ghost predicate SameLookups(m: R.MessageRecord, channels: map<nat, R.ChannelRecord>, schemas: map<nat, R.SchemaRecord>, summary: Summary) {
    m.messageChannel in channels && m.messageChannel in summary.channels &&
    var channel := channels[m.messageChannel];
    channel == summary.channels[m.messageChannel] &&
    (channel.channelSchema != 0 ==>
      channel.channelSchema in schemas && channel.channelSchema in summary.schemas &&
      schemas[channel.channelSchema] == summary.schemas[channel.channelSchema])
  }

  lemma {:induction false} LinearGivesTriples(stream: seq<R.Record>, channels: map<nat, R.ChannelRecord>, schemas: map<nat, R.SchemaRecord>,
                                              summary: Summary, query: Query)
    requires Announced(stream, channels, schemas, summary)
    ensures Linear(stream, channels, schemas, query) == Some(TriplesFor(MessagesOf(stream), summary, query))
    decreases |stream|
  {
    if stream != [] {
      var r, rest := stream[0], stream[1..];
      match r
      case Schema(id, _, _, _) => LinearGivesTriples(rest, channels, schemas[id := r], summary, query);
      case Channel(id, _, _, _, _) => LinearGivesTriples(rest, channels[id := r], schemas, summary, query);
      case Message(_, _, _, _, _) =>
        LinearGivesTriples(rest, channels, schemas, summary, query);
        assert ([r] + MessagesOf(rest))[1..] == MessagesOf(rest);
        assert [] + TriplesFor(MessagesOf(rest), summary, query) == TriplesFor(MessagesOf(rest), summary, query);
      case _ => LinearGivesTriples(rest, channels, schemas, summary, query);
    }
  }

  lemma {:induction false} TriplesConcat(a: seq<R.MessageRecord>, b: seq<R.MessageRecord>, summary: Summary, query: Query)
    ensures TriplesFor(a + b, summary, query) == TriplesFor(a, summary, query) + TriplesFor(b, summary, query)
    decreases |a|
  {
    hide TripleFor;
    if a == [] {
      assert a + b == b;
    } else {
      assert (a + b)[1..] == a[1..] + b;
      TriplesConcat(a[1..], b, summary, query);
    }
  }

  lemma {:induction false} ItemsGiveTriples(records: seq<R.Record>, index: nat, offset: nat, summary: Summary, query: Query)
    requires index <= |records| && ItemsOf(records, index, offset, summary, query).Some?
    ensures Mapped(ItemsOf(records, index, offset, summary, query).value, TripleOf())
         == TriplesFor(MessagesOf(records[index..]), summary, query)
    decreases |records| - index
  {
    if index < |records| {
      ItemsGiveTriples(records, index + 1, offset, summary, query);
      assert records[index..][1..] == records[index + 1..];
      if records[index].Message? {
        var later := MessagesOf(records[index + 1..]);
        assert ([records[index]] + later)[1..] == later;
      }
    }
  }

  /** The messages of the chunks, in the order of the list. */
  ghost function ChunkedMessages(cs: seq<R.ChunkIndexRecord>, chunks: Chunks): seq<R.MessageRecord>
    decreases |cs|
  {
    if cs == [] then []
    else
      var c := cs[|cs| - 1];
      ChunkedMessages(cs[..|cs| - 1], chunks) + if c.chunkOffset in chunks then MessagesOf(chunks[c.chunkOffset]) else []
  }

  lemma {:induction false} ChunksGiveTriples(cs: seq<R.ChunkIndexRecord>, chunks: Chunks, summary: Summary, query: Query)
    requires forall c :: c in cs ==> Readable(c, chunks, summary, query)
    ensures Mapped(ExpandAll(ChunkItems(cs), chunks, summary, query), TripleOf()) == TriplesFor(ChunkedMessages(cs, chunks), summary, query)
    decreases |cs|
  {
    hide ItemsOf, MessagesOf, TripleOf;
    if cs != [] {
      var init, c := cs[..|cs| - 1], cs[|cs| - 1];
      assert c in cs;
      ChunksGiveTriples(init, chunks, summary, query);
      assert ChunkItems(cs)[..|cs| - 1] == ChunkItems(init);
      var records := chunks[c.chunkOffset];
      assert records[0..] == records;
      ItemsGiveTriples(records, 0, c.chunkOffset, summary, query);
      TriplesConcat(ChunkedMessages(init, chunks), MessagesOf(records), summary, query);
      MappedConcat(ExpandAll(ChunkItems(init), chunks, summary, query), ItemsIn(c, chunks, summary, query), TripleOf());
    } else {
      assert Mapped(ExpandAll(ChunkItems(cs), chunks, summary, query), TripleOf()) == [];
    }
  }

  // ---------- the order of chunks does not matter for what is found ----------

  lemma {:induction false} ExpandSame(a: seq<Item>, b: seq<Item>, chunks: Chunks, summary: Summary, query: Query)
    requires multiset(a) == multiset(b)
    ensures multiset(ExpandAll(a, chunks, summary, query)) == multiset(ExpandAll(b, chunks, summary, query))
    decreases |a|
  {
    hide Expand;
    assert |multiset(a)| == |a| && |multiset(b)| == |b|;
    if a != [] {
      var init, last := a[..|a| - 1], a[|a| - 1];
      assert a == init + [last];
      assert last in multiset(b);
      var at :| 0 <= at < |b| && b[at] == last;
      assert b == b[..at] + ([last] + b[at + 1..]);
      assert multiset(b) == multiset(b[..at]) + (multiset{last} + multiset(b[at + 1..]));
      var rest := b[..at] + b[at + 1..];
      assert multiset(rest) == multiset(b) - multiset{last};
      assert multiset(init) == multiset(a) - multiset{last};
      ExpandSame(init, rest, chunks, summary, query);
      ExpandWithout(b, at, chunks, summary, query);
    }
  }

  lemma {:induction false} ChunkItemsSame(a: seq<R.ChunkIndexRecord>, key: R.ChunkIndexRecord -> Key)
    ensures multiset(ChunkItems(Sort(a, key))) == multiset(ChunkItems(a))
    decreases |a|
  {
    if a != [] {
      var init, last := a[..|a| - 1], a[|a| - 1];
      ChunkItemsSame(init, key);
      assert ChunkItems(a) == ChunkItems(init) + [ChunkItem(last)];
      ChunkItemsInserted(Sort(init, key), last, key);
    }
  }

  lemma {:induction false} ChunkItemsInserted(s: seq<R.ChunkIndexRecord>, x: R.ChunkIndexRecord, key: R.ChunkIndexRecord -> Key)
    ensures multiset(ChunkItems(Insert(s, x, key))) == multiset(ChunkItems(s)) + multiset{ChunkItem(x)}
    decreases |s|
  {
    if s == [] {
      assert ChunkItems([x]) == [ChunkItem(x)];
    } else if key(s[|s| - 1]).AtMost(key(x)) {
      assert ChunkItems(s + [x]) == ChunkItems(s) + [ChunkItem(x)];
    } else {
      var init, last := s[..|s| - 1], s[|s| - 1];
      ChunkItemsInserted(init, x, key);
      assert ChunkItems(s) == ChunkItems(init) + [ChunkItem(last)];
      assert ChunkItems(Insert(init, x, key) + [last]) == ChunkItems(Insert(init, x, key)) + [ChunkItem(last)];
    }
  }

  lemma {:induction false} ExpandSkips(cs: seq<R.ChunkIndexRecord>, p: R.ChunkIndexRecord -> bool, chunks: Chunks, summary: Summary, query: Query)
    requires forall c :: c in cs && !p(c) ==> ItemsIn(c, chunks, summary, query) == []
    ensures ExpandAll(ChunkItems(Kept(cs, p)), chunks, summary, query) == ExpandAll(ChunkItems(cs), chunks, summary, query)
    decreases |cs|
  {
    hide ItemsIn;
    if cs != [] {
      var init, last := cs[..|cs| - 1], cs[|cs| - 1];
      ExpandSkips(init, p, chunks, summary, query);
      assert ChunkItems(cs)[..|cs| - 1] == ChunkItems(init);
      if p(last) {
        var kept := Kept(init, p);
        assert ChunkItems(kept + [last])[..|kept|] == ChunkItems(kept);
      } else {
        assert last in cs;
      }
    }
  }

  // ---------- file order ----------

  function OffsetKey(): R.ChunkIndexRecord -> Key {
    (c: R.ChunkIndexRecord) => Key(c.chunkOffset, 0, 0)
  }

  /** Messages stand in the order of their places in the file. */
  ghost predicate FileOrder(items: seq<Item>) {
    forall i, j :: 0 <= i < j < |items| ==> EarlierPlace(items[i], items[j])
  }

  predicate EarlierPlace(a: Item, b: Item) {
    a.MessageItem? && b.MessageItem? && (a.chunkOffset < b.chunkOffset || (a.chunkOffset == b.chunkOffset && a.index < b.index))
  }

  lemma {:induction false} ExpandInFileOrder(cs: seq<R.ChunkIndexRecord>, chunks: Chunks, summary: Summary, query: Query)
    requires forall i, j :: 0 <= i < j < |cs| ==> cs[i].chunkOffset < cs[j].chunkOffset
    ensures FileOrder(ExpandAll(ChunkItems(cs), chunks, summary, query))
    decreases |cs|
  {
    hide ItemsIn;
    if cs != [] {
      var init, last := cs[..|cs| - 1], cs[|cs| - 1];
      ExpandInFileOrder(init, chunks, summary, query);
      assert ChunkItems(cs)[..|cs| - 1] == ChunkItems(init);
      var early, late := ExpandAll(ChunkItems(init), chunks, summary, query), ItemsIn(last, chunks, summary, query);
      ItemsInPlaced(last, chunks, summary, query);
      forall i, j | 0 <= i < |early| && 0 <= j < |late|
        ensures EarlierPlace(early[i], late[j])
      {
        var k := ExpandOrigin(ChunkItems(init), early[i], chunks, summary, query);
        ItemsInPlaced(init[k], chunks, summary, query);
        assert PlacedOne(late[j], 0, last.chunkOffset, summary, query);
      }
      forall i, j | 0 <= i < j < |late|
        ensures EarlierPlace(late[i], late[j])
      {
        assert PlacedOne(late[i], 0, last.chunkOffset, summary, query) && PlacedOne(late[j], 0, last.chunkOffset, summary, query);
      }
    }
  }

  lemma SortedOffsetsAscend(cs: seq<R.ChunkIndexRecord>)
    requires DistinctOffsets(cs)
    ensures var s := Sort(cs, OffsetKey()); forall i, j :: 0 <= i < j < |s| ==> s[i].chunkOffset < s[j].chunkOffset
  {
    hide Sort;
    SortSorts(cs, OffsetKey());
    SortedDistinct(cs);
  }

  lemma {:induction false} InsertDistinct(s: seq<R.ChunkIndexRecord>, x: R.ChunkIndexRecord)
    requires DistinctOffsets(s) && forall c :: c in s ==> c.chunkOffset != x.chunkOffset
    ensures DistinctOffsets(Insert(s, x, OffsetKey()))
    decreases |s|
  {
    if s != [] && !OffsetKey()(s[|s| - 1]).AtMost(OffsetKey()(x)) {
      var init, last := s[..|s| - 1], s[|s| - 1];
      InsertDistinct(init, x);
      InsertPermutes(init, x, OffsetKey());
      var r := Insert(init, x, OffsetKey());
      forall i | 0 <= i < |r|
        ensures r[i].chunkOffset != last.chunkOffset
      {
        assert last in s;
        assert r[i] in multiset(r);
        if r[i] != x {
          assert r[i] in init;
        }
      }
    }
  }

  lemma {:induction false} SortedDistinct(cs: seq<R.ChunkIndexRecord>)
    requires DistinctOffsets(cs)
    ensures DistinctOffsets(Sort(cs, OffsetKey()))
    decreases |cs|
  {
    if cs != [] {
      var init, last := cs[..|cs| - 1], cs[|cs| - 1];
      SortedDistinct(init);
      SortPermutes(init, OffsetKey());
      forall c | c in Sort(init, OffsetKey())
        ensures c.chunkOffset != last.chunkOffset
      {
        assert c in multiset(init);
      }
      InsertDistinct(Sort(init, OffsetKey()), last);
    }
  }

  lemma FileOrderSortsAlike(items: seq<Item>)
    requires FileOrder(items)
    ensures Sort(items, ItemKey(false)) == Sort(items, TimeKey())
  {
    forall i, j | 0 <= i < j < |items|
      ensures ItemKey(false)(items[i]).AtMost(ItemKey(false)(items[j])) <==> TimeKey()(items[i]).AtMost(TimeKey()(items[j]))
    {
      assert EarlierPlace(items[i], items[j]);
    }
    SortSameOrder(items, ItemKey(false), TimeKey());
  }

  lemma FileOrderIdentifies(items: seq<Item>)
    requires FileOrder(items)
    ensures KeyIdentifies(items, ItemKey(false))
  {
    forall i, j | 0 <= i < j < |items|
      ensures ItemKey(false)(items[i]) != ItemKey(false)(items[j])
    {
      assert EarlierPlace(items[i], items[j]);
    }
  }

  // ---------- forwards, both readers agree ----------

  /** A file whose summary can be relied on: chunks at different offsets, each readable, its
      bounds true and its message indexes complete; the summary knows the channels; and the
      messages of the stream are those of the chunks in file order. */
  ghost predicate Reliable(summary: Summary, chunks: Chunks, stream: seq<R.Record>, query: Query) {
    DistinctOffsets(summary.chunkIndexes) &&
    (forall c :: c in summary.chunkIndexes ==>
      BoundsHold(c, chunks, summary, query) && IndexComplete(c, chunks, summary, query) && Readable(c, chunks, summary, query)) &&
    (forall c, p :: c in summary.chunkIndexes && p in c.indexOffsets ==> p.0 in summary.channels) &&
    Announced(stream, map[], map[], summary) &&
    MessagesOf(stream) == ChunkedMessages(Sort(summary.chunkIndexes, OffsetKey()), chunks)
  }

  /** Skipping chunks that do not match and taking the others in any order finds the
      messages of the stream. */
  lemma MatchingFindsStream(summary: Summary, chunks: Chunks, stream: seq<R.Record>, query: Query)
    requires Reliable(summary, chunks, stream, query)
    ensures var matching := ChunkItems(Kept(summary.chunkIndexes, MatchesQuery(summary, query)));
            var inFile := ExpandAll(ChunkItems(Sort(summary.chunkIndexes, OffsetKey())), chunks, summary, query);
            multiset(ExpandAll(matching, chunks, summary, query)) == multiset(inFile) && FileOrder(inFile) &&
            Linear(stream, map[], map[], query) == Some(Mapped(inFile, TripleOf()))
  {
    hide ExpandAll, ItemsIn, BoundsHold, IndexComplete, Readable, Announced, MessagesOf, ChunkedMessages, Sort, Linear, Mapped, FileOrder,
         Kept, Matches, TripleOf, OffsetKey;
    var cs := summary.chunkIndexes;
    var p := MatchesQuery(summary, query);
    var sorted := Sort(cs, OffsetKey());
    forall c | c in cs && !p(c)
      ensures ItemsIn(c, chunks, summary, query) == []
    {
      UnmatchedHoldsNothing(c, chunks, summary, query);
    }
    ExpandSkips(cs, p, chunks, summary, query);
    ChunkItemsSame(cs, OffsetKey());
    ExpandSame(ChunkItems(sorted), ChunkItems(cs), chunks, summary, query);
    SortedOffsetsAscend(cs);
    ExpandInFileOrder(sorted, chunks, summary, query);
    SortPermutes(cs, OffsetKey());
    forall c | c in sorted
      ensures Readable(c, chunks, summary, query)
    {
      assert c in multiset(cs);
    }
    LinearGivesTriples(stream, map[], map[], summary, query);
    ChunksGiveTriples(sorted, chunks, summary, query);
  }

  /** In ascending time order the seeking reader yields exactly what the linear reader
      yields, message by message. */
  method ReadForwardBothWays(summary: Summary, chunks: Chunks, stream: seq<R.Record>, query: Query)
    returns (sought: seq<Item>, scanned: Option<seq<Triple>>)
    requires Reliable(summary, chunks, stream, query)
    ensures scanned == Some(Mapped(sought, TripleOf()))
  {
    hide *;
    var seeking := new SeekingReader(chunks, summary);
    ReliableParts(summary, chunks, stream, query);
    var ok;
    ok, sought := seeking.IterMessages(query, false);
    var linear := new NonSeekingReader(stream);
    scanned := linear.IterMessages(query, true, false);
    SortsAgree(summary, chunks, stream, query);
  }

  lemma ReliableParts(summary: Summary, chunks: Chunks, stream: seq<R.Record>, query: Query)
    requires Reliable(summary, chunks, stream, query)
    ensures DistinctOffsets(Matching(summary, query)) && AllBoundsHold(Matching(summary, query), chunks, summary, query)
    ensures CanRead(summary, chunks, query)
    ensures Matching(summary, query) == Kept(summary.chunkIndexes, MatchesQuery(summary, query))
  {
    hide BoundsHold, Readable, IndexComplete, Announced, Matches;
    var cs := summary.chunkIndexes;
    KeptDistinct(cs, MatchesQuery(summary, query));
    KeptMembers(cs, MatchesQuery(summary, query));
    forall c | c in cs ensures !LookupFails(c, summary.channels, query) {
      KnownLookups(c, summary, query);
    }
  }

  lemma KnownLookups(c: R.ChunkIndexRecord, summary: Summary, query: Query)
    requires forall p :: p in c.indexOffsets ==> p.0 in summary.channels
    ensures !LookupFails(c, summary.channels, query)
  {
  }

  lemma SortsAgree(summary: Summary, chunks: Chunks, stream: seq<R.Record>, query: Query)
    requires Reliable(summary, chunks, stream, query)
    ensures var found := Sort(ExpandAll(ChunkItems(Kept(summary.chunkIndexes, MatchesQuery(summary, query))), chunks, summary, query), ItemKey(false));
            LinearRead(stream, query, true, false) == Some(Mapped(found, TripleOf()))
  {
    hide ExpandAll, Reliable, Sort, Linear, Mapped, Kept, FileOrder, OffsetKey, ChunkItems;
    MatchingFindsStream(summary, chunks, stream, query);
    var matching := ExpandAll(ChunkItems(Kept(summary.chunkIndexes, MatchesQuery(summary, query))), chunks, summary, query);
    var inFile := ExpandAll(ChunkItems(Sort(summary.chunkIndexes, OffsetKey())), chunks, summary, query);
    FileOrderIdentifies(inFile);
    SortSorts(matching, ItemKey(false));
    SortPermutes(matching, ItemKey(false));
    SortedIsSort(Sort(matching, ItemKey(false)), inFile, ItemKey(false));
    FileOrderSortsAlike(inFile);
    ExpandedAreMessages(ChunkItems(Sort(summary.chunkIndexes, OffsetKey())), chunks, summary, query);
    SameTimes(inFile);
    SortMapped(inFile, TripleOf(), TimeKey(), TripleKey(false));
  }

  lemma SameTimes(items: seq<Item>)
    requires forall x :: x in items ==> x.MessageItem?
    ensures forall x :: x in items ==> TimeKey()(x) == TripleKey(false)(TripleOf()(x))
  {
  }
}
