/** Whole reads of the Go library: skipping chunks by their indexes never drops a wanted
    message, and a file-order read through the index gives what a scan of the whole file
    gives. */
module GoReading {
  import opened Bytes
  import opened Sorting
  import opened GoChunk
  import opened GoSliceMap
  import opened GoIterator
  import Format
  import R = Records

  // ---------- skipping chunks ----------

  /** All chunk indexes of the summary. */
  function AllChunks(records: seq<R.Record>): seq<ChunkIndex>
    decreases |records|
  {
    if records == [] then []
    else
      var init, last := AllChunks(records[..|records| - 1]), records[|records| - 1];
      if last.ChunkIndex? then init + [last] else init
  }

  function MayHold(channels: map<nat, ChannelRecord>, start: nat, end: nat): ChunkIndex -> bool {
    (c: ChunkIndex) => MayHoldWanted(c, channels, start, end)
  }

  /** If a chunk index lists message indexes, it lists one for every wanted message. */
  ghost predicate IndexComplete(c: ChunkIndex, contents: map<nat, bytes>, filter: Filter) {
    c.indexOffsets != [] && c.chunkOffset in contents ==>
      forall m :: m in Selected(contents[c.chunkOffset], filter) ==>
        exists i :: 0 <= i < |c.indexOffsets| && c.indexOffsets[i].0 == m.channelId
  }

  /** In the summary, channels stand before chunk indexes. */
  ghost predicate ChannelsFirst(records: seq<R.Record>) {
    forall i, j :: 0 <= i < j < |records| && records[i].ChunkIndex? ==> !records[j].Channel?
  }

  lemma {:induction false} ChannelsSettled(records: seq<R.Record>, k: nat, topics: set<bytes>, start: nat, end: nat)
    requires k <= |records|
    requires forall j :: k <= j < |records| ==> !records[j].Channel?
    ensures CollectAll(records[..k], topics, start, end).channels == CollectAll(records, topics, start, end).channels
    decreases |records| - k
  {
    if k == |records| {
      assert records[..k] == records;
    } else {
      ChannelsSettled(records, k + 1, topics, start, end);
      assert records[..k + 1][..k] == records[..k];
    }
  }

  lemma {:induction false} CollectedAreKept(records: seq<R.Record>, k: nat, topics: set<bytes>, start: nat, end: nat)
    requires k <= |records| && ChannelsFirst(records)
    ensures CollectAll(records[..k], topics, start, end).chunks
         == Kept(AllChunks(records[..k]), MayHold(CollectAll(records, topics, start, end).channels, start, end))
    decreases k
  {
    if k > 0 {
      var prefix := records[..k];
      assert prefix[..k - 1] == records[..k - 1] && prefix[k - 1] == records[k - 1];
      CollectedAreKept(records, k - 1, topics, start, end);
      if records[k - 1].ChunkIndex? {
        var c: ChunkIndex := records[k - 1];
        var p := MayHold(CollectAll(records, topics, start, end).channels, start, end);
        ChannelsSettled(records, k - 1, topics, start, end);
        KeptMore(AllChunks(records[..k - 1]), c, p);
      }
    }
  }

  /** A chunk whose index rules it out holds nothing that is wanted. */
  lemma SkippedHoldsNothing(c: ChunkIndex, contents: map<nat, bytes>, channels: map<nat, ChannelRecord>, start: nat, end: nat,
                            order: Order)
    requires !MayHoldWanted(c, channels, start, end)
    requires BoundsHold(c, contents, Filter(channels.Keys, start, end))
    requires IndexComplete(c, contents, Filter(channels.Keys, start, end))
    ensures Arrival(c, contents, order, Filter(channels.Keys, start, end)) == []
  {
    var filter := Filter(channels.Keys, start, end);
    if c.chunkOffset in contents {
      var selected := Selected(contents[c.chunkOffset], filter);
      if selected != [] {
        var m := selected[0];
        assert m in selected;
        SelectedAreWanted(contents[c.chunkOffset], filter, m);
      }
    }
  }

  lemma {:induction false} ArrivedSkips(chunks: seq<ChunkIndex>, p: ChunkIndex -> bool, contents: map<nat, bytes>, order: Order,
                                        filter: Filter)
    requires forall c :: c in chunks && !p(c) ==> Arrival(c, contents, order, filter) == []
    ensures Arrived(Kept(chunks, p), contents, order, filter) == Arrived(chunks, contents, order, filter)
    decreases |chunks|
  {
    hide Arrival;
    if chunks != [] {
      var init, last := chunks[..|chunks| - 1], chunks[|chunks| - 1];
      ArrivedSkips(init, p, contents, order, filter);
      if p(last) {
        assert (Kept(init, p) + [last])[..|Kept(init, p)|] == Kept(init, p);
      }
    }
  }

  /** What a read collects from the chunks it keeps is what it would collect from all. */
  lemma SkippingDropsNothing(records: seq<R.Record>, contents: map<nat, bytes>, topics: set<bytes>, start: nat, end: nat, order: Order)
    requires ChannelsFirst(records)
    requires var filter := Filter(CollectAll(records, topics, start, end).channels.Keys, start, end);
             forall c :: c in AllChunks(records) ==> BoundsHold(c, contents, filter) && IndexComplete(c, contents, filter)
    ensures var collected := CollectAll(records, topics, start, end);
            var filter := Filter(collected.channels.Keys, start, end);
            (Arrived(Sort(collected.chunks, ChunkKey(order)), contents, order, filter)
             == Arrived(Sort(AllChunks(records), ChunkKey(order)), contents, order, filter))
  {
    hide Sort, Arrived, Arrival, BoundsHold, IndexComplete, ChunkKey;
    var collected := CollectAll(records, topics, start, end);
    var filter := Filter(collected.channels.Keys, start, end);
    var p := MayHold(collected.channels, start, end);
    var all := AllChunks(records);
    assert records[..|records|] == records;
    CollectedAreKept(records, |records|, topics, start, end);
    SortKept(all, p, ChunkKey(order));
    SortPermutes(all, ChunkKey(order));
    var sorted := Sort(all, ChunkKey(order));
    forall c | c in sorted && !p(c)
      ensures Arrival(c, contents, order, filter) == []
    {
      assert c in multiset(all);
      SkippedHoldsNothing(c, contents, collected.channels, start, end, order);
    }
    ArrivedSkips(sorted, p, contents, order, filter);
  }

  // ---------- the scan of the whole file ----------

  /** What the lexer gives for a record, chunks already opened. */
  datatype Token = Token(op: byte, body: bytes)

  /** The outcomes of reading from the tokens on, with what has been seen before. */
  function ReadOn(tokens: seq<Token>, channels: map<nat, ChannelRecord>, schemas: map<nat, SchemaRecord>, topics: set<bytes>,
                  start: nat, end: nat): seq<Next>
    decreases |tokens|
  {
    if tokens == [] then [Eof]
    else
      var t, rest := tokens[0], tokens[1..];
      if t.op == Format.OP_SCHEMA then
        var p := R.ReadSchema(t.body);
        if p.Malformed? then [Failed]
        else ReadOn(rest, channels, schemas[p.value.schemaId := p.value], topics, start, end)
      else if t.op == Format.OP_CHANNEL then
        var p := R.ReadChannel(t.body);
        if p.Malformed? then [Failed]
        else if TopicWanted(topics, p.value.topic) then
          ReadOn(rest, channels[p.value.channelId := p.value], schemas, topics, start, end)
        else ReadOn(rest, channels, schemas, topics, start, end)
      else if t.op == Format.OP_MESSAGE then
        var p := PopulateFrom(t.body);
        if p.None? then [Failed]
        else
          var m := p.value;
          if m.channelId !in channels || m.logTime < start || m.logTime >= end then
            ReadOn(rest, channels, schemas, topics, start, end)
          else if SchemaMissing(m, channels, schemas) then [MissingSchema(m)]
          else
            var channel := channels[m.channelId];
            var schema := if channel.channelSchema in schemas then Some(schemas[channel.channelSchema]) else None;
            [Yielded(schema, channel, m)] + ReadOn(rest, channels, schemas, topics, start, end)
      else ReadOn(rest, channels, schemas, topics, start, end)
  }

  class UnindexedMessageIterator {
    const tokens: seq<Token>
    const topics: set<bytes>
    const start: nat
    const end: nat
    const channels: SliceMap<ChannelRecord>
    const schemas: SliceMap<SchemaRecord>
    var position: nat

    ghost predicate Valid()
      reads this, channels, schemas
    {
      position <= |tokens| && channels.Valid() && schemas.Valid()
    }

    /** What is still to come. */
    ghost function Remaining(): seq<Next>
      requires Valid()
      reads this, channels, schemas
    {
      ReadOn(tokens[position..], channels.Contents(), schemas.Contents(), topics, start, end)
    }

    constructor (tokens: seq<Token>, topics: set<bytes>, start: nat, end: nat)
      ensures Valid() && fresh(channels) && fresh(schemas)
      ensures Remaining() == ReadOn(tokens, map[], map[], topics, start, end)
      ensures this.tokens == tokens
    {
      this.tokens, this.topics, this.start, this.end, position := tokens, topics, start, end, 0;
      channels := new SliceMap<ChannelRecord>();
      schemas := new SliceMap<SchemaRecord>();
      new;
      assert this.tokens[0..] == tokens;
    }

    /** The next message on a known channel in the time range. */
    method NextInto() returns (r: Next)
      requires Valid()
      modifies this, channels, schemas
      ensures Valid()
      ensures old(Remaining()) == if r.Yielded? then [r] + Remaining() else [r]
      ensures r.Yielded? ==> position > old(position)
    {
      hide R.ReadSchema, R.ReadChannel, PopulateFrom;
      while position < |tokens|
        invariant Valid() && position >= old(position)
        invariant Remaining() == old(Remaining())
        decreases |tokens| - position
      {
        var token := tokens[position];
        assert tokens[position..][0] == token && tokens[position..][1..] == tokens[position + 1..];
        position := position + 1;
        if token.op == Format.OP_SCHEMA {
          var schema := R.ReadSchema(token.body);
          if schema.Malformed? {
            return Failed;
          }
          ReadSchemaIsSchema(token.body);
          schemas.Set(schema.value.schemaId, schema.value);
        } else if token.op == Format.OP_CHANNEL {
          var channel := R.ReadChannel(token.body);
          if channel.Malformed? {
            return Failed;
          }
          ReadChannelIsChannel(token.body);
          if TopicWanted(topics, channel.value.topic) {
            channels.Set(channel.value.channelId, channel.value);
          }
        } else if token.op == Format.OP_MESSAGE {
          var parsed := PopulateFrom(token.body);
          if parsed.None? {
            return Failed;
          }
          var msg := parsed.value;
          var channel := channels.Get(msg.channelId);
          if channel.None? {
            continue;
          }
          if msg.logTime >= start && msg.logTime < end {
            var schema := schemas.Get(channel.value.channelSchema);
            if schema.None? && channel.value.channelSchema != 0 {
              return MissingSchema(msg);
            }
            return Yielded(schema, channel.value, msg);
          }
        }
      }
      assert tokens[position..] == [];
      r := Eof;
    }

    method ReadAll() returns (outcomes: seq<Next>)
      requires Valid()
      modifies this, channels, schemas
      ensures outcomes == old(Remaining())
    {
      hide ReadOn;
      outcomes := [];
      while true
        invariant Valid()
        invariant old(Remaining()) == outcomes + Remaining()
        decreases |tokens| - position
      {
        ghost var before := Remaining();
        var next := NextInto();
        if !next.Yielded? {
          return outcomes + [next];
        }
        assert outcomes + ([next] + Remaining()) == (outcomes + [next]) + Remaining();
        outcomes := outcomes + [next];
      }
    }
  }

  lemma ReadSchemaIsSchema(body: bytes)
    ensures R.ReadSchema(body).Parsed? ==> R.ReadSchema(body).value.Schema? && R.ReadSchema(body).value.schemaId <= MAX_UINT16
  {
    Powers();
  }

  lemma ReadChannelIsChannel(body: bytes)
    ensures R.ReadChannel(body).Parsed? ==> R.ReadChannel(body).value.Channel? && R.ReadChannel(body).value.channelId <= MAX_UINT16
  {
    Powers();
  }

  // ---------- file-order reads agree ----------

  function Wants(filter: Filter): Message -> bool {
    (m: Message) => filter.Wants(m)
  }

  /** All messages of a chunk, wanted or not. */
  function AllMessages(buf: bytes, offset: nat): Option<seq<Message>>
    decreases |buf| - offset
  {
    if offset >= |buf| then Some([])
    else
      var end :- RecordEnd(buf, offset);
      if buf[offset] != Format.OP_MESSAGE then AllMessages(buf, end)
      else
        var m :- PopulateFrom(buf[offset + 9..end]);
        var rest :- AllMessages(buf, end);
        Some([m] + rest)
  }

  lemma {:induction false} ScanKeepsWanted(buf: bytes, offset: nat, filter: Filter)
    ensures Scan(buf, offset, filter).Some? <==> AllMessages(buf, offset).Some?
    ensures Scan(buf, offset, filter).Some? ==>
              Messages(Scan(buf, offset, filter).value) == Kept(AllMessages(buf, offset).value, Wants(filter))
    decreases |buf| - offset
  {
    hide PopulateFrom;
    if offset < |buf| {
      var end := RecordEnd(buf, offset);
      if end.Some? {
        ScanKeepsWanted(buf, end.value, filter);
        var m := PopulateFrom(buf[offset + 9..end.value]);
        var rest := AllMessages(buf, end.value);
        if buf[offset] == Format.OP_MESSAGE && m.Some? && rest.Some? {
          KeptConcat([m.value], rest.value, Wants(filter));
          KeptMore([], m.value, Wants(filter));
          assert [] + [m.value] == [m.value];
          var found := Scan(buf, end.value, filter).value;
          assert Messages([Located(offset, m.value)] + found) == [m.value] + Messages(found);
        }
      }
    }
  }

  /** All messages of the chunks, in the order of the list. */
  ghost function ChunkedMessages(chunks: seq<ChunkIndex>, contents: map<nat, bytes>): seq<Message>
    decreases |chunks|
  {
    if chunks == [] then []
    else
      var init, c := ChunkedMessages(chunks[..|chunks| - 1], contents), chunks[|chunks| - 1];
      init + if c.chunkOffset in contents && AllMessages(contents[c.chunkOffset], 0).Some?
             then AllMessages(contents[c.chunkOffset], 0).value else []
  }

  lemma {:induction false} ArrivedInFileOrder(chunks: seq<ChunkIndex>, contents: map<nat, bytes>, filter: Filter)
    requires forall c :: c in chunks ==> Loadable(c, contents, filter)
    ensures Arrived(chunks, contents, FileOrder, filter) == Kept(ChunkedMessages(chunks, contents), Wants(filter))
    decreases |chunks|
  {
    hide Scan, AllMessages, Messages;
    if chunks != [] {
      var init, c := chunks[..|chunks| - 1], chunks[|chunks| - 1];
      assert c in chunks;
      ArrivedInFileOrder(init, contents, filter);
      ScanKeepsWanted(contents[c.chunkOffset], 0, filter);
      KeptConcat(ChunkedMessages(init, contents), AllMessages(contents[c.chunkOffset], 0).value, Wants(filter));
    }
  }

  /** The messages among the tokens. */
  function StreamMessages(tokens: seq<Token>): seq<Message>
    decreases |tokens|
  {
    if tokens == [] then []
    else if tokens[0].op == Format.OP_MESSAGE && PopulateFrom(tokens[0].body).Some?
    then [PopulateFrom(tokens[0].body).value] + StreamMessages(tokens[1..])
    else StreamMessages(tokens[1..])
  }

  /** Every record can be parsed, and when a message comes, what has been seen about its
      channel and schema is what the summary says. */
  ghost predicate Announced(tokens: seq<Token>, channels: map<nat, ChannelRecord>, schemas: map<nat, SchemaRecord>, topics: set<bytes>,
                            inSummary: Collected)
    decreases |tokens|
  {
    tokens != [] ==>
      var t, rest := tokens[0], tokens[1..];
      if t.op == Format.OP_SCHEMA then
        var p := R.ReadSchema(t.body);
        p.Parsed? && Announced(rest, channels, schemas[p.value.schemaId := p.value], topics, inSummary)
      else if t.op == Format.OP_CHANNEL then
        var p := R.ReadChannel(t.body);
        p.Parsed? &&
        Announced(rest, if TopicWanted(topics, p.value.topic) then channels[p.value.channelId := p.value] else channels,
                  schemas, topics, inSummary)
      else if t.op == Format.OP_MESSAGE then
        var p := PopulateFrom(t.body);
        p.Some? && SameLookups(p.value, channels, schemas, inSummary) && Announced(rest, channels, schemas, topics, inSummary)
      else Announced(rest, channels, schemas, topics, inSummary)
  }

  ghost predicate SameLookups(m: Message, channels: map<nat, ChannelRecord>, schemas: map<nat, SchemaRecord>, inSummary: Collected) {
    (m.channelId in channels <==> m.channelId in inSummary.channels) &&
    (m.channelId in channels ==>
      var channel := channels[m.channelId];
      channel == inSummary.channels[m.channelId] &&
      (channel.channelSchema in schemas <==> channel.channelSchema in inSummary.schemas) &&
      (channel.channelSchema in schemas ==> schemas[channel.channelSchema] == inSummary.schemas[channel.channelSchema]))
  }

  lemma {:induction false} ScanGivesWanted(tokens: seq<Token>, channels: map<nat, ChannelRecord>, schemas: map<nat, SchemaRecord>,
                                           topics: set<bytes>, start: nat, end: nat, inSummary: Collected)
    requires Announced(tokens, channels, schemas, topics, inSummary)
    ensures ReadOn(tokens, channels, schemas, topics, start, end)
         == Outcomes(Kept(StreamMessages(tokens), Wants(Filter(inSummary.channels.Keys, start, end))), inSummary.channels, inSummary.schemas)
    decreases |tokens|
  {
    hide R.ReadSchema, R.ReadChannel, PopulateFrom;
    if tokens != [] {
      var t, rest := tokens[0], tokens[1..];
      if t.op == Format.OP_SCHEMA {
        ReadSchemaIsSchema(t.body);
        var p := R.ReadSchema(t.body).value;
        ScanGivesWanted(rest, channels, schemas[p.schemaId := p], topics, start, end, inSummary);
      } else if t.op == Format.OP_CHANNEL {
        ReadChannelIsChannel(t.body);
        var p := R.ReadChannel(t.body).value;
        ScanGivesWanted(rest, if TopicWanted(topics, p.topic) then channels[p.channelId := p] else channels, schemas, topics,
                        start, end, inSummary);
      } else if t.op == Format.OP_MESSAGE {
        var m := PopulateFrom(t.body).value;
        var filter := Filter(inSummary.channels.Keys, start, end);
        ScanGivesWanted(rest, channels, schemas, topics, start, end, inSummary);
        KeptConcat([m], StreamMessages(rest), Wants(filter));
        KeptMore([], m, Wants(filter));
        assert [] + [m] == [m];
        var kept := Kept(StreamMessages(rest), Wants(filter));
        if filter.Wants(m) {
          assert ([m] + kept)[1..] == kept;
        } else {
          assert [] + kept == kept;
        }
      } else {
        ScanGivesWanted(rest, channels, schemas, topics, start, end, inSummary);
      }
    }
  }

  /** In file order, the read through the index gives exactly what the scan of the file
      gives: same messages, channels and schemas, and the same end. */
  lemma FileOrderReadsAgree(records: seq<R.Record>, contents: map<nat, bytes>, tokens: seq<Token>, topics: set<bytes>,
                            start: nat, end: nat)
    requires ChannelsFirst(records)
    requires var filter := Filter(CollectAll(records, topics, start, end).channels.Keys, start, end);
             forall c :: c in AllChunks(records) ==>
               BoundsHold(c, contents, filter) && IndexComplete(c, contents, filter) && Loadable(c, contents, filter)
    requires Announced(tokens, map[], map[], topics, CollectAll(records, topics, start, end))
    requires StreamMessages(tokens) == ChunkedMessages(Sort(AllChunks(records), ChunkKey(FileOrder)), contents)
    ensures var collected := CollectAll(records, topics, start, end);
            var filter := Filter(collected.channels.Keys, start, end);
            var arrived := Arrived(Sort(collected.chunks, ChunkKey(FileOrder)), contents, FileOrder, filter);
            (ReadOn(tokens, map[], map[], topics, start, end)
             == Outcomes(Sort(arrived, MessageKey(FileOrder)), collected.channels, collected.schemas))
  {
    hide Sort, Arrived, Kept, ChunkedMessages, StreamMessages, Announced, ReadOn, Outcomes, BoundsHold, IndexComplete, Loadable,
         AllChunks, CollectAll, Wants;
    var collected := CollectAll(records, topics, start, end);
    var filter := Filter(collected.channels.Keys, start, end);
    var sorted := Sort(AllChunks(records), ChunkKey(FileOrder));
    SkippingDropsNothing(records, contents, topics, start, end, FileOrder);
    SortPermutes(AllChunks(records), ChunkKey(FileOrder));
    forall c | c in sorted
      ensures Loadable(c, contents, filter)
    {
      assert c in multiset(AllChunks(records));
    }
    ArrivedInFileOrder(sorted, contents, filter);
    var arrived := Arrived(sorted, contents, FileOrder, filter);
    FileOrderKeepsOrder(arrived, MessageKey(FileOrder));
    ScanGivesWanted(tokens, map[], map[], topics, start, end, collected);
  }

  // ---------- whole reads ----------

  /** A summary that can be relied on: channels before chunk indexes, no two chunk indexes for one
      place, and every chunk index names a readable chunk, bounds its wanted messages and lists
      their channels. */
  ghost predicate ReliableSummary(records: seq<R.Record>, contents: map<nat, bytes>, topics: set<bytes>, start: nat, end: nat) {
    var filter := Filter(CollectAll(records, topics, start, end).channels.Keys, start, end);
    ChannelsFirst(records) && DistinctOffsets(AllChunks(records)) &&
    forall c :: c in AllChunks(records) ==>
      BoundsHold(c, contents, filter) && IndexComplete(c, contents, filter) && Loadable(c, contents, filter)
  }

  lemma {:induction false} KeptDistinct(chunks: seq<ChunkIndex>, p: ChunkIndex -> bool)
    requires DistinctOffsets(chunks)
    ensures DistinctOffsets(Kept(chunks, p))
    decreases |chunks|
  {
    if chunks != [] {
      var n := |chunks| - 1;
      KeptDistinct(chunks[..n], p);
      var kept := Kept(chunks[..n], p);
      forall i | 0 <= i < |kept| ensures kept[i].chunkOffset != chunks[n].chunkOffset {
        KeptMember(chunks[..n], p, i);
        var j :| 0 <= j < n && chunks[..n][j] == kept[i];
        assert chunks[j] == kept[i];
      }
    }
  }

  lemma CollectedDistinct(records: seq<R.Record>, topics: set<bytes>, start: nat, end: nat)
    requires ChannelsFirst(records) && DistinctOffsets(AllChunks(records))
    ensures DistinctOffsets(CollectAll(records, topics, start, end).chunks)
  {
    hide AllChunks, CollectAll, DistinctOffsets;
    assert records[..|records|] == records;
    CollectedAreKept(records, |records|, topics, start, end);
    KeptDistinct(AllChunks(records), MayHold(CollectAll(records, topics, start, end).channels, start, end));
  }

  lemma CollectedAreSome(records: seq<R.Record>, topics: set<bytes>, start: nat, end: nat)
    requires ChannelsFirst(records)
    ensures forall c :: c in CollectAll(records, topics, start, end).chunks ==> c in AllChunks(records)
  {
    hide AllChunks, CollectAll;
    assert records[..|records|] == records;
    CollectedAreKept(records, |records|, topics, start, end);
    KeptMembers(AllChunks(records), MayHold(CollectAll(records, topics, start, end).channels, start, end));
  }

  /** The chunks a read keeps are in order and can be loaded, and the others hold nothing
      that is wanted. */
  lemma CollectedChunksOk(records: seq<R.Record>, contents: map<nat, bytes>, topics: set<bytes>, start: nat, end: nat, order: Order)
    requires ReliableSummary(records, contents, topics, start, end)
    ensures var collected := CollectAll(records, topics, start, end);
            var filter := Filter(collected.channels.Keys, start, end);
            var chunks := Sort(collected.chunks, ChunkKey(order));
            (DistinctOffsets(collected.chunks) && ChunksOk(chunks, contents, order, filter) &&
             (forall c :: c in chunks ==> Loadable(c, contents, filter)) &&
             Arrived(chunks, contents, order, filter)
             == Arrived(Sort(AllChunks(records), ChunkKey(order)), contents, order, filter))
  {
    hide Sort, AllChunks, CollectAll, BoundsHold, IndexComplete, Loadable, ChunkKey, Arrived, MayHold;
    var collected := CollectAll(records, topics, start, end);
    SkippingDropsNothing(records, contents, topics, start, end, order);
    CollectedDistinct(records, topics, start, end);
    CollectedAreSome(records, topics, start, end);
    SortSorts(collected.chunks, ChunkKey(order));
    SortPermutes(collected.chunks, ChunkKey(order));
    forall c | c in Sort(collected.chunks, ChunkKey(order))
      ensures c in AllChunks(records)
    {
      assert c in multiset(collected.chunks);
    }
  }

  /** A read through the index in any order: the stable sort, by that order, of the wanted
      messages of all chunks taken in their loading order. */
  method ReadIndexed(summary: seq<R.Record>, footer: nat, contents: map<nat, bytes>, topics: set<bytes>, start: nat, end: nat,
                     order: Order)
    returns (outcomes: seq<Next>)
    requires footer < |summary| && summary[footer].Footer? && forall i :: 0 <= i < footer ==> !summary[i].Footer?
    requires forall r :: r in summary ==> r.Fits()
    requires ReliableSummary(summary[..footer], contents, topics, start, end)
    ensures var records := summary[..footer];
            var collected := CollectAll(records, topics, start, end);
            var filter := Filter(collected.channels.Keys, start, end);
            (outcomes == Outcomes(Sort(Arrived(Sort(AllChunks(records), ChunkKey(order)), contents, order, filter), MessageKey(order)),
                                  collected.channels, collected.schemas))
  {
    hide Sort, Outcomes, AllChunks, CollectAll, BoundsHold, IndexComplete, Loadable, ChunkKey, MessageKey, ChunksOk, Arrived,
         ReliableSummary, MayHold;
    var it := new IndexedMessageIterator(contents, topics, start, end, order);
    var ok, at := it.ParseSummarySection(summary);
    assert at == footer;
    ghost var records := summary[..footer];
    CollectedChunksOk(records, contents, topics, start, end, order);
    it.StartsValid();
    outcomes := it.ReadAll();
  }

  /** The two file-order reads of one file side by side. */
  method ReadBothWays(summary: seq<R.Record>, footer: nat, contents: map<nat, bytes>, tokens: seq<Token>, topics: set<bytes>,
                      start: nat, end: nat)
    returns (indexed: seq<Next>, scanned: seq<Next>)
    requires footer < |summary| && summary[footer].Footer? && forall i :: 0 <= i < footer ==> !summary[i].Footer?
    requires forall r :: r in summary ==> r.Fits()
    requires ReliableSummary(summary[..footer], contents, topics, start, end)
    requires Announced(tokens, map[], map[], topics, CollectAll(summary[..footer], topics, start, end))
    requires StreamMessages(tokens) == ChunkedMessages(Sort(AllChunks(summary[..footer]), ChunkKey(FileOrder)), contents)
    ensures indexed == scanned
  {
    hide Sort, Outcomes, AllChunks, CollectAll, BoundsHold, IndexComplete, Loadable, ChunkKey, MessageKey, Announced, StreamMessages,
         ChunkedMessages, ReadOn, Arrived;
    indexed := ReadIndexed(summary, footer, contents, topics, start, end, FileOrder);
    var it := new UnindexedMessageIterator(tokens, topics, start, end);
    scanned := it.ReadAll();
    FileOrderReadsAgree(summary[..footer], contents, tokens, topics, start, end);
    SkippingDropsNothing(summary[..footer], contents, topics, start, end, FileOrder);
  }
}
