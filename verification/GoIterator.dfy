/** The indexed message iterator of the Go library. Chunks are loaded one by one into
    reusable slots, their messages are merged into a pending queue, and the queue is only
    sorted when it has to be; still the messages come out as one stable sort of
    everything that was asked for. */
module GoIterator {
  import opened Bytes
  import opened Sorting
  import opened GoChunk
  import opened GoSliceMap
  import Format
  import R = Records

  datatype Order = FileOrder | LogTimeOrder | ReverseLogTimeOrder

  type ChunkIndex = R.ChunkIndexRecord

  type ChannelRecord = R.ChannelRecord

  type SchemaRecord = R.SchemaRecord

  /** A decompressed chunk and how many of its messages are still pending. */
  datatype Slot = Slot(buf: bytes, unreadMessages: nat)

  /** A pending message: its time, and where its record is. */
  datatype Entry = Entry(timestamp: nat, offset: nat, slot: nat)

  // ---------- sort keys ----------

  function TimeKey(order: Order, time: nat): Key {
    match order
    case FileOrder => Key(0, 0, 0)
    case LogTimeOrder => Key(time, 0, 0)
    case ReverseLogTimeOrder => Key(0 - time, 0, 0)
  }

  function MessageKey(order: Order): Message -> Key {
    (m: Message) => TimeKey(order, m.logTime)
  }

  function EntryKey(order: Order): Entry -> Key {
    (e: Entry) => TimeKey(order, e.timestamp)
  }

  // ---------- what entries stand for ----------

  const NO_MESSAGE := Message(0, 0, 0, 0, [])

  /** The message an entry points at. */
  function Pointee(slots: seq<Slot>): Entry -> Message {
    (e: Entry) =>
      if e.slot < |slots| && MessageAt(slots[e.slot].buf, e.offset).Some?
      then MessageAt(slots[e.slot].buf, e.offset).value else NO_MESSAGE
  }

  /** The entry points at a wanted message with the time it names. */
  ghost predicate Sound(e: Entry, slots: seq<Slot>, filter: Filter) {
    e.slot < |slots| && MessageAt(slots[e.slot].buf, e.offset).Some? &&
    var m := MessageAt(slots[e.slot].buf, e.offset).value;
    m.logTime == e.timestamp && filter.Wants(m)
  }

  ghost predicate AllSound(entries: seq<Entry>, slots: seq<Slot>, filter: Filter) {
    forall e :: e in entries ==> Sound(e, slots, filter)
  }

  /** How many entries point into a slot. */
  ghost function CountIn(entries: seq<Entry>, slot: nat): nat
    decreases |entries|
  {
    if entries == [] then 0
    else CountIn(entries[..|entries| - 1], slot) + if entries[|entries| - 1].slot == slot then 1 else 0
  }

  lemma CountInMore(entries: seq<Entry>, e: Entry, slot: nat)
    ensures CountIn(entries + [e], slot) == CountIn(entries, slot) + if e.slot == slot then 1 else 0
  {
    assert (entries + [e])[..|entries|] == entries;
  }

  lemma {:induction false} CountInConcat(a: seq<Entry>, b: seq<Entry>, slot: nat)
    ensures CountIn(a + b, slot) == CountIn(a, slot) + CountIn(b, slot)
    decreases |b|
  {
    if b == [] {
      assert a + b == a;
    } else {
      var init, last := b[..|b| - 1], b[|b| - 1];
      assert a + b == (a + init) + [last];
      CountInMore(a + init, last, slot);
      CountInConcat(a, init, slot);
    }
  }

  lemma {:induction false} CountInInserted(s: seq<Entry>, e: Entry, slot: nat, key: Entry -> Key)
    ensures CountIn(Insert(s, e, key), slot) == CountIn(s, slot) + if e.slot == slot then 1 else 0
    decreases |s|
  {
    if s == [] {
      CountInMore([], e, slot);
      assert [] + [e] == [e];
    } else if key(s[|s| - 1]).AtMost(key(e)) {
      CountInMore(s, e, slot);
    } else {
      var init := s[..|s| - 1];
      CountInInserted(init, e, slot, key);
      CountInMore(Insert(init, e, key), s[|s| - 1], slot);
    }
  }

  lemma {:induction false} CountInSorted(s: seq<Entry>, slot: nat, key: Entry -> Key)
    ensures CountIn(Sort(s, key), slot) == CountIn(s, slot)
    decreases |s|
  {
    if s != [] {
      var init := s[..|s| - 1];
      CountInSorted(init, slot, key);
      CountInInserted(Sort(init, key), s[|s| - 1], slot, key);
    }
  }

  lemma {:induction false} CountInReversed(s: seq<Entry>, slot: nat)
    ensures CountIn(Reverse(s), slot) == CountIn(s, slot)
    decreases |s|
  {
    if s != [] {
      var init, last := s[..|s| - 1], s[|s| - 1];
      assert Reverse(s) == [last] + Reverse(init);
      CountInConcat([last], Reverse(init), slot);
      CountInMore([], last, slot);
      assert [] + [last] == [last];
      CountInReversed(init, slot);
    }
  }

  /** If nothing points into a slot, no entry does. */
  lemma {:induction false} CountInZero(entries: seq<Entry>, slot: nat)
    requires CountIn(entries, slot) == 0
    ensures forall e :: e in entries ==> e.slot != slot
    decreases |entries|
  {
    if entries != [] {
      CountInZero(entries[..|entries| - 1], slot);
      assert entries == entries[..|entries| - 1] + [entries[|entries| - 1]];
    }
  }

  lemma {:induction false} CountInNone(entries: seq<Entry>, slot: nat)
    requires forall e :: e in entries ==> e.slot != slot
    ensures CountIn(entries, slot) == 0
    decreases |entries|
  {
    if entries != [] {
      CountInNone(entries[..|entries| - 1], slot);
    }
  }

  lemma {:induction false} CountInAll(entries: seq<Entry>, slot: nat)
    requires forall e :: e in entries ==> e.slot == slot
    ensures CountIn(entries, slot) == |entries|
    decreases |entries|
  {
    if entries != [] {
      CountInAll(entries[..|entries| - 1], slot);
    }
  }

  // ---------- one chunk merged into the queue ----------

  /** The entries for messages found in a slot. */
  function EntriesFor(found: seq<Located>, slot: nat): (r: seq<Entry>)
    ensures |r| == |found|
    ensures forall i :: 0 <= i < |found| ==> r[i] == Entry(found[i].message.logTime, found[i].offset, slot)
  {
    seq(|found|, i requires 0 <= i < |found| => Entry(found[i].message.logTime, found[i].offset, slot))
  }

  /** Messages of a chunk in the order they join the queue. */
  function Arriving(order: Order, found: seq<Message>): seq<Message> {
    if order == ReverseLogTimeOrder then Reverse(found) else found
  }

  function ArrivingEntries(order: Order, entries: seq<Entry>): seq<Entry> {
    if order == ReverseLogTimeOrder then Reverse(entries) else entries
  }

  ghost predicate Ascending(found: seq<Located>) {
    forall i, j :: 0 <= i < j < |found| ==> found[i].message.logTime <= found[j].message.logTime
  }

  /** When the chunk is in time order and nothing else is pending, no sort is needed. */
  lemma NoSortNeeded(order: Order, found: seq<Located>, slot: nat)
    requires Ascending(found)
    ensures Sort(ArrivingEntries(order, EntriesFor(found, slot)), EntryKey(order))
         == ArrivingEntries(order, EntriesFor(found, slot))
  {
    SortOfSorted(ArrivingEntries(order, EntriesFor(found, slot)), EntryKey(order));
  }

  /** In file order no sort is needed at all. */
  lemma FileOrderKeepsOrder<T>(s: seq<T>, key: T -> Key)
    requires forall x :: x in s ==> key(x) == Key(0, 0, 0)
    ensures Sort(s, key) == s
  {
    SortOfSorted(s, key);
  }

  /** New entries point at the messages that were found. */
  lemma NewEntriesPoint(found: seq<Located>, slot: nat, slots: seq<Slot>, filter: Filter)
    requires slot < |slots|
    requires forall l :: l in found ==> MessageAt(slots[slot].buf, l.offset) == Some(l.message) && filter.Wants(l.message)
    ensures AllSound(EntriesFor(found, slot), slots, filter)
    ensures Mapped(EntriesFor(found, slot), Pointee(slots)) == Messages(found)
  {
    hide MessageAt;
    var entries := EntriesFor(found, slot);
    forall i | 0 <= i < |found|
      ensures Sound(entries[i], slots, filter) && Pointee(slots)(entries[i]) == found[i].message
    {
      assert found[i] in found;
    }
  }

  lemma ReversedPoint(entries: seq<Entry>, slots: seq<Slot>, filter: Filter, order: Order)
    requires AllSound(entries, slots, filter)
    ensures AllSound(ArrivingEntries(order, entries), slots, filter)
    ensures Mapped(ArrivingEntries(order, entries), Pointee(slots)) == Arriving(order, Mapped(entries, Pointee(slots)))
  {
    hide Sound, Pointee;
    var arriving := ArrivingEntries(order, entries);
    forall e | e in arriving
      ensures Sound(e, slots, filter)
    {
      var i :| 0 <= i < |arriving| && arriving[i] == e;
      assert e in entries;
    }
  }

  /** Entries are unaffected by what happens in slots they do not point into. */
  lemma OtherSlotsMayChange(pending: seq<Entry>, slots: seq<Slot>, slots': seq<Slot>, slot: nat, filter: Filter)
    requires AllSound(pending, slots, filter)
    requires forall e :: e in pending ==> e.slot != slot
    requires |slots| <= |slots'|
    requires forall s :: 0 <= s < |slots| && s != slot ==> slots'[s].buf == slots[s].buf
    ensures AllSound(pending, slots', filter)
    ensures Mapped(pending, Pointee(slots')) == Mapped(pending, Pointee(slots))
  {
    hide MessageAt;
    forall e | e in pending
      ensures Sound(e, slots', filter) && Pointee(slots')(e) == Pointee(slots)(e)
    {
      assert Sound(e, slots, filter);
    }
  }

  lemma SortKeepsSound(entries: seq<Entry>, slots: seq<Slot>, filter: Filter, order: Order)
    requires AllSound(entries, slots, filter)
    ensures AllSound(Sort(entries, EntryKey(order)), slots, filter)
    ensures Mapped(Sort(entries, EntryKey(order)), Pointee(slots)) == Sort(Mapped(entries, Pointee(slots)), MessageKey(order))
  {
    hide MessageAt, Sort;
    forall e | e in entries
      ensures EntryKey(order)(e) == MessageKey(order)(Pointee(slots)(e))
    {
      assert Sound(e, slots, filter);
    }
    SortMapped(entries, Pointee(slots), EntryKey(order), MessageKey(order));
    SortPermutes(entries, EntryKey(order));
    forall e | e in Sort(entries, EntryKey(order))
      ensures Sound(e, slots, filter)
    {
      assert e in multiset(entries);
    }
  }

  /** The queue after a chunk has been merged stands for the merge of the messages. */
  lemma MergeIsSound(order: Order, pending: seq<Entry>, slots: seq<Slot>, found: seq<Located>, slot: nat, slots': seq<Slot>,
                     filter: Filter)
    requires AllSound(pending, slots, filter)
    requires forall e :: e in pending ==> e.slot != slot
    requires |slots| <= |slots'| && slot < |slots'|
    requires forall s :: 0 <= s < |slots| && s != slot ==> slots'[s].buf == slots[s].buf
    requires forall l :: l in found ==> MessageAt(slots'[slot].buf, l.offset) == Some(l.message) && filter.Wants(l.message)
    ensures var merged := Sort(pending + ArrivingEntries(order, EntriesFor(found, slot)), EntryKey(order));
            AllSound(merged, slots', filter) &&
            Mapped(merged, Pointee(slots')) ==
              Sort(Mapped(pending, Pointee(slots)) + Arriving(order, Messages(found)), MessageKey(order))
  {
    NewEntriesPoint(found, slot, slots', filter);
    OtherSlotsMayChange(pending, slots, slots', slot, filter);
    hide *;
    var entries := EntriesFor(found, slot);
    ReversedPoint(entries, slots', filter, order);
    var arriving := ArrivingEntries(order, entries);
    SoundTogether(pending, arriving, slots', filter);
    MappedConcat(pending, arriving, Pointee(slots'));
    SortKeepsSound(pending + arriving, slots', filter, order);
  }

  lemma SoundTogether(a: seq<Entry>, b: seq<Entry>, slots: seq<Slot>, filter: Filter)
    requires AllSound(a, slots, filter) && AllSound(b, slots, filter)
    ensures AllSound(a + b, slots, filter)
  {
    hide Sound;
  }

  // ---------- bookkeeping of slots ----------

  /** Every pending entry is sound, and each slot knows how many entries point into it. */
  ghost predicate QueueOk(pending: seq<Entry>, slots: seq<Slot>, filter: Filter) {
    AllSound(pending, slots, filter) &&
    forall s :: 0 <= s < |slots| ==> slots[s].unreadMessages == CountIn(pending, s)
  }

  /** The entry counts after a chunk has been merged. */
  lemma MergeCounts(order: Order, pending: seq<Entry>, found: seq<Located>, slot: nat, s: nat)
    ensures CountIn(Sort(pending + ArrivingEntries(order, EntriesFor(found, slot)), EntryKey(order)), s)
         == CountIn(pending, s) + if s == slot then |found| else 0
  {
    var entries := EntriesFor(found, slot);
    var arriving := ArrivingEntries(order, entries);
    CountInReversed(entries, s);
    if s == slot {
      CountInAll(entries, s);
    } else {
      CountInNone(entries, s);
    }
    CountInConcat(pending, arriving, s);
    CountInSorted(pending + arriving, s, EntryKey(order));
  }

  /** Sorting can be skipped when the code skips it. */
  lemma SkippedSort(order: Order, pending: seq<Entry>, found: seq<Located>, slot: nat)
    requires order == FileOrder || (pending == [] && Ascending(found))
    ensures var all := pending + ArrivingEntries(order, EntriesFor(found, slot));
            Sort(all, EntryKey(order)) == all
  {
    var entries := EntriesFor(found, slot);
    var all := pending + ArrivingEntries(order, entries);
    if order == FileOrder {
      FileOrderKeepsOrder(all, EntryKey(order));
    } else {
      NoSortNeeded(order, found, slot);
      assert all == ArrivingEntries(order, entries);
    }
  }

  // ---------- the iterator ----------

  /** What the chunks add to the queue, in the order they are loaded. */
  ghost function Arrived(chunks: seq<ChunkIndex>, contents: map<nat, bytes>, order: Order, filter: Filter): seq<Message>
    decreases |chunks|
  {
    if chunks == [] then []
    else Arrived(chunks[..|chunks| - 1], contents, order, filter) + Arrival(chunks[|chunks| - 1], contents, order, filter)
  }

  ghost function Arrival(c: ChunkIndex, contents: map<nat, bytes>, order: Order, filter: Filter): seq<Message> {
    if c.chunkOffset in contents then Arriving(order, Selected(contents[c.chunkOffset], filter)) else []
  }

  /** The chunk index names bounds within which all wanted messages of its chunk lie. */
  ghost predicate BoundsHold(c: ChunkIndex, contents: map<nat, bytes>, filter: Filter) {
    c.chunkOffset in contents ==>
      forall m :: m in Selected(contents[c.chunkOffset], filter) ==> c.startTime <= m.logTime <= c.endTime
  }

  /** A delivered message does not have to wait for the chunk. */
  predicate MayPrecede(order: Order, m: Message, c: ChunkIndex) {
    MayPrecedeTime(order, m.logTime, c)
  }

  /** A message of that time does not have to wait for the chunk. */
  predicate MayPrecedeTime(order: Order, time: nat, c: ChunkIndex) {
    match order
    case FileOrder => true
    case LogTimeOrder => time <= c.startTime
    case ReverseLogTimeOrder => time >= c.endTime
  }

  /** A chunk that can be read and parsed. */
  ghost predicate Loadable(c: ChunkIndex, contents: map<nat, bytes>, filter: Filter) {
    c.chunkOffset in contents && Scan(contents[c.chunkOffset], 0, filter).Some?
  }

  /** The order in which chunks have to be loaded. */
  function ChunkKey(order: Order): ChunkIndex -> Key {
    (c: ChunkIndex) =>
      match order
      case FileOrder => Key(c.chunkOffset, 0, 0)
      case LogTimeOrder => Key(c.startTime, c.chunkOffset, 0)
      case ReverseLogTimeOrder => Key(0 - c.endTime, 0 - c.chunkOffset, 0)
  }

  /** Chunks at different offsets. */
  ghost predicate DistinctOffsets(chunks: seq<ChunkIndex>) {
    forall i, j :: 0 <= i < j < |chunks| ==> chunks[i].chunkOffset != chunks[j].chunkOffset
  }

  /** Sorting as `sort.Slice` does it: a permutation in order, with nothing said about the order of
      equal keys. Chunks at different offsets have different keys. */
  method SortSlice(chunks: seq<ChunkIndex>, order: Order) returns (sorted: seq<ChunkIndex>)
    ensures Sorted(sorted, ChunkKey(order)) && multiset(sorted) == multiset(chunks)
    ensures DistinctOffsets(chunks) ==> sorted == Sort(chunks, ChunkKey(order))
  {
    hide Sort;
    sorted := Sort(chunks, ChunkKey(order));
    SortSorts(chunks, ChunkKey(order));
    SortPermutes(chunks, ChunkKey(order));
  }

  /** The chunks stand in loading order and their bounds hold. */
  ghost predicate ChunksOk(chunks: seq<ChunkIndex>, contents: map<nat, bytes>, order: Order, filter: Filter) {
    Sorted(chunks, ChunkKey(order)) && forall c :: c in chunks ==> BoundsHold(c, contents, filter)
  }

  /** Nothing delivered should have waited for a chunk that is still to be loaded. */
  ghost predicate NotTooEarly(delivered: seq<Message>, chunks: seq<ChunkIndex>, n: nat, order: Order) {
    forall m, j :: m in delivered && n <= j < |chunks| ==> MayPrecede(order, m, chunks[j])
  }

  lemma PrecedenceSpreads(order: Order, m: Message, chunks: seq<ChunkIndex>, i: nat)
    requires Sorted(chunks, ChunkKey(order)) && i < |chunks| && MayPrecede(order, m, chunks[i])
    ensures forall j :: i <= j < |chunks| ==> MayPrecede(order, m, chunks[j])
  {
    forall j | i <= j < |chunks|
      ensures MayPrecede(order, m, chunks[j])
    {
      if i < j {
        assert ChunkKey(order)(chunks[i]).AtMost(ChunkKey(order)(chunks[j]));
      }
    }
  }

  lemma PrecedesArrival(order: Order, delivered: seq<Message>, c: ChunkIndex, contents: map<nat, bytes>, filter: Filter)
    requires forall m :: m in delivered ==> MayPrecede(order, m, c)
    requires BoundsHold(c, contents, filter)
    ensures Before(delivered, Arrival(c, contents, order, filter), MessageKey(order))
  {
    hide Selected;
    var arrival := Arrival(c, contents, order, filter);
    forall i, j | 0 <= i < |delivered| && 0 <= j < |arrival|
      ensures MessageKey(order)(delivered[i]).AtMost(MessageKey(order)(arrival[j]))
    {
      assert delivered[i] in delivered;
      assert arrival[j] in Selected(contents[c.chunkOffset], filter);
    }
  }

  /** The next chunk's messages come behind everything delivered. */
  lemma NextArrives(chunks: seq<ChunkIndex>, n: nat, delivered: seq<Message>, contents: map<nat, bytes>, order: Order,
                    filter: Filter)
    requires n < |chunks| && ChunksOk(chunks, contents, order, filter) && NotTooEarly(delivered, chunks, n, order)
    ensures Before(delivered, Arrival(chunks[n], contents, order, filter), MessageKey(order))
    ensures Arrived(chunks[..n + 1], contents, order, filter) ==
            Arrived(chunks[..n], contents, order, filter) + Arrival(chunks[n], contents, order, filter)
    ensures NotTooEarly(delivered, chunks, n + 1, order)
  {
    hide Arrival, BoundsHold, MayPrecede, MessageKey;
    assert chunks[n] in chunks;
    assert chunks[..n + 1][..n] == chunks[..n];
    PrecedesArrival(order, delivered, chunks[n], contents, filter);
  }

  datatype Next =
    | Eof
    | Failed
    | MissingSchema(unschemed: Message)
    | Yielded(schema: Option<SchemaRecord>, channel: ChannelRecord, message: Message)

  // ---------- the summary section ----------

  /** What the scan of the summary has collected so far. */
  datatype Collected = Collected(schemas: map<nat, SchemaRecord>, channels: map<nat, ChannelRecord>, chunks: seq<ChunkIndex>)

  /** Whether messages of a topic are asked for; no topics means all topics. */
  predicate TopicWanted(topics: set<bytes>, topic: bytes) {
    topics == {} || topic in topics
  }

  /** Whether a chunk may hold wanted messages, going by its index alone. */
  predicate MayHoldWanted(c: ChunkIndex, channels: map<nat, ChannelRecord>, start: nat, end: nat) {
    ((end == 0 && start == 0) || (c.startTime < end && c.endTime >= start)) &&
    (c.indexOffsets == [] || exists i :: 0 <= i < |c.indexOffsets| && c.indexOffsets[i].0 in channels)
  }

  function Collect(s: Collected, r: R.Record, topics: set<bytes>, start: nat, end: nat): Collected {
    match r
    case Schema(id, _, _, _) => s.(schemas := s.schemas[id := r])
    case Channel(id, _, topic, _, _) => if TopicWanted(topics, topic) then s.(channels := s.channels[id := r]) else s
    case ChunkIndex(_, _, _, _, _, _, _, _, _) =>
      if MayHoldWanted(r, s.channels, start, end) then s.(chunks := s.chunks + [r]) else s
    case _ => s
  }

  function CollectAll(records: seq<R.Record>, topics: set<bytes>, start: nat, end: nat): Collected
    decreases |records|
  {
    if records == [] then Collected(map[], map[], [])
    else Collect(CollectAll(records[..|records| - 1], topics, start, end), records[|records| - 1], topics, start, end)
  }

  // ---------- outcomes of a whole read ----------

  /** The message's channel is known and names a schema that is not. */
  predicate SchemaMissing(m: Message, channels: map<nat, ChannelRecord>, schemas: map<nat, SchemaRecord>) {
    m.channelId in channels && channels[m.channelId].channelSchema != 0 && channels[m.channelId].channelSchema !in schemas
  }

  /** What calls for the next message give for a list of messages: up to the first message
      whose schema is missing, or to the end. */
  function Outcomes(messages: seq<Message>, channels: map<nat, ChannelRecord>, schemas: map<nat, SchemaRecord>): seq<Next>
    decreases |messages|
  {
    if messages == [] then [Eof]
    else if messages[0].channelId !in channels then Outcomes(messages[1..], channels, schemas)
    else
      var channel := channels[messages[0].channelId];
      if channel.channelSchema in schemas then
        [Yielded(Some(schemas[channel.channelSchema]), channel, messages[0])] + Outcomes(messages[1..], channels, schemas)
      else if channel.channelSchema == 0 then
        [Yielded(None, channel, messages[0])] + Outcomes(messages[1..], channels, schemas)
      else [MissingSchema(messages[0])]
  }

  class IndexedMessageIterator {
    /** The uncompressed chunks that can be read, by their offsets in the file. */
    const contents: map<nat, bytes>
    const order: Order

    /** Topics asked for; none means all. */
    const topics: set<bytes>
    const start: nat
    const end: nat

    const channels: SliceMap<ChannelRecord>
    const schemas: SliceMap<SchemaRecord>
    var chunkIndexes: seq<ChunkIndex>

    var curChunkIndex: nat
    var messageIndexes: seq<Entry>
    var curMessageIndex: nat
    var chunkSlots: seq<Slot>

    /** The messages handed out so far. */
    ghost var delivered: seq<Message>

    ghost function Wanted(): Filter
      reads channels
    {
      Filter(channels.Contents().Keys, start, end)
    }

    /** The queue entries not yet handed out. */
    ghost function Pending(): seq<Entry>
      requires curMessageIndex <= |messageIndexes|
      reads this
    {
      messageIndexes[curMessageIndex..]
    }

    /** The messages those entries point at. */
    ghost function Queue(): seq<Message>
      requires curMessageIndex <= |messageIndexes|
      reads this
    {
      Mapped(Pending(), Pointee(chunkSlots))
    }

    ghost predicate Valid()
      reads this, channels
    {
      && curMessageIndex <= |messageIndexes|
      && curChunkIndex <= |chunkIndexes|
      && QueueOk(Pending(), chunkSlots, Wanted())
      && delivered + Queue() == Sort(Arrived(chunkIndexes[..curChunkIndex], contents, order, Wanted()), MessageKey(order))
      && ChunksOk(chunkIndexes, contents, order, Wanted())
      && NotTooEarly(delivered, chunkIndexes, curChunkIndex, order)
    }

    constructor (contents: map<nat, bytes>, topics: set<bytes>, start: nat, end: nat, order: Order)
      ensures this.contents == contents && this.topics == topics && this.start == start && this.end == end && this.order == order
      ensures fresh(channels) && channels.Valid() && channels.Contents() == map[]
      ensures fresh(schemas) && schemas.Valid() && schemas.Contents() == map[]
      ensures chunkIndexes == [] && curChunkIndex == 0
      ensures messageIndexes == [] && curMessageIndex == 0 && chunkSlots == [] && delivered == []
    {
      this.contents, this.topics, this.start, this.end, this.order := contents, topics, start, end, order;
      channels := new SliceMap<ChannelRecord>();
      schemas := new SliceMap<SchemaRecord>();
      chunkIndexes, curChunkIndex := [], 0;
      messageIndexes, curMessageIndex, chunkSlots, delivered := [], 0, [], [];
    }

    /** Scans the summary section up to the footer: schemas, the channels of wanted topics,
        and the chunks that may hold wanted messages, in the order they have to be loaded. */
    method ParseSummarySection(summary: seq<R.Record>) returns (ok: bool, footer: nat)
      requires channels.Valid() && channels.Contents() == map[] && schemas.Valid() && schemas.Contents() == map[]
      requires chunkIndexes == []
      requires forall r :: r in summary ==> r.Fits()
      modifies this`chunkIndexes, channels, schemas
      ensures ok <==> exists i :: 0 <= i < |summary| && summary[i].Footer?
      ensures ok ==> footer < |summary| && summary[footer].Footer? && forall i :: 0 <= i < footer ==> !summary[i].Footer?
      ensures ok ==>
        var collected := CollectAll(summary[..footer], topics, start, end);
        channels.Contents() == collected.channels && schemas.Contents() == collected.schemas &&
        Sorted(chunkIndexes, ChunkKey(order)) && multiset(chunkIndexes) == multiset(collected.chunks) &&
        (DistinctOffsets(collected.chunks) ==> chunkIndexes == Sort(collected.chunks, ChunkKey(order)))
    {
      hide Sort;
      assert summary[..0] == [];
      for n := 0 to |summary|
        invariant channels.Valid() && schemas.Valid()
        invariant Collected(schemas.Contents(), channels.Contents(), chunkIndexes) == CollectAll(summary[..n], topics, start, end)
        invariant forall i :: 0 <= i < n ==> !summary[i].Footer?
      {
        var record := summary[n];
        assert record in summary;
        assert summary[..n + 1][..n] == summary[..n];
        match record
        case Schema(id, _, _, _) =>
          schemas.Set(id, record);
        case Channel(id, _, topic, _, _) =>
          if TopicWanted(topics, topic) {
            channels.Set(id, record);
          }
        case ChunkIndex(_, _, _, _, _, _, _, _, _) =>
          AddIfWanted(record);
        case Footer(_, _, _) =>
          chunkIndexes := SortSlice(chunkIndexes, order);
          return true, n;
        case _ =>
      }
      ok, footer := false, 0;
    }

    /** Keeps a chunk index if its time range and its channels overlap with what is read.
        Without message indexes the channels of a chunk are unknown. */
    method AddIfWanted(idx: ChunkIndex)
      modifies this`chunkIndexes
      ensures chunkIndexes ==
        if MayHoldWanted(idx, channels.Contents(), start, end) then old(chunkIndexes) + [idx] else old(chunkIndexes)
    {
      if (end == 0 && start == 0) || (idx.startTime < end && idx.endTime >= start) {
        if |idx.indexOffsets| == 0 {
          chunkIndexes := chunkIndexes + [idx];
          return;
        }
        for i := 0 to |idx.indexOffsets|
          invariant chunkIndexes == old(chunkIndexes)
          invariant forall k :: 0 <= k < i ==> idx.indexOffsets[k].0 !in channels.Contents()
        {
          var channel := channels.Get(idx.indexOffsets[i].0);
          if channel.Some? {
            chunkIndexes := chunkIndexes + [idx];
            return;
          }
        }
      }
    }

    /** A slot that nothing pending points into, a new one if there is none. */
    method FindSlot() returns (slot: nat)
      modifies this`chunkSlots
      ensures slot < |chunkSlots| && chunkSlots[slot].unreadMessages == 0
      ensures chunkSlots == old(chunkSlots) || chunkSlots == old(chunkSlots) + [Slot([], 0)]
    {
      for i := 0 to |chunkSlots|
        invariant chunkSlots == old(chunkSlots)
      {
        if chunkSlots[i].unreadMessages == 0 {
          return i;
        }
      }
      chunkSlots := chunkSlots + [Slot([], 0)];
      slot := |chunkSlots| - 1;
    }

    /** Appends an entry for every wanted message of the chunk in a slot. Says whether the
        chunk could be parsed and whether the queue has to be sorted afterwards. */
    method IndexChunk(slot: nat, mustSort: bool) returns (ok: bool, sortingRequired: bool)
      requires slot < |chunkSlots| && chunkSlots[slot].unreadMessages == 0
      modifies this`messageIndexes, this`chunkSlots
      ensures var found := Scan(old(chunkSlots[slot].buf), 0, Wanted());
              ok == found.Some? &&
              (ok ==>
                messageIndexes == old(messageIndexes) + EntriesFor(found.value, slot) &&
                chunkSlots == old(chunkSlots)[slot := Slot(old(chunkSlots[slot].buf), |found.value|)] &&
                (mustSort ==> sortingRequired) && (!sortingRequired ==> Ascending(found.value)))
    {
      hide PopulateFrom, RecordEnd;
      var buf := chunkSlots[slot].buf;
      sortingRequired := mustSort;
      ghost var base := messageIndexes;
      ghost var slots := chunkSlots;
      ghost var found: seq<Located> := [];
      assert base + EntriesFor([], slot) == base;
      assert slots[slot := Slot(buf, 0)] == slots;
      var maxLogTime := 0;
      var offset := 0;
      while offset < |buf|
        invariant Scan(buf, 0, Wanted()).None? <==> Scan(buf, offset, Wanted()).None?
        invariant Scan(buf, offset, Wanted()).Some? ==>
                    Scan(buf, 0, Wanted()).value == found + Scan(buf, offset, Wanted()).value
        invariant messageIndexes == base + EntriesFor(found, slot)
        invariant chunkSlots == slots[slot := Slot(buf, |found|)]
        invariant mustSort ==> sortingRequired
        invariant !sortingRequired ==> Ascending(found) && forall l :: l in found ==> l.message.logTime <= maxLogTime
        decreases |buf| - offset
      {
        var recordEnd := RecordEnd(buf, offset);
        if recordEnd.None? {
          return false, sortingRequired;
        }
        if buf[offset] == Format.OP_MESSAGE {
          var msg := PopulateFrom(buf[offset + 9..recordEnd.value]);
          if msg.None? {
            return false, sortingRequired;
          }
          var m := msg.value;
          var channel := channels.Get(m.channelId);
          if channel.Some? && m.logTime >= start && m.logTime < end {
            assert Wanted().Wants(m);
            messageIndexes := messageIndexes + [Entry(m.logTime, offset, slot)];
            if m.logTime < maxLogTime {
              sortingRequired := true;
            } else {
              maxLogTime := m.logTime;
            }
            chunkSlots := chunkSlots[slot := Slot(buf, chunkSlots[slot].unreadMessages + 1)];
            assert EntriesFor(found + [Located(offset, m)], slot) == EntriesFor(found, slot) + [Entry(m.logTime, offset, slot)];
            FoundGrows(found, Located(offset, m), buf, recordEnd.value, Wanted());
            found := found + [Located(offset, m)];
          }
        }
        offset := recordEnd.value;
      }
      assert found + [] == found;
      ok := true;
    }

    /** Reverses and sorts the queue as the read order asks for, and drops the dead space at
        its front if that outweighs what is pending. */
    method ArrangeQueue(startIdx: nat, sortingRequired: bool)
      requires curMessageIndex <= startIdx <= |messageIndexes|
      modifies this`messageIndexes, this`curMessageIndex
      ensures curMessageIndex <= |messageIndexes|
      ensures var all := old(messageIndexes[curMessageIndex..startIdx]) + ArrivingEntries(order, old(messageIndexes[startIdx..]));
              Pending() == if order != FileOrder && sortingRequired then Sort(all, EntryKey(order)) else all
    {
      hide Sort, EntryKey;
      var unread := messageIndexes[curMessageIndex..];
      if order == ReverseLogTimeOrder {
        unread := messageIndexes[curMessageIndex..startIdx] + Reverse(messageIndexes[startIdx..]);
      } else {
        assert unread == messageIndexes[curMessageIndex..startIdx] + messageIndexes[startIdx..];
      }
      if order != FileOrder && sortingRequired {
        unread := Sort(unread, EntryKey(order));
      }
      messageIndexes := messageIndexes[..curMessageIndex] + unread;
      if |unread| < curMessageIndex {
        messageIndexes, curMessageIndex := unread, 0;
      }
    }

    /** Decompresses a chunk into a free slot and merges its messages into the queue. */
    method LoadChunk(c: ChunkIndex) returns (ok: bool)
      requires curMessageIndex <= |messageIndexes|
      requires QueueOk(Pending(), chunkSlots, Wanted())
      modifies this`messageIndexes, this`curMessageIndex, this`chunkSlots
      ensures ok <==> c.chunkOffset in contents && Scan(contents[c.chunkOffset], 0, Wanted()).Some?
      ensures ok ==> curMessageIndex <= |messageIndexes| && QueueOk(Pending(), chunkSlots, Wanted())
      ensures ok ==> Queue() == Sort(old(Queue()) + Arrival(c, contents, order, Wanted()), MessageKey(order))
    {
      hide Sort, Pointee, AllSound, Scan, CountIn, QueueOk, Selected, Arriving, ArrivingEntries, EntryKey, MessageKey;
      if c.chunkOffset !in contents {
        return false;
      }
      var buf := contents[c.chunkOffset];
      ghost var pending, slots, filter := Pending(), chunkSlots, Wanted();
      var chunkSlotIndex := FindSlot();
      SlotIsUnused(pending, slots, chunkSlots, filter, chunkSlotIndex);
      chunkSlots := chunkSlots[chunkSlotIndex := Slot(buf, 0)];

      var sortingRequired := true;
      if curMessageIndex == |messageIndexes| {
        curMessageIndex, messageIndexes, sortingRequired := 0, [], false;
      }
      var startIdx := |messageIndexes|;
      ok, sortingRequired := IndexChunk(chunkSlotIndex, sortingRequired);
      if !ok {
        return;
      }
      ghost var found := Scan(buf, 0, filter).value;
      assert messageIndexes[curMessageIndex..startIdx] == pending;
      assert messageIndexes[startIdx..] == EntriesFor(found, chunkSlotIndex);
      if order == FileOrder || !sortingRequired {
        SkippedSort(order, pending, found, chunkSlotIndex);
      }
      ArrangeQueue(startIdx, sortingRequired);
      MergedQueue(pending, slots, chunkSlots, filter, order, found, chunkSlotIndex, buf);
    }

    /** Loads the next chunk. What was delivered and what is now pending continue the sort
        of everything that has arrived. */
    method LoadNextChunk() returns (ok: bool)
      requires Valid() && curChunkIndex < |chunkIndexes|
      modifies this`messageIndexes, this`curMessageIndex, this`chunkSlots, this`curChunkIndex
      ensures ok <==> Loadable(chunkIndexes[old(curChunkIndex)], contents, Wanted())
      ensures ok ==> Valid() && curChunkIndex == old(curChunkIndex) + 1
    {
      hide Sort, Pointee, QueueOk, Selected, Scan, Arrived, Arrival, ChunksOk, NotTooEarly, MessageKey;
      var chunkIndex := chunkIndexes[curChunkIndex];
      ghost var arrived := Arrived(chunkIndexes[..curChunkIndex], contents, order, Wanted());
      ghost var arrival := Arrival(chunkIndex, contents, order, Wanted());
      NextArrives(chunkIndexes, curChunkIndex, delivered, contents, order, Wanted());
      SortContinues(arrived, delivered, Queue(), arrival, MessageKey(order));
      ok := LoadChunk(chunkIndex);
      if ok {
        curChunkIndex := curChunkIndex + 1;
      }
    }

    /** Hands out the first pending message, reading it once more from its slot. */
    method YieldNext() returns (message: Message)
      requires Valid() && curMessageIndex < |messageIndexes|
      requires curChunkIndex < |chunkIndexes| ==>
                 MayPrecedeTime(order, messageIndexes[curMessageIndex].timestamp, chunkIndexes[curChunkIndex])
      modifies this`chunkSlots, this`curMessageIndex, this`delivered
      ensures Valid() && delivered == old(delivered) + [message]
      ensures message == old(Queue()[0]) && Wanted().Wants(message)
    {
      hide Sort, MessageAt, QueueOk, CountIn, Arrived, ChunksOk, NotTooEarly, Pointee, MayPrecedeTime, Mapped, MessageKey;
      ghost var pending, slots := Pending(), chunkSlots;
      var messageIndex := messageIndexes[curMessageIndex];
      PendingShrinks(pending, slots, Wanted());
      var slot := messageIndex.slot;
      message := MessageAt(chunkSlots[slot].buf, messageIndex.offset).value;
      StillNotTooEarly(order, delivered, message, chunkIndexes, curChunkIndex, contents, Wanted());
      chunkSlots := chunkSlots[slot := chunkSlots[slot].(unreadMessages := chunkSlots[slot].unreadMessages - 1)];
      curMessageIndex := curMessageIndex + 1;
      assert Pending() == pending[1..];
      FirstMoves(delivered, message, Queue(), Mapped(pending, Pointee(slots)));
      delivered := delivered + [message];
    }

    /** Yields the next message, loading chunks first where they might hold an earlier one. */
    method NextInto() returns (r: Next)
      requires Valid()
      modifies this
      ensures chunkIndexes == old(chunkIndexes)
      ensures !r.Failed? ==> Valid()
      ensures r.Failed? ==> exists c :: c in chunkIndexes && !Loadable(c, contents, Wanted())
      ensures r.Eof? ==> delivered == old(delivered) == Sort(Arrived(chunkIndexes, contents, order, Wanted()), MessageKey(order))
      ensures r.Yielded? ==>
        delivered == old(delivered) + [r.message] &&
        r.message.channelId in channels.Contents() && r.channel == channels.Contents()[r.message.channelId] &&
        r.schema == (if r.channel.channelSchema in schemas.Contents() then Some(schemas.Contents()[r.channel.channelSchema]) else None) &&
        !SchemaMissing(r.message, channels.Contents(), schemas.Contents())
      ensures r.MissingSchema? ==> delivered == old(delivered) + [r.unschemed] && SchemaMissing(r.unschemed, channels.Contents(), schemas.Contents())
    {
      while true
        invariant Valid() && chunkIndexes == old(chunkIndexes) && delivered == old(delivered)
        decreases |chunkIndexes| - curChunkIndex
      {
        hide Sort, QueueOk, Arrived, Pointee;
        if curMessageIndex >= |messageIndexes| {
          if curChunkIndex >= |chunkIndexes| {
            assert chunkIndexes[..curChunkIndex] == chunkIndexes;
            assert Queue() == [] && delivered + [] == delivered;
            return Eof;
          }
          assert chunkIndexes[curChunkIndex] in chunkIndexes;
          var ok := LoadNextChunk();
          if !ok {
            return Failed;
          }
          continue;
        }
        if curChunkIndex < |chunkIndexes| {
          var chunkIndex := chunkIndexes[curChunkIndex];
          var messageIndex := messageIndexes[curMessageIndex];
          if (order == LogTimeOrder && chunkIndex.startTime < messageIndex.timestamp) ||
             (order == ReverseLogTimeOrder && chunkIndex.endTime > messageIndex.timestamp) {
            assert chunkIndex in chunkIndexes;
            var ok := LoadNextChunk();
            if !ok {
              return Failed;
            }
            continue;
          }
        }
        var message := YieldNext();
        var channel := channels.Get(message.channelId);
        var schema := schemas.Get(channel.value.channelSchema);
        if schema.None? && channel.value.channelSchema != 0 {
          return MissingSchema(message);
        }
        return Yielded(schema, channel.value, message);
      }
    }

    /** An iterator that has not read anything is valid if its chunks are in order. */
    lemma StartsValid()
      requires curChunkIndex == 0 && curMessageIndex == 0 && messageIndexes == [] && chunkSlots == [] && delivered == []
      requires ChunksOk(chunkIndexes, contents, order, Wanted())
      ensures Valid()
    {
      SortOfNone(MessageKey(order));
    }

    /** What was delivered so far is a first part of the sort of all that arrives. */
    lemma DeliveredIsFirst()
      requires Valid()
      ensures delivered <= Sort(Arrived(chunkIndexes, contents, order, Wanted()), MessageKey(order))
    {
      DeliveredFirst(delivered, Queue(), chunkIndexes, curChunkIndex, contents, order, Wanted());
    }

    /** Reads to the end. If all chunks can be loaded, the outcomes are those of one stable
        sort of everything the chunks hold for this read, in the order they are loaded. */
    method ReadAll() returns (outcomes: seq<Next>)
      requires Valid() && delivered == []
      requires forall c :: c in chunkIndexes ==> Loadable(c, contents, Wanted())
      modifies this
      ensures chunkIndexes == old(chunkIndexes)
      ensures outcomes == Outcomes(Sort(Arrived(chunkIndexes, contents, order, Wanted()), MessageKey(order)),
                                   channels.Contents(), schemas.Contents())
    {
      hide *;
      outcomes := [];
      ghost var all := Sort(Arrived(chunkIndexes, contents, order, Wanted()), MessageKey(order));
      ghost var cs, ss := channels.Contents(), schemas.Contents();
      assert all[0..] == all;
      while true
        invariant Valid() && chunkIndexes == old(chunkIndexes)
        invariant delivered <= all && Wanted() == old(Wanted())
        invariant channels.Contents() == cs && schemas.Contents() == ss
        invariant Outcomes(all, cs, ss) == outcomes + Outcomes(all[|delivered|..], cs, ss)
        decreases |all| - |delivered|
      {
        ghost var before := delivered;
        var next := NextInto();
        if next.Failed? {
          assert false;
        } else {
          DeliveredIsFirst();
        }
        match next
        case Failed => return;
        case Eof =>
          assert all[|before|..] == [];
          OutcomesOfNone(cs, ss);
          return outcomes + [Eof];
        case MissingSchema(m) =>
          assert all[|before|..][0] == m;
          OutcomesOfMissing(all[|before|..], cs, ss);
          return outcomes + [next];
        case Yielded(_, _, m) =>
          assert all[|before|..][0] == m && all[|before|..][1..] == all[|delivered|..];
          OutcomesOfYielded(all[|before|..], cs, ss, next);
          ghost var rest := Outcomes(all[|delivered|..], cs, ss);
          assert outcomes + ([next] + rest) == (outcomes + [next]) + rest;
          outcomes := outcomes + [next];
      }
    }
  }

  /** What was delivered so far is a first part of the sort of all that arrives. */
  lemma {:induction false} DeliveredFirst(delivered: seq<Message>, queue: seq<Message>, chunks: seq<ChunkIndex>, n: nat,
                                          contents: map<nat, bytes>, order: Order, filter: Filter)
    requires n <= |chunks|
    requires delivered + queue == Sort(Arrived(chunks[..n], contents, order, filter), MessageKey(order))
    requires ChunksOk(chunks, contents, order, filter) && NotTooEarly(delivered, chunks, n, order)
    ensures delivered <= Sort(Arrived(chunks, contents, order, filter), MessageKey(order))
    decreases |chunks| - n
  {
    hide Sort, Arrival, BoundsHold, MayPrecede, MessageKey;
    if n == |chunks| {
      assert chunks[..n] == chunks;
    } else {
      var arrived := Arrived(chunks[..n], contents, order, filter);
      var arrival := Arrival(chunks[n], contents, order, filter);
      assert chunks[..n + 1][..n] == chunks[..n];
      assert chunks[n] in chunks;
      PrecedesArrival(order, delivered, chunks[n], contents, filter);
      SortContinues(arrived, delivered, queue, arrival, MessageKey(order));
      DeliveredFirst(delivered, Sort(queue + arrival, MessageKey(order)), chunks, n + 1, contents, order, filter);
    }
  }

  lemma OutcomesOfNone(channels: map<nat, ChannelRecord>, schemas: map<nat, SchemaRecord>)
    ensures Outcomes([], channels, schemas) == [Eof]
  {
  }

  lemma OutcomesOfMissing(messages: seq<Message>, channels: map<nat, ChannelRecord>, schemas: map<nat, SchemaRecord>)
    requires messages != [] && SchemaMissing(messages[0], channels, schemas)
    ensures Outcomes(messages, channels, schemas) == [MissingSchema(messages[0])]
  {
  }

  lemma OutcomesOfYielded(messages: seq<Message>, channels: map<nat, ChannelRecord>, schemas: map<nat, SchemaRecord>, next: Next)
    requires messages != [] && next.Yielded? && next.message == messages[0]
    requires next.message.channelId in channels && next.channel == channels[next.message.channelId]
    requires next.schema == if next.channel.channelSchema in schemas then Some(schemas[next.channel.channelSchema]) else None
    requires !SchemaMissing(messages[0], channels, schemas)
    ensures Outcomes(messages, channels, schemas) == [next] + Outcomes(messages[1..], channels, schemas)
  {
  }

  lemma FirstMoves(delivered: seq<Message>, m: Message, rest: seq<Message>, queue: seq<Message>)
    requires queue == [m] + rest
    ensures delivered + queue == (delivered + [m]) + rest
  {
  }

  /** The first entry is one of those that its slot counts. */
  lemma FirstCounted(pending: seq<Entry>, slot: nat)
    requires pending != []
    ensures CountIn(pending, slot) == CountIn(pending[1..], slot) + if pending[0].slot == slot then 1 else 0
  {
    assert pending == [pending[0]] + pending[1..];
    CountInConcat([pending[0]], pending[1..], slot);
    CountInMore([], pending[0], slot);
    assert [] + [pending[0]] == [pending[0]];
  }

  /** Taking the first entry and counting its slot down keeps the books. */
  lemma PendingShrinks(pending: seq<Entry>, slots: seq<Slot>, filter: Filter)
    requires pending != [] && QueueOk(pending, slots, filter)
    ensures var slot := pending[0].slot;
            slot < |slots| && slots[slot].unreadMessages > 0 &&
            MessageAt(slots[slot].buf, pending[0].offset) == Some(Pointee(slots)(pending[0])) &&
            filter.Wants(Pointee(slots)(pending[0])) && Pointee(slots)(pending[0]).logTime == pending[0].timestamp &&
            var slots' := slots[slot := slots[slot].(unreadMessages := slots[slot].unreadMessages - 1)];
            QueueOk(pending[1..], slots', filter) &&
            Mapped(pending, Pointee(slots)) == [Pointee(slots)(pending[0])] + Mapped(pending[1..], Pointee(slots'))
  {
    hide MessageAt, CountIn;
    var slot := pending[0].slot;
    assert pending[0] in pending;
    assert Sound(pending[0], slots, filter);
    FirstCounted(pending, slot);
    var slots' := slots[slot := slots[slot].(unreadMessages := slots[slot].unreadMessages - 1)];
    forall e | e in pending[1..]
      ensures Sound(e, slots', filter) && Pointee(slots')(e) == Pointee(slots)(e)
    {
      assert e in pending;
      assert Sound(e, slots, filter);
    }
    forall s | 0 <= s < |slots'|
      ensures slots'[s].unreadMessages == CountIn(pending[1..], s)
    {
      FirstCounted(pending, s);
    }
  }

  lemma StillNotTooEarly(order: Order, delivered: seq<Message>, m: Message, chunks: seq<ChunkIndex>, i: nat,
                         contents: map<nat, bytes>, filter: Filter)
    requires ChunksOk(chunks, contents, order, filter) && NotTooEarly(delivered, chunks, i, order)
    requires i < |chunks| ==> MayPrecedeTime(order, m.logTime, chunks[i])
    ensures NotTooEarly(delivered + [m], chunks, i, order)
  {
    if i < |chunks| {
      PrecedenceSpreads(order, m, chunks, i);
    }
  }

  /** Nothing pending points into a slot without unread messages, or into a new slot. */
  lemma SlotIsUnused(pending: seq<Entry>, slots: seq<Slot>, slots': seq<Slot>, filter: Filter, slot: nat)
    requires QueueOk(pending, slots, filter)
    requires slots' == slots || slots' == slots + [Slot([], 0)]
    requires slot < |slots'| && slots'[slot].unreadMessages == 0
    ensures forall e :: e in pending ==> e.slot != slot
    ensures CountIn(pending, slot) == 0
    ensures |slots'| > |slots| ==> CountIn(pending, |slots|) == 0
  {
    hide MessageAt;
    if slot < |slots| {
      CountInZero(pending, slot);
    }
    if |slots'| > |slots| {
      forall e | e in pending
        ensures e.slot != |slots|
      {
        assert Sound(e, slots, filter);
      }
      CountInNone(pending, |slots|);
    }
  }

  /** The queue after a merge: sound, correctly counted, and standing for the merge of
      the messages. */
  lemma MergedQueue(pending: seq<Entry>, slots: seq<Slot>, slots': seq<Slot>, filter: Filter, order: Order,
                    found: seq<Located>, slot: nat, buf: bytes)
    requires QueueOk(pending, slots, filter)
    requires forall e :: e in pending ==> e.slot != slot
    requires |slots| <= |slots'| <= |slots| + 1 && slot < |slots'|
    requires |slots'| > |slots| ==> CountIn(pending, |slots|) == 0
    requires CountIn(pending, slot) == 0
    requires |slots'| > |slots| ==> slot == |slots| || slots'[|slots|] == Slot([], 0)
    requires slots'[slot] == Slot(buf, |found|)
    requires forall s :: 0 <= s < |slots| && s != slot ==> slots'[s] == slots[s]
    requires Scan(buf, 0, filter) == Some(found)
    ensures var merged := Sort(pending + ArrivingEntries(order, EntriesFor(found, slot)), EntryKey(order));
            QueueOk(merged, slots', filter) &&
            Mapped(merged, Pointee(slots')) ==
              Sort(Mapped(pending, Pointee(slots)) + Arriving(order, Selected(buf, filter)), MessageKey(order))
  {
    hide Sort, Pointee, AllSound, Scan, CountIn, MessageAt;
    ScanLocates(buf, 0, filter);
    MergeIsSound(order, pending, slots, found, slot, slots', filter);
    var merged := Sort(pending + ArrivingEntries(order, EntriesFor(found, slot)), EntryKey(order));
    forall s | 0 <= s < |slots'|
      ensures slots'[s].unreadMessages == CountIn(merged, s)
    {
      MergeCounts(order, pending, found, slot, s);
    }
  }

  lemma FoundGrows(found: seq<Located>, l: Located, buf: bytes, next: nat, filter: Filter)
    ensures Scan(buf, next, filter).Some? ==>
              found + ([l] + Scan(buf, next, filter).value) == (found + [l]) + Scan(buf, next, filter).value
  {
  }
}
