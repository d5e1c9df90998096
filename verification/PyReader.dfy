/** Reading messages in Python: the seeking reader opens chunks only when their turn comes,
    the linear reader reads everything and sorts. Forwards, both give the same messages in
    the same order. */
module PyReader {
  import opened Bytes
  import opened Sorting
  import opened PyQueue
  import R = Records

  /** Topics and half-open time range asked for; absent means no restriction. */
  datatype Query = Query(topics: Option<set<bytes>>, start: Option<nat>, end: Option<nat>) {
    predicate WantsTopic(topic: bytes) {
      topics.None? || topic in topics.value
    }

    predicate Wants(channel: R.ChannelRecord, m: R.MessageRecord) {
      WantsTopic(channel.topic) &&
      !(start.Some? && m.logTime < start.value) &&
      !(end.Some? && m.logTime >= end.value)
    }
  }

  datatype Summary = Summary(schemas: map<nat, R.SchemaRecord>, channels: map<nat, R.ChannelRecord>, chunkIndexes: seq<R.ChunkIndexRecord>)

  /** What a reader yields. */
  datatype Triple = Triple(schema: Option<R.SchemaRecord>, channel: R.ChannelRecord, message: R.MessageRecord)

  /** The items for the wanted messages of a chunk from record `index` on, or None if a
      channel or schema that is needed is missing. */
  function ItemsOf(records: seq<R.Record>, index: nat, offset: nat, summary: Summary, query: Query): (r: Option<seq<Item>>)
    requires index <= |records|
    ensures r.Some? ==> forall x :: x in r.value ==> x.MessageItem?
    decreases |records| - index
  {
    if index == |records| then Some([])
    else if !records[index].Message? then ItemsOf(records, index + 1, offset, summary, query)
    else
      var m: R.MessageRecord := records[index];
      if m.messageChannel !in summary.channels then None
      else
        var channel := summary.channels[m.messageChannel];
        if !query.Wants(channel, m) then ItemsOf(records, index + 1, offset, summary, query)
        else if channel.channelSchema != 0 && channel.channelSchema !in summary.schemas then None
        else
          var schema := if channel.channelSchema == 0 then None else Some(summary.schemas[channel.channelSchema]);
          var rest :- ItemsOf(records, index + 1, offset, summary, query);
          Some([MessageItem(schema, channel, m, offset, index)] + rest)
  }

  /** The chunks that can be opened, by offset. */
  type Chunks = map<nat, seq<R.Record>>

  /** The items of one chunk; none if it cannot be read. */
  function ItemsIn(c: R.ChunkIndexRecord, chunks: Chunks, summary: Summary, query: Query): (r: seq<Item>)
    ensures forall x :: x in r ==> x.MessageItem?
  {
    if c.chunkOffset in chunks && ItemsOf(chunks[c.chunkOffset], 0, c.chunkOffset, summary, query).Some?
    then ItemsOf(chunks[c.chunkOffset], 0, c.chunkOffset, summary, query).value else []
  }

  ghost predicate Readable(c: R.ChunkIndexRecord, chunks: Chunks, summary: Summary, query: Query) {
    c.chunkOffset in chunks && ItemsOf(chunks[c.chunkOffset], 0, c.chunkOffset, summary, query).Some?
  }

  /** Whether a chunk may hold wanted messages: its time range overlaps and one of its
      message indexes is for a wanted topic. */
  predicate Matches(c: R.ChunkIndexRecord, channels: map<nat, R.ChannelRecord>, query: Query) {
    !(query.start.Some? && c.endTime < query.start.value) &&
    !(query.end.Some? && c.startTime >= query.end.value) &&
    exists i :: 0 <= i < |c.indexOffsets| && ListsWanted(c, i, channels, query)
  }

  /** The chunk's `i`-th message index is for a wanted topic. */
  predicate ListsWanted(c: R.ChunkIndexRecord, i: nat, channels: map<nat, R.ChannelRecord>, query: Query)
    requires i < |c.indexOffsets|
  {
    query.topics.None? || (c.indexOffsets[i].0 in channels && query.WantsTopic(channels[c.indexOffsets[i].0].topic))
  }

  /** Looking for a wanted topic meets a channel the summary does not know before it finds one. */
  predicate LookupFails(c: R.ChunkIndexRecord, channels: map<nat, R.ChannelRecord>, query: Query) {
    !(query.start.Some? && c.endTime < query.start.value) &&
    !(query.end.Some? && c.startTime >= query.end.value) &&
    MeetsUnknown(c, channels, query)
  }

  predicate MeetsUnknown(c: R.ChunkIndexRecord, channels: map<nat, R.ChannelRecord>, query: Query) {
    query.topics.Some? &&
    exists i :: 0 <= i < |c.indexOffsets| && c.indexOffsets[i].0 !in channels &&
      forall k :: 0 <= k < i ==> !ListsWanted(c, k, channels, query)
  }

  // ---------- what is still to come ----------

  /** The messages an item of the queue stands for. */
  function Expand(a: Item, chunks: Chunks, summary: Summary, query: Query): seq<Item> {
    match a
    case ChunkItem(c) => ItemsIn(c, chunks, summary, query)
    case MessageItem(_, _, _, _, _) => [a]
  }

  ghost function ExpandAll(q: seq<Item>, chunks: Chunks, summary: Summary, query: Query): seq<Item>
    decreases |q|
  {
    if q == [] then []
    else ExpandAll(q[..|q| - 1], chunks, summary, query) + Expand(q[|q| - 1], chunks, summary, query)
  }

  lemma {:induction false} ExpandConcat(a: seq<Item>, b: seq<Item>, chunks: Chunks, summary: Summary, query: Query)
    ensures ExpandAll(a + b, chunks, summary, query) == ExpandAll(a, chunks, summary, query) + ExpandAll(b, chunks, summary, query)
    decreases |b|
  {
    hide Expand;
    if b == [] {
      assert a + b == a;
    } else {
      var init, last := b[..|b| - 1], b[|b| - 1];
      assert (a + b)[..|a + b| - 1] == a + init;
      ExpandConcat(a, init, chunks, summary, query);
    }
  }

  lemma ExpandOne(a: Item, chunks: Chunks, summary: Summary, query: Query)
    ensures ExpandAll([a], chunks, summary, query) == Expand(a, chunks, summary, query)
  {
    assert [a][..0] == [];
  }

  lemma {:induction false} ExpandMessages(q: seq<Item>, chunks: Chunks, summary: Summary, query: Query)
    requires forall x :: x in q ==> x.MessageItem?
    ensures ExpandAll(q, chunks, summary, query) == q
    decreases |q|
  {
    if q != [] {
      assert q == q[..|q| - 1] + [q[|q| - 1]];
      assert q[|q| - 1] in q;
      ExpandMessages(q[..|q| - 1], chunks, summary, query);
    }
  }

  /** Removing an item from the queue removes what it stands for. */
  lemma ExpandWithout(q: seq<Item>, at: nat, chunks: Chunks, summary: Summary, query: Query)
    requires at < |q|
    ensures multiset(ExpandAll(q, chunks, summary, query))
         == multiset(ExpandAll(q[..at] + q[at + 1..], chunks, summary, query)) + multiset(Expand(q[at], chunks, summary, query))
  {
    hide Expand, ExpandAll;
    assert q == q[..at] + ([q[at]] + q[at + 1..]);
    ExpandConcat(q[..at], [q[at]] + q[at + 1..], chunks, summary, query);
    ExpandConcat([q[at]], q[at + 1..], chunks, summary, query);
    ExpandConcat(q[..at], q[at + 1..], chunks, summary, query);
    ExpandOne(q[at], chunks, summary, query);
  }

  /** Everything that an item in the queue stands for is still to come. */
  lemma ExpandMember(q: seq<Item>, i: nat, x: Item, chunks: Chunks, summary: Summary, query: Query)
    requires i < |q| && x in Expand(q[i], chunks, summary, query)
    ensures x in ExpandAll(q, chunks, summary, query)
  {
    ExpandWithout(q, i, chunks, summary, query);
    assert x in multiset(ExpandAll(q, chunks, summary, query));
  }

  lemma {:induction false} ExpandOrigin(q: seq<Item>, x: Item, chunks: Chunks, summary: Summary, query: Query) returns (i: nat)
    requires x in ExpandAll(q, chunks, summary, query)
    ensures i < |q| && x in Expand(q[i], chunks, summary, query)
    decreases |q|
  {
    hide Expand;
    var init, last := q[..|q| - 1], q[|q| - 1];
    if x in Expand(last, chunks, summary, query) {
      i := |q| - 1;
    } else {
      i := ExpandOrigin(init, x, chunks, summary, query);
    }
  }

  // ---------- places in the file ----------

  /** Log time, then place in the file; all turned for reverse reads. */
  function ItemKey(reverse: bool): Item -> Key {
    (x: Item) =>
      if !x.MessageItem? then Key(0, 0, 0)
      else if reverse then Key(0 - x.message.logTime, 0 - x.chunkOffset, 0 - x.index)
      else Key(x.message.logTime, x.chunkOffset, x.index)
  }

  /** Log time only, as the linear reader sorts. */
  function TimeKey(): Item -> Key {
    (x: Item) => if x.MessageItem? then Key(x.message.logTime, 0, 0) else Key(0, 0, 0)
  }

  /** Items of one chunk carry its offset and increasing numbers, and are wanted. */
  ghost predicate Placed(items: seq<Item>, from: nat, offset: nat, summary: Summary, query: Query) {
    (forall i :: 0 <= i < |items| ==> PlacedOne(items[i], from, offset, summary, query)) &&
    (forall i, j :: 0 <= i < j < |items| ==> items[i].MessageItem? && items[j].MessageItem? && items[i].index < items[j].index)
  }

  ghost predicate PlacedOne(x: Item, from: nat, offset: nat, summary: Summary, query: Query) {
    x.MessageItem? && x.chunkOffset == offset && x.index >= from &&
    x.message.messageChannel in summary.channels && x.channel == summary.channels[x.message.messageChannel] &&
    query.Wants(x.channel, x.message)
  }

  lemma {:induction false} ItemsPlaced(records: seq<R.Record>, index: nat, offset: nat, summary: Summary, query: Query)
    requires index <= |records| && ItemsOf(records, index, offset, summary, query).Some?
    ensures Placed(ItemsOf(records, index, offset, summary, query).value, index, offset, summary, query)
    decreases |records| - index
  {
    if index < |records| {
      ItemsPlaced(records, index + 1, offset, summary, query);
    }
  }

  lemma ItemsInPlaced(c: R.ChunkIndexRecord, chunks: Chunks, summary: Summary, query: Query)
    ensures Placed(ItemsIn(c, chunks, summary, query), 0, c.chunkOffset, summary, query)
  {
    if c.chunkOffset in chunks && ItemsOf(chunks[c.chunkOffset], 0, c.chunkOffset, summary, query).Some? {
      ItemsPlaced(chunks[c.chunkOffset], 0, c.chunkOffset, summary, query);
    }
  }

  /** The chunk index bounds the times of the chunk's wanted messages. */
  ghost predicate BoundsHold(c: R.ChunkIndexRecord, chunks: Chunks, summary: Summary, query: Query) {
    forall x :: x in ItemsIn(c, chunks, summary, query) ==> c.startTime <= x.message.logTime <= c.endTime
  }

  /** The chunk index lists a message index for each wanted message's channel. */
  ghost predicate IndexComplete(c: R.ChunkIndexRecord, chunks: Chunks, summary: Summary, query: Query) {
    forall x :: x in ItemsIn(c, chunks, summary, query) ==>
      exists i :: 0 <= i < |c.indexOffsets| && c.indexOffsets[i].0 == x.message.messageChannel
  }

  /** A wanted message makes its chunk match. */
  lemma WantedMakesMatch(c: R.ChunkIndexRecord, x: Item, chunks: Chunks, summary: Summary, query: Query)
    requires BoundsHold(c, chunks, summary, query) && IndexComplete(c, chunks, summary, query)
    requires x in ItemsIn(c, chunks, summary, query)
    ensures Matches(c, summary.channels, query)
  {
    ItemsInPlaced(c, chunks, summary, query);
    hide ItemsIn;
    var i :| 0 <= i < |c.indexOffsets| && c.indexOffsets[i].0 == x.message.messageChannel;
    assert ListsWanted(c, i, summary.channels, query);
  }

  /** A chunk that does not match holds nothing that is wanted. */
  lemma UnmatchedHoldsNothing(c: R.ChunkIndexRecord, chunks: Chunks, summary: Summary, query: Query)
    requires BoundsHold(c, chunks, summary, query) && IndexComplete(c, chunks, summary, query)
    requires !Matches(c, summary.channels, query)
    ensures ItemsIn(c, chunks, summary, query) == []
  {
    hide BoundsHold, IndexComplete, Matches, ItemsIn;
    var items := ItemsIn(c, chunks, summary, query);
    if items != [] {
      WantedMakesMatch(c, items[0], chunks, summary, query);
    }
  }

  // ---------- one step of the merge ----------

  /** A message that is less than everything in the queue comes before everything that the
      queue stands for. */
  lemma LeastComesFirst(m: Item, q: seq<Item>, reverse: bool, chunks: Chunks, summary: Summary, query: Query)
    requires m.MessageItem?
    requires forall i :: 0 <= i < |q| ==> Less(m, q[i], reverse) && Apart(m, q[i])
    requires forall c :: ChunkItem(c) in q ==> BoundsHold(c, chunks, summary, query)
    ensures forall x :: x in ExpandAll(q, chunks, summary, query) ==> ItemKey(reverse)(m).AtMost(ItemKey(reverse)(x))
  {
    hide ExpandAll, ItemsIn;
    forall x | x in ExpandAll(q, chunks, summary, query)
      ensures ItemKey(reverse)(m).AtMost(ItemKey(reverse)(x))
    {
      var i := ExpandOrigin(q, x, chunks, summary, query);
      assert Less(m, q[i], reverse);
      if q[i].ChunkItem? {
        assert ChunkItem(q[i].chunk) in q;
        ItemsInPlaced(q[i].chunk, chunks, summary, query);
      }
    }
  }

  /** What was yielded is in order and comes before everything still to come. */
  ghost predicate InOrder(yielded: seq<Item>, coming: seq<Item>, reverse: bool) {
    Sorted(yielded, ItemKey(reverse)) &&
    forall y, x :: y in yielded && x in coming ==> ItemKey(reverse)(y).AtMost(ItemKey(reverse)(x))
  }

  /** An item that stands for one of the chunks, or for one of their messages. */
  ghost predicate ComesFrom(a: Item, cs: seq<R.ChunkIndexRecord>, chunks: Chunks, summary: Summary, query: Query) {
    match a
    case ChunkItem(c) => c in cs
    case MessageItem(_, _, _, _, _) => exists c :: c in cs && a in ItemsIn(c, chunks, summary, query)
  }

  /** The queue as it is between two pops: items of the chunks, at different places. */
  ghost predicate QueueOk(q: seq<Item>, cs: seq<R.ChunkIndexRecord>, chunks: Chunks, summary: Summary, query: Query) {
    AllApart(q) && forall i :: 0 <= i < |q| ==> ComesFrom(q[i], cs, chunks, summary, query)
  }

  ghost predicate AllBoundsHold(cs: seq<R.ChunkIndexRecord>, chunks: Chunks, summary: Summary, query: Query) {
    forall c :: c in cs ==> BoundsHold(c, chunks, summary, query)
  }

  /** No two chunks end at one place and time, and no message of a chunk that starts at the end of
      another has that other chunk's end time. */
  ghost predicate NoBackwardTies(cs: seq<R.ChunkIndexRecord>, chunks: Chunks, summary: Summary, query: Query) {
    forall c, d :: c in cs && d in cs && c.chunkOffset != d.chunkOffset ==>
      !(c.endTime == d.endTime && c.chunkOffset + c.chunkLength == d.chunkOffset + d.chunkLength) &&
      (c.chunkOffset + c.chunkLength == d.chunkOffset ==>
         forall x :: x in ItemsIn(d, chunks, summary, query) ==> x.message.logTime != c.endTime)
  }

  /** Then every queue that is reached is totally ordered. */
  lemma QueueHasNoTies(q: seq<Item>, cs: seq<R.ChunkIndexRecord>, reverse: bool, chunks: Chunks, summary: Summary, query: Query)
    requires QueueOk(q, cs, chunks, summary, query) && (reverse ==> NoBackwardTies(cs, chunks, summary, query))
    ensures NoTies(q, reverse)
  {
    hide ItemsIn, Tied, Apart;
    if reverse {
      forall i, j | 0 <= i < j < |q| ensures !Tied(q[i], q[j], true) {
        assert Apart(q[i], q[j]);
        PairDoesNotTie(q[i], q[j], cs, chunks, summary, query);
      }
    } else {
      ForwardNeverTies(q);
    }
  }

  lemma PairDoesNotTie(a: Item, b: Item, cs: seq<R.ChunkIndexRecord>, chunks: Chunks, summary: Summary, query: Query)
    requires ComesFrom(a, cs, chunks, summary, query) && ComesFrom(b, cs, chunks, summary, query) && Apart(a, b)
    requires NoBackwardTies(cs, chunks, summary, query)
    ensures !Tied(a, b, true)
  {
    hide ItemsIn;
    BackwardTies(a, b);
    match (a, b)
    case (ChunkItem(c), MessageItem(_, _, _, _, _)) =>
      var d :| d in cs && b in ItemsIn(d, chunks, summary, query);
      ItemsInPlaced(d, chunks, summary, query);
    case (MessageItem(_, _, _, _, _), ChunkItem(c)) =>
      var d :| d in cs && a in ItemsIn(d, chunks, summary, query);
      ItemsInPlaced(d, chunks, summary, query);
    case _ =>
  }

  lemma QueueWithout(q: seq<Item>, at: nat, cs: seq<R.ChunkIndexRecord>, chunks: Chunks, summary: Summary, query: Query)
    requires at < |q| && QueueOk(q, cs, chunks, summary, query)
    ensures var rest := q[..at] + q[at + 1..];
            QueueOk(rest, cs, chunks, summary, query) && forall i :: 0 <= i < |rest| ==> Apart(q[at], rest[i])
  {
    hide ComesFrom;
    var rest := q[..at] + q[at + 1..];
    forall i | 0 <= i < |rest|
      ensures Apart(q[at], rest[i])
    {
      if i < at {
        assert Apart(q[i], q[at]);
      } else {
        assert Apart(q[at], q[i + 1]);
      }
    }
    forall i, j | 0 <= i < j < |rest|
      ensures Apart(rest[i], rest[j])
    {
      assert rest[i] == q[if i < at then i else i + 1] && rest[j] == q[if j < at then j else j + 1];
    }
    forall i | 0 <= i < |rest| ensures ComesFrom(rest[i], cs, chunks, summary, query) {
      assert rest[i] == q[if i < at then i else i + 1];
    }
  }

  /** Opening a chunk puts its messages next to what is queued. */
  lemma QueueOpened(rest: seq<Item>, c: R.ChunkIndexRecord, cs: seq<R.ChunkIndexRecord>, chunks: Chunks, summary: Summary,
                    query: Query)
    requires QueueOk(rest, cs, chunks, summary, query) && c in cs
    requires forall i :: 0 <= i < |rest| ==> Apart(ChunkItem(c), rest[i])
    ensures QueueOk(rest + ItemsIn(c, chunks, summary, query), cs, chunks, summary, query)
  {
    ItemsInPlaced(c, chunks, summary, query);
    hide ItemsIn;
    var items := ItemsIn(c, chunks, summary, query);
    var all := rest + items;
    forall i, j | 0 <= i < j < |all|
      ensures Apart(all[i], all[j])
    {
      if j >= |rest| {
        assert PlacedOne(items[j - |rest|], 0, c.chunkOffset, summary, query);
        if i < |rest| {
          assert Apart(ChunkItem(c), rest[i]);
        } else {
          assert PlacedOne(items[i - |rest|], 0, c.chunkOffset, summary, query);
        }
      }
    }
    forall i | 0 <= i < |all| ensures ComesFrom(all[i], cs, chunks, summary, query) {
      if i >= |rest| {
        assert all[i] == items[i - |rest|];
        assert all[i] in items;
      }
    }
  }

  /** Yielding the least message keeps everything in order. */
  lemma YieldKeepsOrder(yielded: seq<Item>, q: seq<Item>, at: nat, cs: seq<R.ChunkIndexRecord>, reverse: bool, chunks: Chunks,
                        summary: Summary, query: Query)
    requires at < |q| && q[at].MessageItem? && QueueOk(q, cs, chunks, summary, query) && AllBoundsHold(cs, chunks, summary, query)
    requires InOrder(yielded, ExpandAll(q, chunks, summary, query), reverse)
    requires var rest := q[..at] + q[at + 1..]; forall i :: 0 <= i < |rest| ==> Less(q[at], rest[i], reverse)
    ensures InOrder(yielded + [q[at]], ExpandAll(q[..at] + q[at + 1..], chunks, summary, query), reverse)
  {
    hide BoundsHold, ExpandAll, ItemsIn, Less, ItemKey;
    var m, rest := q[at], q[..at] + q[at + 1..];
    QueueWithout(q, at, cs, chunks, summary, query);
    forall c | ChunkItem(c) in rest ensures BoundsHold(c, chunks, summary, query) {
      var i :| 0 <= i < |rest| && rest[i] == ChunkItem(c);
      assert ComesFrom(rest[i], cs, chunks, summary, query);
    }
    LeastComesFirst(m, rest, reverse, chunks, summary, query);
    ExpandMember(q, at, m, chunks, summary, query);
    ExpandWithout(q, at, chunks, summary, query);
    forall x | x in ExpandAll(rest, chunks, summary, query)
      ensures x in ExpandAll(q, chunks, summary, query)
    {
      assert x in multiset(ExpandAll(rest, chunks, summary, query));
      assert x in multiset(ExpandAll(q, chunks, summary, query));
    }
    forall i, j | 0 <= i < j < |yielded + [m]|
      ensures ItemKey(reverse)((yielded + [m])[i]).AtMost(ItemKey(reverse)((yielded + [m])[j]))
    {
      if j == |yielded| {
        assert yielded[i] in yielded;
      }
    }
  }

  /** Opening a chunk does not change what is still to come. */
  lemma OpeningKeepsComing(q: seq<Item>, at: nat, chunks: Chunks, summary: Summary, query: Query)
    requires at < |q| && q[at].ChunkItem?
    ensures var after := q[..at] + q[at + 1..] + ItemsIn(q[at].chunk, chunks, summary, query);
            multiset(ExpandAll(after, chunks, summary, query)) == multiset(ExpandAll(q, chunks, summary, query))
  {
    hide ExpandAll, ItemsIn;
    var rest, items := q[..at] + q[at + 1..], ItemsIn(q[at].chunk, chunks, summary, query);
    ExpandWithout(q, at, chunks, summary, query);
    ExpandConcat(rest, items, chunks, summary, query);
    ExpandMessages(items, chunks, summary, query);
  }

  lemma SameComing(yielded: seq<Item>, a: seq<Item>, b: seq<Item>, reverse: bool)
    requires InOrder(yielded, a, reverse) && multiset(a) == multiset(b)
    ensures InOrder(yielded, b, reverse)
  {
    hide ItemKey;
    forall x | x in b
      ensures x in a
    {
      assert x in multiset(b);
    }
  }

  ghost function ChunkCount(q: seq<Item>): nat
    decreases |q|
  {
    if q == [] then 0 else ChunkCount(q[..|q| - 1]) + if q[|q| - 1].ChunkItem? then 1 else 0
  }

  lemma {:induction false} ChunkCountConcat(a: seq<Item>, b: seq<Item>)
    ensures ChunkCount(a + b) == ChunkCount(a) + ChunkCount(b)
    decreases |b|
  {
    if b == [] {
      assert a + b == a;
    } else {
      assert (a + b)[..|a + b| - 1] == a + b[..|b| - 1];
      ChunkCountConcat(a, b[..|b| - 1]);
    }
  }

  lemma ChunkCountWithout(q: seq<Item>, at: nat)
    requires at < |q|
    ensures ChunkCount(q[..at] + q[at + 1..]) == ChunkCount(q) - if q[at].ChunkItem? then 1 else 0
  {
    hide ChunkCount;
    assert q == q[..at] + ([q[at]] + q[at + 1..]);
    ChunkCountConcat(q[..at], [q[at]] + q[at + 1..]);
    ChunkCountConcat([q[at]], q[at + 1..]);
    ChunkCountConcat(q[..at], q[at + 1..]);
    ChunkCountOne(q[at]);
  }

  lemma ChunkCountOne(a: Item)
    ensures ChunkCount([a]) == if a.ChunkItem? then 1 else 0
  {
    assert [a][..0] == [];
  }

  lemma {:induction false} NoChunks(q: seq<Item>)
    requires forall x :: x in q ==> x.MessageItem?
    ensures ChunkCount(q) == 0
    decreases |q|
  {
    if q != [] {
      assert q[|q| - 1] in q;
      NoChunks(q[..|q| - 1]);
    }
  }

  // ---------- the seeking reader ----------

  function ChunkItems(cs: seq<R.ChunkIndexRecord>): (r: seq<Item>)
    ensures |r| == |cs|
    ensures forall i :: 0 <= i < |cs| ==> r[i] == ChunkItem(cs[i])
  {
    seq(|cs|, i requires 0 <= i < |cs| => ChunkItem(cs[i]))
  }

  function MatchesQuery(summary: Summary, query: Query): R.ChunkIndexRecord -> bool {
    (c: R.ChunkIndexRecord) => Matches(c, summary.channels, query)
  }

  ghost predicate DistinctOffsets(cs: seq<R.ChunkIndexRecord>) {
    forall i, j :: 0 <= i < j < |cs| ==> cs[i].chunkOffset != cs[j].chunkOffset
  }

  /** The chunks that match a query. */
  function Matching(summary: Summary, query: Query): seq<R.ChunkIndexRecord> {
    Kept(summary.chunkIndexes, MatchesQuery(summary, query))
  }

  /** No lookup of a channel fails, and every matching chunk can be read. */
  ghost predicate CanRead(summary: Summary, chunks: Chunks, query: Query) {
    && (forall c :: c in summary.chunkIndexes ==> !LookupFails(c, summary.channels, query))
    && forall c :: c in Matching(summary, query) ==> Readable(c, chunks, summary, query)
  }

  lemma CanReadIs(summary: Summary, chunks: Chunks, query: Query)
    ensures Matching(summary, query) == Kept(summary.chunkIndexes, MatchesQuery(summary, query))
    ensures CanRead(summary, chunks, query) <==>
              (forall c :: c in summary.chunkIndexes ==> !LookupFails(c, summary.channels, query)) &&
              forall c :: c in Matching(summary, query) ==> Readable(c, chunks, summary, query)
  {
  }

  lemma NothingMatches(all: seq<R.ChunkIndexRecord>, summary: Summary, query: Query)
    ensures Kept(all[..0], MatchesQuery(summary, query)) == []
  {
  }

  lemma OneMoreMatches(all: seq<R.ChunkIndexRecord>, n: nat, summary: Summary, query: Query)
    requires n < |all|
    ensures Kept(all[..n + 1], MatchesQuery(summary, query)) ==
            if Matches(all[n], summary.channels, query) then Kept(all[..n], MatchesQuery(summary, query)) + [all[n]]
            else Kept(all[..n], MatchesQuery(summary, query))
  {
    hide Matches;
    assert all[..n + 1] == all[..n] + [all[n]];
    KeptMore(all[..n], all[n], MatchesQuery(summary, query));
    assert Kept(all[..n], MatchesQuery(summary, query)) + [] == Kept(all[..n], MatchesQuery(summary, query));
  }

  class SeekingReader {
    const chunks: Chunks
    const summary: Summary

    constructor (chunks: Chunks, summary: Summary)
      ensures this.chunks == chunks && this.summary == summary
    {
      this.chunks, this.summary := chunks, summary;
    }

    /** Whether the chunk has a message index for a wanted topic. */
    method HasWantedChannel(c: R.ChunkIndexRecord, query: Query) returns (ok: bool, found: bool)
      ensures ok <==> !MeetsUnknown(c, summary.channels, query)
      ensures ok ==> (found <==> exists i :: 0 <= i < |c.indexOffsets| && ListsWanted(c, i, summary.channels, query))
    {
      for i := 0 to |c.indexOffsets|
        invariant forall k :: 0 <= k < i ==> !ListsWanted(c, k, summary.channels, query)
        invariant forall k :: 0 <= k < i && query.topics.Some? ==> c.indexOffsets[k].0 in summary.channels
      {
        var channelId := c.indexOffsets[i].0;
        if query.topics.None? {
          assert ListsWanted(c, i, summary.channels, query);
          return true, true;
        }
        if channelId !in summary.channels {
          return false, false;
        }
        if summary.channels[channelId].topic in query.topics.value {
          assert ListsWanted(c, i, summary.channels, query);
          return true, true;
        }
      }
      ok, found := true, false;
    }

    /** Whether a chunk may hold wanted messages; fails where a lookup of a channel fails. */
    method MayHoldWanted(c: R.ChunkIndexRecord, query: Query) returns (ok: bool, matching: bool)
      ensures ok <==> !LookupFails(c, summary.channels, query)
      ensures ok ==> (matching <==> Matches(c, summary.channels, query))
    {
      hide MeetsUnknown;
      if query.start.Some? && c.endTime < query.start.value {
        return true, false;
      }
      if query.end.Some? && c.startTime >= query.end.value {
        return true, false;
      }
      ok, matching := HasWantedChannel(c, query);
    }

    /** The chunks that may hold wanted messages. */
    method ChunksMatchingTopics(query: Query) returns (ok: bool, out: seq<R.ChunkIndexRecord>)
      ensures ok <==> forall c :: c in summary.chunkIndexes ==> !LookupFails(c, summary.channels, query)
      ensures ok ==> out == Kept(summary.chunkIndexes, MatchesQuery(summary, query))
    {
      hide Kept, Matches, MatchesQuery, LookupFails;
      out := [];
      var all := summary.chunkIndexes;
      NothingMatches(all, summary, query);
      for n := 0 to |all|
        invariant out == Kept(all[..n], MatchesQuery(summary, query))
        invariant forall k :: 0 <= k < n ==> !LookupFails(all[k], summary.channels, query)
      {
        var c := all[n];
        OneMoreMatches(all, n, summary, query);
        var looked, found := MayHoldWanted(c, query);
        if !looked {
          assert c in summary.chunkIndexes;
          return false, out;
        }
        if found {
          out := out + [c];
        }
      }
      assert all[..|all|] == all;
      ok := true;
    }

    /** An item for every wanted message of an opened chunk; fails where a lookup fails. */
    method OpenChunk(c: R.ChunkIndexRecord, query: Query) returns (ok: bool, items: seq<Item>)
      ensures ok <==> Readable(c, chunks, summary, query)
      ensures ok ==> items == ItemsIn(c, chunks, summary, query)
    {
      items := [];
      if c.chunkOffset !in chunks {
        return false, items;
      }
      var records := chunks[c.chunkOffset];
      for index := 0 to |records|
        invariant ItemsOf(records, 0, c.chunkOffset, summary, query).None? <==>
                  ItemsOf(records, index, c.chunkOffset, summary, query).None?
        invariant ItemsOf(records, index, c.chunkOffset, summary, query).Some? ==>
                  ItemsOf(records, 0, c.chunkOffset, summary, query).value ==
                  items + ItemsOf(records, index, c.chunkOffset, summary, query).value
      {
        if records[index].Message? {
          var record: R.MessageRecord := records[index];
          if record.messageChannel !in summary.channels {
            return false, items;
          }
          var channel := summary.channels[record.messageChannel];
          if !query.WantsTopic(channel.topic) {
            continue;
          }
          if query.start.Some? && record.logTime < query.start.value {
            continue;
          }
          if query.end.Some? && record.logTime >= query.end.value {
            continue;
          }
          var schema: Option<R.SchemaRecord> := None;
          if channel.channelSchema != 0 {
            if channel.channelSchema !in summary.schemas {
              return false, items;
            }
            schema := Some(summary.schemas[channel.channelSchema]);
          }
          var item := MessageItem(schema, channel, record, c.chunkOffset, index);
          ghost var later := ItemsOf(records, index + 1, c.chunkOffset, summary, query);
          if later.Some? {
            assert items + ([item] + later.value) == (items + [item]) + later.value;
          }
          items := items + [item];
        }
      }
      assert items + [] == items;
      ok := true;
    }

    method PushAll(q: LogTimeOrderQueue, items: seq<Item>)
      modifies q
      ensures q.q == old(q.q) + items
    {
      assert old(q.q) + items[..0] == old(q.q);
      for i := 0 to |items|
        invariant q.q == old(q.q) + items[..i]
      {
        q.Push(items[i]);
        assert items[..i + 1] == items[..i] + [items[i]];
        assert old(q.q) + items[..i] + [items[i]] == old(q.q) + items[..i + 1];
      }
      assert items[..|items|] == items;
    }

    /** Reads in time order: the items of all matching chunks, sorted by time and then by place in
        the file, or in the reverse of that order. */
    method IterMessages(query: Query, reverse: bool) returns (ok: bool, out: seq<Item>)
      requires DistinctOffsets(Matching(summary, query)) && AllBoundsHold(Matching(summary, query), chunks, summary, query)
      requires reverse ==> NoBackwardTies(Matching(summary, query), chunks, summary, query)
      ensures ok <==> CanRead(summary, chunks, query)
      ensures ok ==> out == Sort(ExpandAll(ChunkItems(Matching(summary, query)), chunks, summary, query), ItemKey(reverse))
    {
      hide *;
      out := [];
      var matching;
      CanReadIs(summary, chunks, query);
      ok, matching := ChunksMatchingTopics(query);
      if !ok {
        return;
      }
      var messageQueue := new LogTimeOrderQueue(reverse);
      for i := 0 to |matching|
        invariant messageQueue.q == ChunkItems(matching)[..i]
      {
        messageQueue.Push(ChunkItem(matching[i]));
      }
      assert messageQueue.q == ChunkItems(matching);
      QueueStarts(matching, chunks, summary, query);
      QueueIsApart(messageQueue.q, matching, chunks, summary, query);
      ghost var all := ExpandAll(messageQueue.q, chunks, summary, query);
      NothingYielded(all, reverse);
      while messageQueue.q != []
        invariant QueueOk(messageQueue.q, matching, chunks, summary, query)
        invariant InOrder(out, ExpandAll(messageQueue.q, chunks, summary, query), reverse)
        invariant multiset(all) == multiset(out) + multiset(ExpandAll(messageQueue.q, chunks, summary, query))
        invariant forall c :: c in matching ==> Readable(c, chunks, summary, query) || ChunkItem(c) in messageQueue.q
        decreases ChunkCount(messageQueue.q), |messageQueue.q|
      {
        ghost var before := messageQueue.q;
        QueueHasNoTies(before, matching, reverse, chunks, summary, query);
        var nextItem, at := messageQueue.Pop();
        QueueWithout(before, at, matching, chunks, summary, query);
        ChunkCountWithout(before, at);
        match nextItem
        case ChunkItem(c) =>
          QueuedIsMatching(before, at, matching, chunks, summary, query);
          QueueOpened(messageQueue.q, c, matching, chunks, summary, query);
          OpeningKeepsComing(before, at, chunks, summary, query);
          NoChunks(ItemsIn(c, chunks, summary, query));
          ChunkCountConcat(messageQueue.q, ItemsIn(c, chunks, summary, query));
          var read, items := OpenChunk(c, query);
          if !read {
            return false, out;
          }
          ghost var rest := messageQueue.q;
          PushAll(messageQueue, items);
          StillQueued(before, at, messageQueue.q, items);
          SameComing(out, ExpandAll(before, chunks, summary, query), ExpandAll(messageQueue.q, chunks, summary, query), reverse);
        case MessageItem(_, _, _, _, _) =>
          YieldKeepsOrder(out, before, at, matching, reverse, chunks, summary, query);
          ExpandWithout(before, at, chunks, summary, query);
          ExpandsToItself(nextItem, chunks, summary, query);
          StillQueued(before, at, messageQueue.q, []);
          out := out + [nextItem];
      }
      AllYielded(out, all, matching, messageQueue.q, reverse, chunks, summary, query);
    }

    /** Reads with the queue that keeps the order of insertion: chunk by chunk, in the order in
        which the summary lists them. All chunks are opened before the first message comes. */
    method IterInInsertOrder(query: Query) returns (ok: bool, out: seq<Item>)
      ensures ok <==> CanRead(summary, chunks, query)
      ensures ok ==> out == ExpandAll(ChunkItems(Matching(summary, query)), chunks, summary, query)
    {
      hide *;
      out := [];
      var matching;
      CanReadIs(summary, chunks, query);
      ok, matching := ChunksMatchingTopics(query);
      if !ok {
        return;
      }
      var messageQueue := new InsertOrderQueue();
      for i := 0 to |matching|
        invariant messageQueue.q == ChunkItems(matching)[..i]
      {
        messageQueue.Push(ChunkItem(matching[i]));
      }
      assert messageQueue.q == ChunkItems(matching);
      ghost var k := 0;
      Unopened(matching, chunks, summary, query);
      while messageQueue.q != []
        invariant k <= |matching|
        invariant k < |matching| ==> out == [] && messageQueue.q == Opened(matching, k, chunks, summary, query)
        invariant k == |matching| ==> out + messageQueue.q == ExpandAll(ChunkItems(matching), chunks, summary, query)
        invariant forall i :: 0 <= i < k ==> Readable(matching[i], chunks, summary, query)
        decreases |matching| - k, |messageQueue.q|
      {
        ghost var before := messageQueue.q;
        if k < |matching| {
          NextIsChunk(matching, k, chunks, summary, query);
        } else {
          NextIsMessage(out, before, matching, chunks, summary, query);
        }
        var nextItem := messageQueue.Pop();
        match nextItem
        case ChunkItem(c) =>
          var read, items := OpenChunk(c, query);
          if !read {
            assert matching[k] in matching;
            return false, out;
          }
          ghost var rest := messageQueue.q;
          assert rest + items[..0] == rest;
          for i := 0 to |items|
            invariant messageQueue.q == rest + items[..i]
          {
            messageQueue.Push(items[i]);
            assert items[..i + 1] == items[..i] + [items[i]];
            assert rest + items[..i] + [items[i]] == rest + items[..i + 1];
          }
          assert items[..|items|] == items;
          k := k + 1;
        case MessageItem(_, _, _, _, _) =>
          out := out + [nextItem];
          assert out + messageQueue.q == out[..|out| - 1] + before;
      }
      assert out + [] == out;
      AllOpened(matching, k, out, messageQueue.q, chunks, summary, query);
    }
  }

  /** The insertion queue after `k` chunks were opened: the other chunks, then the messages. */
  ghost function Opened(matching: seq<R.ChunkIndexRecord>, k: nat, chunks: Chunks, summary: Summary, query: Query): seq<Item>
    requires k <= |matching|
  {
    ChunkItems(matching)[k..] + ExpandAll(ChunkItems(matching)[..k], chunks, summary, query)
  }

  lemma Unopened(matching: seq<R.ChunkIndexRecord>, chunks: Chunks, summary: Summary, query: Query)
    ensures ChunkItems(matching) == Opened(matching, 0, chunks, summary, query)
    ensures |matching| == 0 ==> [] + ChunkItems(matching) == ExpandAll(ChunkItems(matching), chunks, summary, query)
  {
    assert ChunkItems(matching)[..0] == [];
  }

  lemma NextIsChunk(matching: seq<R.ChunkIndexRecord>, k: nat, chunks: Chunks, summary: Summary, query: Query)
    requires k < |matching|
    ensures var q := Opened(matching, k, chunks, summary, query);
            q != [] && q[0] == ChunkItem(matching[k]) &&
            var t := q[1..] + ItemsIn(matching[k], chunks, summary, query);
            t == Opened(matching, k + 1, chunks, summary, query) &&
            (k + 1 == |matching| ==> [] + t == ExpandAll(ChunkItems(matching), chunks, summary, query))
  {
    hide ItemsIn;
    var ci := ChunkItems(matching);
    assert ci[..k + 1][..k] == ci[..k];
    assert ci[k..] == [ci[k]] + ci[k + 1..];
    var items := ItemsIn(matching[k], chunks, summary, query);
    var earlier := ExpandAll(ci[..k], chunks, summary, query);
    assert ExpandAll(ci[..k + 1], chunks, summary, query) == earlier + items;
    assert ([ci[k]] + ci[k + 1..] + earlier)[1..] + items == ci[k + 1..] + (earlier + items);
    if k + 1 == |matching| {
      assert ci[..k + 1] == ci;
    }
  }

  lemma NextIsMessage(out: seq<Item>, q: seq<Item>, matching: seq<R.ChunkIndexRecord>, chunks: Chunks, summary: Summary,
                      query: Query)
    requires q != [] && out + q == ExpandAll(ChunkItems(matching), chunks, summary, query)
    ensures q[0].MessageItem?
  {
    ExpandedAreMessages(ChunkItems(matching), chunks, summary, query);
    assert (out + q)[|out|] == q[0];
  }

  lemma AllOpened(matching: seq<R.ChunkIndexRecord>, k: nat, out: seq<Item>, q: seq<Item>, chunks: Chunks, summary: Summary,
                  query: Query)
    requires q == [] && k <= |matching|
    requires k < |matching| ==> q == Opened(matching, k, chunks, summary, query)
    requires k == |matching| ==> out + q == ExpandAll(ChunkItems(matching), chunks, summary, query)
    ensures k == |matching|
  {
  }

  lemma QueueIsApart(q: seq<Item>, cs: seq<R.ChunkIndexRecord>, chunks: Chunks, summary: Summary, query: Query)
    requires QueueOk(q, cs, chunks, summary, query)
    ensures AllApart(q)
  {
  }

  lemma NothingYielded(all: seq<Item>, reverse: bool)
    ensures InOrder([], all, reverse)
  {
  }

  lemma ExpandsToItself(a: Item, chunks: Chunks, summary: Summary, query: Query)
    requires a.MessageItem?
    ensures Expand(a, chunks, summary, query) == [a]
  {
  }

  lemma QueuedIsMatching(q: seq<Item>, at: nat, cs: seq<R.ChunkIndexRecord>, chunks: Chunks, summary: Summary, query: Query)
    requires at < |q| && q[at].ChunkItem? && QueueOk(q, cs, chunks, summary, query)
    ensures q[at].chunk in cs
  {
    assert ComesFrom(q[at], cs, chunks, summary, query);
  }

  /** Only the item that was taken has left the queue. */
  lemma StillQueued(before: seq<Item>, at: nat, after: seq<Item>, more: seq<Item>)
    requires at < |before| && after == before[..at] + before[at + 1..] + more
    ensures forall x :: x in before && x != before[at] ==> x in after
  {
    forall x | x in before && x != before[at] ensures x in after {
      var i :| 0 <= i < |before| && before[i] == x;
      assert after[if i < at then i else i - 1] == x;
    }
  }

  lemma {:induction false} KeptDistinct(cs: seq<R.ChunkIndexRecord>, p: R.ChunkIndexRecord -> bool)
    requires DistinctOffsets(cs)
    ensures DistinctOffsets(Kept(cs, p))
    decreases |cs|
  {
    if cs != [] {
      var init, last := cs[..|cs| - 1], cs[|cs| - 1];
      KeptDistinct(init, p);
      var kept := Kept(init, p);
      forall i | 0 <= i < |kept|
        ensures kept[i].chunkOffset != last.chunkOffset
      {
        KeptMember(init, p, i);
        var j :| 0 <= j < |init| && init[j] == kept[i];
        assert cs[j] == kept[i];
      }
    }
  }

  lemma QueueStarts(cs: seq<R.ChunkIndexRecord>, chunks: Chunks, summary: Summary, query: Query)
    requires DistinctOffsets(cs)
    ensures QueueOk(ChunkItems(cs), cs, chunks, summary, query)
    ensures forall c :: c in cs ==> ChunkItem(c) in ChunkItems(cs)
  {
    forall c | c in cs ensures ChunkItem(c) in ChunkItems(cs) {
      var i :| 0 <= i < |cs| && cs[i] == c;
      assert ChunkItems(cs)[i] == ChunkItem(c);
    }
  }

  lemma {:induction false} ExpandApart(q: seq<Item>, chunks: Chunks, summary: Summary, query: Query)
    requires AllApart(q)
    ensures AllApart(ExpandAll(q, chunks, summary, query))
    decreases |q|
  {
    hide ItemsIn;
    if q != [] {
      var init, last := q[..|q| - 1], q[|q| - 1];
      ExpandApart(init, chunks, summary, query);
      var early, late := ExpandAll(init, chunks, summary, query), Expand(last, chunks, summary, query);
      if last.ChunkItem? {
        ItemsInPlaced(last.chunk, chunks, summary, query);
      }
      forall i, j | 0 <= i < |early| && 0 <= j < |late|
        ensures Apart(early[i], late[j])
      {
        var k := ExpandOrigin(init, early[i], chunks, summary, query);
        assert Apart(q[k], last);
        if q[k].ChunkItem? {
          ItemsInPlaced(q[k].chunk, chunks, summary, query);
        }
        if last.ChunkItem? {
          assert PlacedOne(late[j], 0, last.chunk.chunkOffset, summary, query);
        }
      }
      forall i, j | 0 <= i < j < |late|
        ensures Apart(late[i], late[j])
      {
        assert PlacedOne(late[i], 0, last.chunk.chunkOffset, summary, query);
      }
    }
  }

  lemma {:induction false} ExpandedAreMessages(q: seq<Item>, chunks: Chunks, summary: Summary, query: Query)
    ensures forall x :: x in ExpandAll(q, chunks, summary, query) ==> x.MessageItem?
    decreases |q|
  {
    if q != [] {
      ExpandedAreMessages(q[..|q| - 1], chunks, summary, query);
    }
  }

  /** The place in the file tells messages apart. */
  lemma ApartIdentifies(items: seq<Item>, reverse: bool)
    requires AllApart(items) && forall x :: x in items ==> x.MessageItem?
    ensures KeyIdentifies(items, ItemKey(reverse))
  {
    forall i, j | 0 <= i < j < |items|
      ensures ItemKey(reverse)(items[i]) != ItemKey(reverse)(items[j])
    {
      assert Apart(items[i], items[j]);
      assert items[i] in items && items[j] in items;
    }
  }

  lemma AllYielded(yielded: seq<Item>, all: seq<Item>, matching: seq<R.ChunkIndexRecord>, q: seq<Item>, reverse: bool,
                   chunks: Chunks, summary: Summary, query: Query)
    requires q == [] && InOrder(yielded, ExpandAll(q, chunks, summary, query), reverse)
    requires multiset(all) == multiset(yielded) + multiset(ExpandAll(q, chunks, summary, query))
    requires AllApart(ChunkItems(matching)) && all == ExpandAll(ChunkItems(matching), chunks, summary, query)
    ensures yielded == Sort(all, ItemKey(reverse))
  {
    hide ItemKey, Sort;
    ExpandApart(ChunkItems(matching), chunks, summary, query);
    ExpandedAreMessages(ChunkItems(matching), chunks, summary, query);
    ApartIdentifies(all, reverse);
    SortedIsSort(yielded, all, ItemKey(reverse));
  }
}
