/** Places where the Python reader does not do what its documentation says, or where its queue is
    not ordered, and exactly when it does and is. */
module PyOrder {
  import opened Bytes
  import opened Sorting
  import opened PyQueue
  import opened PyReader
  import opened PyLinear
  import R = Records

  // ---------- reading without time order ----------

  /** Chunks with wanted messages are listed by ascending offset. */
  ghost predicate ListedInFileOrder(cs: seq<R.ChunkIndexRecord>, chunks: Chunks, summary: Summary, query: Query) {
    forall i, j :: 0 <= i < j < |cs| && Gives(cs[i], chunks, summary, query) && Gives(cs[j], chunks, summary, query) ==>
      cs[i].chunkOffset < cs[j].chunkOffset
  }

  predicate Gives(c: R.ChunkIndexRecord, chunks: Chunks, summary: Summary, query: Query) {
    ItemsIn(c, chunks, summary, query) != []
  }

  lemma ItemsInFileOrder(c: R.ChunkIndexRecord, chunks: Chunks, summary: Summary, query: Query)
    ensures FileOrder(ItemsIn(c, chunks, summary, query))
    ensures forall x :: x in ItemsIn(c, chunks, summary, query) ==> x.MessageItem? && x.chunkOffset == c.chunkOffset
  {
    ItemsInPlaced(c, chunks, summary, query);
    hide ItemsIn;
    var items := ItemsIn(c, chunks, summary, query);
    forall i | 0 <= i < |items| ensures items[i].chunkOffset == c.chunkOffset {
      assert PlacedOne(items[i], 0, c.chunkOffset, summary, query);
    }
  }

  ghost predicate AllEarlier(a: seq<Item>, b: seq<Item>) {
    forall i, j :: 0 <= i < |a| && 0 <= j < |b| ==> EarlierPlace(a[i], b[j])
  }

  lemma OrderedParts(a: seq<Item>, b: seq<Item>)
    ensures FileOrder(a + b) <==> FileOrder(a) && FileOrder(b) && AllEarlier(a, b)
  {
    hide EarlierPlace;
    var all := a + b;
    if FileOrder(all) {
      forall i, j | 0 <= i < j < |a| ensures EarlierPlace(a[i], a[j]) {
        assert EarlierPlace(all[i], all[j]);
      }
      forall i, j | 0 <= i < j < |b| ensures EarlierPlace(b[i], b[j]) {
        assert EarlierPlace(all[|a| + i], all[|a| + j]);
      }
      forall i, j | 0 <= i < |a| && 0 <= j < |b| ensures EarlierPlace(a[i], b[j]) {
        assert EarlierPlace(all[i], all[|a| + j]);
      }
    }
  }

  /** Reading in insertion order gives the order of the file if and only if the summary lists
      the chunks with wanted messages by ascending offset. */
  lemma {:induction false} InsertOrderIsFileOrder(cs: seq<R.ChunkIndexRecord>, chunks: Chunks, summary: Summary, query: Query)
    requires DistinctOffsets(cs)
    ensures FileOrder(ExpandAll(ChunkItems(cs), chunks, summary, query)) <==> ListedInFileOrder(cs, chunks, summary, query)
    decreases |cs|
  {
    hide ItemsIn, FileOrder, AllEarlier, LastIsLast, ListedInFileOrder;
    if cs == [] {
      assert ChunkItems(cs) == [];
      NothingInOrder(chunks, summary, query);
    } else {
      var n := |cs| - 1;
      var a, b := ExpandAll(ChunkItems(cs[..n]), chunks, summary, query), ItemsIn(cs[n], chunks, summary, query);
      assert ChunkItems(cs)[..n] == ChunkItems(cs[..n]);
      InsertOrderIsFileOrder(cs[..n], chunks, summary, query);
      ItemsInFileOrder(cs[n], chunks, summary, query);
      OrderedParts(a, b);
      LastChunkOrdered(cs, a, b, chunks, summary, query);
      ListedMore(cs, chunks, summary, query);
    }
  }

  lemma ListedMore(cs: seq<R.ChunkIndexRecord>, chunks: Chunks, summary: Summary, query: Query)
    requires cs != []
    ensures ListedInFileOrder(cs, chunks, summary, query) <==>
            ListedInFileOrder(cs[..|cs| - 1], chunks, summary, query) && LastIsLast(cs, chunks, summary, query)
  {
    hide Gives;
  }

  lemma NothingInOrder(chunks: Chunks, summary: Summary, query: Query)
    ensures FileOrder([]) && ListedInFileOrder([], chunks, summary, query)
  {
  }

  /** A message of an earlier listed chunk comes before one of the last chunk exactly if its
      chunk does. */
  lemma OriginOf(cs: seq<R.ChunkIndexRecord>, x: Item, y: Item, chunks: Chunks, summary: Summary, query: Query) returns (k: nat)
    requires cs != [] && x in ExpandAll(ChunkItems(cs[..|cs| - 1]), chunks, summary, query)
    requires y in ItemsIn(cs[|cs| - 1], chunks, summary, query) && DistinctOffsets(cs)
    ensures k < |cs| - 1 && Gives(cs[k], chunks, summary, query)
    ensures EarlierPlace(x, y) <==> cs[k].chunkOffset < cs[|cs| - 1].chunkOffset
  {
    hide ItemsIn, ExpandAll;
    var n := |cs| - 1;
    k := ExpandOrigin(ChunkItems(cs[..n]), x, chunks, summary, query);
    assert ChunkItems(cs[..n])[k] == ChunkItem(cs[k]);
    ItemsInFileOrder(cs[k], chunks, summary, query);
    ItemsInFileOrder(cs[n], chunks, summary, query);
    assert cs[k].chunkOffset != cs[n].chunkOffset;
  }

  /** A chunk that gives something shows in the expansion. */
  lemma ItemOf(cs: seq<R.ChunkIndexRecord>, k: nat, chunks: Chunks, summary: Summary, query: Query) returns (x: Item)
    requires k < |cs| && Gives(cs[k], chunks, summary, query)
    ensures x in ExpandAll(ChunkItems(cs), chunks, summary, query) && x.MessageItem? && x.chunkOffset == cs[k].chunkOffset
  {
    hide ItemsIn, ExpandAll;
    x := ItemsIn(cs[k], chunks, summary, query)[0];
    assert ChunkItems(cs)[k] == ChunkItem(cs[k]);
    ItemsInFileOrder(cs[k], chunks, summary, query);
    ExpandMember(ChunkItems(cs), k, x, chunks, summary, query);
  }

  ghost predicate LastIsLast(cs: seq<R.ChunkIndexRecord>, chunks: Chunks, summary: Summary, query: Query)
    requires cs != []
  {
    forall i :: 0 <= i < |cs| - 1 && Gives(cs[i], chunks, summary, query) && Gives(cs[|cs| - 1], chunks, summary, query) ==>
      cs[i].chunkOffset < cs[|cs| - 1].chunkOffset
  }

  /** The last chunk's messages come behind the others exactly if its offset does. */
  lemma LastChunkOrdered(cs: seq<R.ChunkIndexRecord>, a: seq<Item>, b: seq<Item>, chunks: Chunks, summary: Summary, query: Query)
    requires cs != [] && DistinctOffsets(cs)
    requires a == ExpandAll(ChunkItems(cs[..|cs| - 1]), chunks, summary, query)
    requires b == ItemsIn(cs[|cs| - 1], chunks, summary, query)
    ensures AllEarlier(a, b) <==> LastIsLast(cs, chunks, summary, query)
  {
    hide ItemsIn, ExpandAll, EarlierPlace, DistinctOffsets;
    var n := |cs| - 1;
    if LastIsLast(cs, chunks, summary, query) {
      forall i, j | 0 <= i < |a| && 0 <= j < |b| ensures EarlierPlace(a[i], b[j]) {
        var k := OriginOf(cs, a[i], b[j], chunks, summary, query);
      }
    }
    if AllEarlier(a, b) {
      forall k | 0 <= k < n && Gives(cs[k], chunks, summary, query) && Gives(cs[n], chunks, summary, query)
        ensures cs[k].chunkOffset < cs[n].chunkOffset
      {
        var x := ItemOf(cs[..n], k, chunks, summary, query);
        var i :| 0 <= i < |a| && a[i] == x;
        EarlierChunk(cs, k, a[i], b[0], chunks, summary, query);
      }
    }
  }

  lemma EarlierChunk(cs: seq<R.ChunkIndexRecord>, k: nat, x: Item, y: Item, chunks: Chunks, summary: Summary, query: Query)
    requires k < |cs| - 1 && DistinctOffsets(cs) && EarlierPlace(x, y) && x.chunkOffset == cs[k].chunkOffset
    requires y in ItemsIn(cs[|cs| - 1], chunks, summary, query)
    ensures cs[k].chunkOffset < cs[|cs| - 1].chunkOffset
  {
    ItemsInFileOrder(cs[|cs| - 1], chunks, summary, query);
    assert cs[k].chunkOffset != cs[|cs| - 1].chunkOffset;
  }

  /** A summary that lists two chunks against their offsets. */
  const LISTED: seq<R.ChunkIndexRecord> :=
    [R.ChunkIndex(5, 5, 200, 50, [(1, 250)], 20, [], 0, 0), R.ChunkIndex(1, 1, 100, 50, [(1, 150)], 20, [], 0, 0)]

  const CHANNELS: map<nat, R.ChannelRecord> := map[1 := R.Channel(1, 0, [], [], [])]

  const EVERYTHING: Query := Query(None, None, None)

  function ItemAt(time: nat, offset: nat, index: nat): Item {
    MessageItem(None, CHANNELS[1], R.Message(1, 0, time, time, []), offset, index)
  }

  lemma OneMessageItems(time: nat, offset: nat, summary: Summary)
    requires summary.channels == CHANNELS
    ensures ItemsOf([R.Message(1, 0, time, time, [])], 0, offset, summary, EVERYTHING) == Some([ItemAt(time, offset, 0)])
  {
    var records: seq<R.Record> := [R.Message(1, 0, time, time, [])];
    assert ItemsOf(records, 1, offset, summary, EVERYTHING) == Some([]);
    assert [ItemAt(time, offset, 0)] + [] == [ItemAt(time, offset, 0)];
  }

  /** Read without time order, it gives the message of the chunk at 200 before that of the chunk
      at 100. */
  method ReadListedAgainstOffsets() returns (ok: bool, out: seq<Item>)
    ensures ok && out == [ItemAt(5, 200, 0), ItemAt(1, 100, 0)] && !FileOrder(out)
  {
    hide ExpandAll, ItemsOf, ItemsIn, Kept, Matches, LookupFails;
    var summary := Summary(map[], CHANNELS, LISTED);
    var chunks: Chunks := map[200 := [R.Message(1, 0, 5, 5, [])], 100 := [R.Message(1, 0, 1, 1, [])]];
    var reader := new SeekingReader(chunks, summary);
    ListedExpands(summary, chunks);
    ok, out := reader.IterInInsertOrder(EVERYTHING);
    assert !EarlierPlace(out[0], out[1]);
  }

  lemma ListedExpands(summary: Summary, chunks: Chunks)
    requires summary == Summary(map[], CHANNELS, LISTED)
    requires chunks == map[200 := [R.Message(1, 0, 5, 5, [])], 100 := [R.Message(1, 0, 1, 1, [])]]
    ensures CanRead(summary, chunks, EVERYTHING) && Matching(summary, EVERYTHING) == LISTED
    ensures ExpandAll(ChunkItems(LISTED), chunks, summary, EVERYTHING) == [ItemAt(5, 200, 0), ItemAt(1, 100, 0)]
  {
    hide ItemsOf, Kept;
    var p := MatchesQuery(summary, EVERYTHING);
    forall i | 0 <= i < 2 ensures p(LISTED[i]) {
      assert ListsWanted(LISTED[i], 0, CHANNELS, EVERYTHING);
    }
    assert LISTED == [LISTED[0]] + [LISTED[1]];
    KeptBoth(LISTED, p);
    OneMessageItems(5, 200, summary);
    OneMessageItems(1, 100, summary);
    ExpandConcat([ChunkItem(LISTED[0])], [ChunkItem(LISTED[1])], chunks, summary, EVERYTHING);
    ExpandOne(ChunkItem(LISTED[0]), chunks, summary, EVERYTHING);
    ExpandOne(ChunkItem(LISTED[1]), chunks, summary, EVERYTHING);
    assert ChunkItems(LISTED) == [ChunkItem(LISTED[0])] + [ChunkItem(LISTED[1])];
  }

  lemma {:induction false} KeptBoth<T>(s: seq<T>, p: T -> bool)
    requires forall i :: 0 <= i < |s| ==> p(s[i])
    ensures Kept(s, p) == s
    decreases |s|
  {
    if s != [] {
      KeptBoth(s[..|s| - 1], p);
      assert s == s[..|s| - 1] + [s[|s| - 1]];
    }
  }

  // ---------- queues with ties ----------

  /** One round of the reading loop: an item than which no other is less is taken, and a chunk's
      messages are put in its place. */
  ghost predicate Takes(p: seq<Item>, at: nat, q: seq<Item>, reverse: bool, chunks: Chunks, summary: Summary, query: Query) {
    && at < |p| && (forall i :: 0 <= i < |p| ==> !Less(p[i], p[at], reverse))
    && q == p[..at] + p[at + 1..] + (if p[at].ChunkItem? then ItemsIn(p[at].chunk, chunks, summary, query) else [])
  }

  /** The queues a reverse read can come to within `n` rounds. */
  ghost predicate Reached(cs: seq<R.ChunkIndexRecord>, q: seq<Item>, n: nat, chunks: Chunks, summary: Summary, query: Query)
    decreases n
  {
    if n == 0 then q == ChunkItems(cs)
    else exists p, at :: Reached(cs, p, n - 1, chunks, summary, query) && Takes(p, at, q, true, chunks, summary, query)
  }

  lemma {:induction false} ReachedIsOk(cs: seq<R.ChunkIndexRecord>, q: seq<Item>, n: nat, chunks: Chunks, summary: Summary,
                                       query: Query)
    requires DistinctOffsets(cs) && Reached(cs, q, n, chunks, summary, query)
    ensures QueueOk(q, cs, chunks, summary, query)
    decreases n
  {
    hide QueueOk, DistinctOffsets, ItemsIn;
    if n == 0 {
      QueueStarts(cs, chunks, summary, query);
    } else {
      var p: seq<Item>, at: nat :| Reached(cs, p, n - 1, chunks, summary, query) && Takes(p, at, q, true, chunks, summary, query);
      ReachedIsOk(cs, p, n - 1, chunks, summary, query);
      QueueWithout(p, at, cs, chunks, summary, query);
      var rest := p[..at] + p[at + 1..];
      if p[at].ChunkItem? {
        QueuedIsMatching(p, at, cs, chunks, summary, query);
        QueueOpened(rest, p[at].chunk, cs, chunks, summary, query);
      } else {
        assert rest + [] == rest;
      }
    }
  }

  /** Some item of a queue is not greater than any other. */
  lemma {:induction false} SomeLeast(q: seq<Item>, reverse: bool) returns (at: nat)
    requires q != []
    ensures at < |q| && forall i :: 0 <= i < |q| ==> !Less(q[i], q[at], reverse)
    decreases |q|
  {
    hide Less;
    var n := |q| - 1;
    if n == 0 {
      at := 0;
      LessIsStrict(q[0], q[0], q[0], reverse);
    } else {
      at := SomeLeast(q[..n], reverse);
      if Less(q[n], q[at], reverse) {
        forall i | 0 <= i < n ensures !Less(q[i], q[n], reverse) {
          assert !Less(q[..n][i], q[at], reverse);
          LessIsStrict(q[i], q[n], q[at], reverse);
        }
        at := n;
        LessIsStrict(q[n], q[n], q[n], reverse);
      } else {
        forall i | 0 <= i < n ensures !Less(q[i], q[at], reverse) {
          assert !Less(q[..n][i], q[at], reverse);
        }
      }
    }
  }

  lemma OneRound(cs: seq<R.ChunkIndexRecord>, p: seq<Item>, n: nat, at: nat, q: seq<Item>, chunks: Chunks, summary: Summary,
                 query: Query)
    requires Reached(cs, p, n, chunks, summary, query) && Takes(p, at, q, true, chunks, summary, query)
    ensures Reached(cs, q, n + 1, chunks, summary, query)
  {
  }

  /** As long as two chunks are queued, the one that comes first is opened sooner or later while
      the other is still queued. */
  lemma {:induction false} OpensFirst(cs: seq<R.ChunkIndexRecord>, q: seq<Item>, n: nat, c: R.ChunkIndexRecord,
                                      d: R.ChunkIndexRecord, chunks: Chunks, summary: Summary, query: Query)
    returns (p: seq<Item>, m: nat)
    requires DistinctOffsets(cs) && Reached(cs, q, n, chunks, summary, query)
    requires ChunkItem(c) in q && ChunkItem(d) in q && Less(ChunkItem(d), ChunkItem(c), true)
    ensures Reached(cs, p, m, chunks, summary, query) && ChunkItem(c) in p
    ensures forall x :: x in ItemsIn(d, chunks, summary, query) ==> x in p
    decreases ChunkCount(q), |q|
  {
    hide Less, ItemsIn, ChunkCount, DistinctOffsets, Reached;
    var at := SomeLeast(q, true);
    var rest := q[..at] + q[at + 1..];
    var more := if q[at].ChunkItem? then ItemsIn(q[at].chunk, chunks, summary, query) else [];
    var next := rest + more;
    OneRound(cs, q, n, at, next, chunks, summary, query);
    StillQueued(q, at, next, more);
    assert q[at] != ChunkItem(c) by {
      var j :| 0 <= j < |q| && q[j] == ChunkItem(d);
      assert !Less(q[j], q[at], true);
    }
    if q[at] == ChunkItem(d) {
      p, m := next, n + 1;
    } else {
      ChunkCountWithout(q, at);
      ChunkCountConcat(rest, more);
      NoChunks(more);
      p, m := OpensFirst(cs, next, n + 1, c, d, chunks, summary, query);
    }
  }

  lemma TiedTogether(q: seq<Item>, a: Item, b: Item)
    requires a in q && b in q && a != b && Tied(a, b, true) && Tied(b, a, true)
    ensures !NoTies(q, true)
  {
    hide Tied;
    var i :| 0 <= i < |q| && q[i] == a;
    var j :| 0 <= j < |q| && q[j] == b;
    if i < j {
      assert Tied(q[i], q[j], true);
    } else {
      assert Tied(q[j], q[i], true);
    }
  }

  /** A chunk and a message of another that tie do meet in the queue. */
  lemma TieIsReached(cs: seq<R.ChunkIndexRecord>, c: R.ChunkIndexRecord, d: R.ChunkIndexRecord, x: Item, chunks: Chunks,
                     summary: Summary, query: Query) returns (q: seq<Item>, n: nat)
    requires DistinctOffsets(cs) && AllBoundsHold(cs, chunks, summary, query) && c in cs && d in cs
    requires c.chunkOffset != d.chunkOffset && c.chunkOffset + c.chunkLength == d.chunkOffset
    requires x in ItemsIn(d, chunks, summary, query) && x.message.logTime == c.endTime
    ensures Reached(cs, q, n, chunks, summary, query) && !NoTies(q, true)
  {
    hide ItemsIn, DistinctOffsets, NoTies;
    QueueStarts(cs, chunks, summary, query);
    ItemsInPlaced(d, chunks, summary, query);
    assert BoundsHold(d, chunks, summary, query);
    if Less(ChunkItem(d), ChunkItem(c), true) {
      q, n := OpensFirst(cs, ChunkItems(cs), 0, c, d, chunks, summary, query);
      TiedTogether(q, ChunkItem(c), x);
    } else {
      q, n := ChunkItems(cs), 0;
      TiedTogether(q, ChunkItem(c), ChunkItem(d));
    }
  }

  /** The comparison orders every queue a reverse read can come to if and only if no two chunks
      end at one place and time, and no message of a chunk that starts where another ends has
      that other chunk's end time. */
  lemma TiesAreReachedExactly(cs: seq<R.ChunkIndexRecord>, chunks: Chunks, summary: Summary, query: Query)
    requires DistinctOffsets(cs) && AllBoundsHold(cs, chunks, summary, query)
    ensures NoBackwardTies(cs, chunks, summary, query) <==>
              forall q, n :: Reached(cs, q, n, chunks, summary, query) ==> NoTies(q, true)
  {
    hide ItemsIn, DistinctOffsets, NoTies, AllBoundsHold, Reached;
    if NoBackwardTies(cs, chunks, summary, query) {
      forall q, n | Reached(cs, q, n, chunks, summary, query) ensures NoTies(q, true) {
        ReachedIsOk(cs, q, n, chunks, summary, query);
        QueueHasNoTies(q, cs, true, chunks, summary, query);
      }
    } else {
      var q, n := SomeTieIsReached(cs, chunks, summary, query);
    }
  }

  lemma SomeTieIsReached(cs: seq<R.ChunkIndexRecord>, chunks: Chunks, summary: Summary, query: Query)
    returns (q: seq<Item>, n: nat)
    requires DistinctOffsets(cs) && AllBoundsHold(cs, chunks, summary, query) && !NoBackwardTies(cs, chunks, summary, query)
    ensures Reached(cs, q, n, chunks, summary, query) && !NoTies(q, true)
  {
    hide ItemsIn, DistinctOffsets, NoTies, AllBoundsHold, Reached, Less;
    var c, d :| c in cs && d in cs && c.chunkOffset != d.chunkOffset &&
      !(!(c.endTime == d.endTime && c.chunkOffset + c.chunkLength == d.chunkOffset + d.chunkLength) &&
        (c.chunkOffset + c.chunkLength == d.chunkOffset ==>
          forall x :: x in ItemsIn(d, chunks, summary, query) ==> x.message.logTime != c.endTime));
    if c.endTime == d.endTime && c.chunkOffset + c.chunkLength == d.chunkOffset + d.chunkLength {
      QueueStarts(cs, chunks, summary, query);
      q, n := ChunkItems(cs), 0;
      TiedTogether(q, ChunkItem(c), ChunkItem(d));
      StartIsReached(cs, chunks, summary, query);
    } else {
      var x :| x in ItemsIn(d, chunks, summary, query) && x.message.logTime == c.endTime;
      q, n := TieIsReached(cs, c, d, x, chunks, summary, query);
    }
  }

  lemma StartIsReached(cs: seq<R.ChunkIndexRecord>, chunks: Chunks, summary: Summary, query: Query)
    ensures Reached(cs, ChunkItems(cs), 0, chunks, summary, query)
  {
  }

  /** Two chunks, the second starting where the first ends, with message indexes elsewhere. */
  const FORMER: R.ChunkIndexRecord := R.ChunkIndex(0, 5, 0, 100, [(1, 300)], 20, [], 0, 0)
  const LATTER: R.ChunkIndexRecord := R.ChunkIndex(5, 9, 100, 50, [(1, 320)], 20, [], 0, 0)

  /** Both match, the second is opened first, and the first then ties with both of its messages,
      which do not tie with each other: ties are not even transitive. */
  lemma BackwardCanTie()
    ensures var summary := Summary(map[], CHANNELS, [FORMER, LATTER]);
            var chunks: Chunks := map[0 := [R.Message(1, 0, 5, 5, [])], 100 := [R.Message(1, 0, 5, 5, []), R.Message(1, 0, 5, 5, [])]];
            Matching(summary, EVERYTHING) == [FORMER, LATTER] && Less(ChunkItem(LATTER), ChunkItem(FORMER), true) &&
            ItemsIn(LATTER, chunks, summary, EVERYTHING) == [ItemAt(5, 100, 0), ItemAt(5, 100, 1)] &&
            Reached([FORMER, LATTER], [ChunkItem(FORMER), ItemAt(5, 100, 0), ItemAt(5, 100, 1)], 1, chunks, summary, EVERYTHING) &&
            Tied(ChunkItem(FORMER), ItemAt(5, 100, 0), true) && Tied(ChunkItem(FORMER), ItemAt(5, 100, 1), true) &&
            Less(ItemAt(5, 100, 1), ItemAt(5, 100, 0), true)
  {
    hide Kept, Reached, ItemsOf;
    var cs := [FORMER, LATTER];
    var summary := Summary(map[], CHANNELS, cs);
    var chunks: Chunks := map[0 := [R.Message(1, 0, 5, 5, [])], 100 := [R.Message(1, 0, 5, 5, []), R.Message(1, 0, 5, 5, [])]];
    var p := MatchesQuery(summary, EVERYTHING);
    forall i | 0 <= i < 2 ensures p(cs[i]) {
      assert ListsWanted(cs[i], 0, CHANNELS, EVERYTHING);
    }
    KeptBoth(cs, p);
    TwoItems(summary);
    var start, after := ChunkItems(cs), [ChunkItem(FORMER), ItemAt(5, 100, 0), ItemAt(5, 100, 1)];
    StartIsReached(cs, chunks, summary, EVERYTHING);
    assert start == [ChunkItem(FORMER), ChunkItem(LATTER)];
    assert start[..1] + start[2..] == [ChunkItem(FORMER)];
    assert Takes(start, 1, after, true, chunks, summary, EVERYTHING);
    OneRound(cs, start, 0, 1, after, chunks, summary, EVERYTHING);
  }

  lemma TwoItems(summary: Summary)
    requires summary.channels == CHANNELS
    ensures ItemsOf([R.Message(1, 0, 5, 5, []), R.Message(1, 0, 5, 5, [])], 0, 100, summary, EVERYTHING) ==
            Some([ItemAt(5, 100, 0), ItemAt(5, 100, 1)])
  {
    var records: seq<R.Record> := [R.Message(1, 0, 5, 5, []), R.Message(1, 0, 5, 5, [])];
    assert ItemsOf(records, 2, 100, summary, EVERYTHING) == Some([]);
    assert [ItemAt(5, 100, 1)] + [] == [ItemAt(5, 100, 1)];
    assert ItemsOf(records, 1, 100, summary, EVERYTHING) == Some([ItemAt(5, 100, 1)]);
    assert [ItemAt(5, 100, 0)] + [ItemAt(5, 100, 1)] == [ItemAt(5, 100, 0), ItemAt(5, 100, 1)];
    assert ItemsOf(records, 0, 100, summary, EVERYTHING) == Some([ItemAt(5, 100, 0)] + [ItemAt(5, 100, 1)]);
  }

  // ---------- the whole reader ----------

  /** There is no index to read through. */
  predicate Fallback(summary: Option<Summary>) {
    summary.None? || summary.value.chunkIndexes == []
  }

  /** What `iter_messages` of the seeking reader yields. Asking for reverse order without time
      order is refused, but only where there is an index. */
  ghost function SeekingRead(summary: Option<Summary>, chunks: Chunks, stream: seq<R.Record>, query: Query, logTimeOrder: bool,
                             reverse: bool): Option<seq<Triple>>
  {
    if Fallback(summary) then LinearRead(stream, query, logTimeOrder, false)
    else if !logTimeOrder && reverse then None
    else if !CanRead(summary.value, chunks, query) then None
    else
      var found := ExpandAll(ChunkItems(Matching(summary.value, query)), chunks, summary.value, query);
      Some(Mapped(if logTimeOrder then Sort(found, ItemKey(reverse)) else found, TripleOf()))
  }

  method IterMessages(summary: Option<Summary>, chunks: Chunks, stream: seq<R.Record>, query: Query, logTimeOrder: bool,
                      reverse: bool) returns (found: Option<seq<Triple>>)
    requires !Fallback(summary) && logTimeOrder ==>
               var cs := Matching(summary.value, query);
               DistinctOffsets(cs) && AllBoundsHold(cs, chunks, summary.value, query) &&
               (reverse ==> NoBackwardTies(cs, chunks, summary.value, query))
    ensures found == SeekingRead(summary, chunks, stream, query, logTimeOrder, reverse)
  {
    hide LinearRead, CanRead, ExpandAll, Matching, Sort, Mapped, TripleOf, DistinctOffsets, AllBoundsHold, NoBackwardTies;
    if summary.None? || |summary.value.chunkIndexes| == 0 {
      var linear := new NonSeekingReader(stream);
      found := linear.IterMessages(query, logTimeOrder, false);
      return;
    }
    if !logTimeOrder && reverse {
      return None;
    }
    var reader := new SeekingReader(chunks, summary.value);
    var ok, items;
    if logTimeOrder {
      ok, items := reader.IterMessages(query, reverse);
    } else {
      ok, items := reader.IterInInsertOrder(query);
    }
    found := if ok then Some(Mapped(items, TripleOf())) else None;
  }

  /** Later messages come first. */
  ghost predicate Descending(read: seq<Triple>) {
    forall i, j :: 0 <= i < j < |read| ==> read[i].message.logTime >= read[j].message.logTime
  }

  ghost predicate OneTime(read: seq<Triple>) {
    forall i, j :: 0 <= i < j < |read| ==> read[i].message.logTime == read[j].message.logTime
  }

  /** Through the index a reverse read comes in descending order. */
  lemma IndexedIsDescending(summary: Summary, chunks: Chunks, stream: seq<R.Record>, query: Query)
    requires !Fallback(Some(summary)) && CanRead(summary, chunks, query)
    ensures var read := SeekingRead(Some(summary), chunks, stream, query, true, true); read.Some? && Descending(read.value)
  {
    hide Sort, ExpandAll, CanRead;
    var found := ExpandAll(ChunkItems(Matching(summary, query)), chunks, summary, query);
    ExpandedAreMessages(ChunkItems(Matching(summary, query)), chunks, summary, query);
    var sorted := Sort(found, ItemKey(true));
    SortSorts(found, ItemKey(true));
    SortPermutes(found, ItemKey(true));
    forall i, j | 0 <= i < j < |sorted|
      ensures TripleOf()(sorted[i]).message.logTime >= TripleOf()(sorted[j]).message.logTime
    {
      assert ItemKey(true)(sorted[i]).AtMost(ItemKey(true)(sorted[j]));
      assert sorted[i] in multiset(found) && sorted[j] in multiset(found);
    }
  }

  // ---------- reading backwards without an index ----------

  lemma SameTimesSortAlike(s: seq<Triple>)
    requires forall i, j :: 0 <= i < |s| && 0 <= j < |s| ==> s[i].message.logTime == s[j].message.logTime
    ensures Sort(s, TripleKey(false)) == s && Sort(s, TripleKey(true)) == s
  {
    SortOfSorted(s, TripleKey(false));
    SortOfSorted(s, TripleKey(true));
  }

  /** A list that is sorted both ways has one time only. */
  lemma SortedBothWays(s: seq<Triple>)
    requires Sorted(s, TripleKey(false)) && Sorted(s, TripleKey(true))
    ensures forall i, j :: 0 <= i < j < |s| ==> s[i].message.logTime == s[j].message.logTime
  {
    forall i, j | 0 <= i < j < |s| ensures s[i].message.logTime == s[j].message.logTime {
      assert TripleKey(false)(s[i]).AtMost(TripleKey(false)(s[j]));
      assert TripleKey(true)(s[i]).AtMost(TripleKey(true)(s[j]));
    }
  }

  /** Without an index the reverse read hands the query to the linear reader, but not the
      direction. What comes is in descending order if and only if all wanted messages of the
      stream have one log time, and only then is it what the linear reader gives in reverse. */
  lemma FallbackIgnoresReverse(summary: Option<Summary>, chunks: Chunks, stream: seq<R.Record>, query: Query)
    requires Fallback(summary) && Linear(stream, map[], map[], query).Some?
    ensures var read, wanted := SeekingRead(summary, chunks, stream, query, true, true), Linear(stream, map[], map[], query).value;
            read.Some? && (Descending(read.value) <==> OneTime(wanted)) &&
            (read == LinearRead(stream, query, true, true) <==> OneTime(wanted))
  {
    hide Sort, Linear;
    var wanted := Linear(stream, map[], map[], query).value;
    var read := Sort(wanted, TripleKey(false));
    assert SeekingRead(summary, chunks, stream, query, true, true) == Some(read);
    SortSorts(wanted, TripleKey(false));
    SortSorts(wanted, TripleKey(true));
    if OneTime(wanted) {
      SameTimesSortAlike(wanted);
    }
    if Descending(read) || Some(read) == LinearRead(stream, query, true, true) {
      DescendingIsSorted(read);
      SortedBothWays(read);
      OneTimeEitherWay(wanted, read);
    }
  }

  lemma DescendingIsSorted(s: seq<Triple>)
    ensures Descending(s) <==> Sorted(s, TripleKey(true))
  {
    if Sorted(s, TripleKey(true)) {
      forall i, j | 0 <= i < j < |s| ensures s[i].message.logTime >= s[j].message.logTime {
        assert TripleKey(true)(s[i]).AtMost(TripleKey(true)(s[j]));
      }
    }
  }

  lemma OneTimeEitherWay(found: seq<Triple>, read: seq<Triple>)
    requires read == Sort(found, TripleKey(false)) && OneTime(read)
    ensures OneTime(found)
  {
    SortPermutes(found, TripleKey(false));
    hide Sort;
    forall i, j | 0 <= i < j < |found| ensures found[i].message.logTime == found[j].message.logTime {
      assert found[i] in multiset(read) && found[j] in multiset(read);
      var a :| 0 <= a < |read| && read[a] == found[i];
      var b :| 0 <= b < |read| && read[b] == found[j];
    }
  }

  /** A file without chunks, read in reverse: the earlier message comes first. */
  method ReadReverseWithoutIndex() returns (found: Option<seq<Triple>>)
    ensures found.Some? && |found.value| == 2 && found.value[0].message.logTime == 1 && found.value[1].message.logTime == 2
  {
    hide Sort;
    var channel: R.ChannelRecord := CHANNELS[1];
    var a: R.MessageRecord := R.Message(1, 0, 1, 1, []);
    var b: R.MessageRecord := R.Message(1, 0, 2, 2, []);
    LinearOfTwo(channel, a, b);
    var both := [Triple(None, channel, a), Triple(None, channel, b)];
    assert Sorted(both, TripleKey(false));
    SortOfSorted(both, TripleKey(false));
    found := IterMessages(None, map[], [channel, a, b], EVERYTHING, true, true);
  }

  lemma LinearOfTwo(channel: R.ChannelRecord, a: R.MessageRecord, b: R.MessageRecord)
    requires channel.channelId == 1 && channel.channelSchema == 0 && a.messageChannel == b.messageChannel == 1
    ensures Linear([channel, a, b], map[], map[], EVERYTHING) == Some([Triple(None, channel, a), Triple(None, channel, b)])
  {
    var seen := map[1 := channel];
    var stream: seq<R.Record> := [channel, a, b];
    assert stream[1..] == [a, b] && stream[2..] == [b] && stream[1..][1..] == stream[2..] && stream[2..][1..] == [];
    assert Linear([], seen, map[], EVERYTHING) == Some([]);
    assert [b][1..] == [] && [a, b][1..] == [b];
    assert [Triple(None, channel, b)] + [] == [Triple(None, channel, b)];
    assert Linear([b], seen, map[], EVERYTHING) == Some([Triple(None, channel, b)]);
    assert Linear([a, b], seen, map[], EVERYTHING) == Some([Triple(None, channel, a)] + [Triple(None, channel, b)]);
    assert [Triple(None, channel, a)] + [Triple(None, channel, b)] == [Triple(None, channel, a), Triple(None, channel, b)];
    assert map[][1 := channel] == seen;
    assert Linear(stream, map[], map[], EVERYTHING) == Linear([a, b], seen, map[], EVERYTHING);
  }
}
