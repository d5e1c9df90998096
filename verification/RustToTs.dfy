/** Reading with the TypeScript reader what the Rust writer has written: a finished file of any
    run with message indexes meets everything that reader relies on, so that every read yields
    exactly the messages that were written into chunks and are asked for. */
module RustToTs {
  import opened Bytes
  import opened Sorting
  import opened Format
  import opened RustLayout
  import opened RustRegistry
  import opened RustMachine
  import opened RustRuns
  import opened RustRead
  import opened RustFiles
  import Cursor = TsCursor
  import Reader = TsReader
  import Merge = TsMerge
  import Scan = TsScan
  import TsMessages
  import R = Records

  // ---------- the file as the reader sees it ----------

  /** The messages of a chunk, by their offsets in its uncompressed data. */
  function MessagesAt(es: seq<Entry>): map<nat, R.MessageRecord>
    decreases |es|
  {
    if es == [] then map[]
    else
      var n := |es| - 1;
      var before := MessagesAt(es[..n]);
      if IsMessage(es[n]) then before[|Raw(es[..n])| := es[n].record] else before
  }

  /** The message index records behind a chunk. */
  function RegionOf(ix: IndexMap, offsets: IntMap): (r: seq<Cursor.IndexRecord>)
    ensures |r| == |offsets|
  {
    seq(|offsets|, k requires 0 <= k < |offsets| =>
      Cursor.IndexRecord(offsets[k].1, offsets[k].0, if offsets[k].0 in ix then ix[offsets[k].0] else []))
  }

  function IndexIn(o: Options, es: seq<Entry>, at: nat): R.ChunkIndexRecord {
    ChunkIndexFor(o, es, at)
  }

  /** The chunk indexes of a file, and what is found behind each of them. */
  function IndexesIn(o: Options, items: seq<Item>): seq<R.ChunkIndexRecord>
    decreases |items|
  {
    if items == [] then []
    else
      var n := |items| - 1;
      IndexesIn(o, items[..n]) +
      (if items[n].ChunkOf? then [IndexIn(o, items[n].entries, |Layout(o, items[..n])|)] else [])
  }

  function RegionsIn(o: Options, items: seq<Item>): Cursor.Regions
    decreases |items|
  {
    if items == [] then map[]
    else
      var n := |items| - 1;
      var before, at := RegionsIn(o, items[..n]), |Layout(o, items[..n])|;
      if items[n].ChunkOf? then
        before[at := RegionOf(IndexOf(items[n].entries), IndexIn(o, items[n].entries, at).indexOffsets)]
      else before
  }

  function ContentsIn(o: Options, items: seq<Item>): Scan.Contents
    decreases |items|
  {
    if items == [] then map[]
    else
      var n := |items| - 1;
      var before, at := ContentsIn(o, items[..n]), |Layout(o, items[..n])|;
      if items[n].ChunkOf? then before[at := MessagesAt(items[n].entries)] else before
  }

  lemma {:induction false} IndexesAreListed(o: Options, items: seq<Item>)
    ensures |IndexesIn(o, items)| == |ChunkIndexList(o, items)|
    ensures forall k :: 0 <= k < |IndexesIn(o, items)| ==> IndexesIn(o, items)[k] == ChunkIndexList(o, items)[k]
    decreases |items|
  {
    hide ChunkIndexFor, Layout;
    if items != [] {
      IndexesAreListed(o, items[..|items| - 1]);
    }
  }

  // ---------- offsets ----------

  /** Every chunk lies within the layout, behind the one before it. */
  lemma {:induction false} OffsetsAscend(o: Options, items: seq<Item>)
    ensures forall c :: c in IndexesIn(o, items) ==> c.chunkOffset < |Layout(o, items)|
    ensures forall i, j :: 0 <= i < j < |IndexesIn(o, items)| ==>
              IndexesIn(o, items)[i].chunkOffset < IndexesIn(o, items)[j].chunkOffset
    ensures RegionsIn(o, items).Keys == ContentsIn(o, items).Keys
    ensures forall k :: k in RegionsIn(o, items) ==> k < |Layout(o, items)|
    decreases |items|
  {
    hide BoundsOf, Raw, ChunkBytes, Trailer, IndexOffsets, Ascending, IndexOf, ItemBytes;
    if items != [] {
      var n := |items| - 1;
      OffsetsAscend(o, items[..n]);
      ItemIsNotEmpty(o, items[n]);
      assert Layout(o, items) == Layout(o, items[..n]) + ItemBytes(o, items[n]);
    }
  }

  lemma ItemIsNotEmpty(o: Options, item: Item)
    ensures item.ChunkOf? ==> |ItemBytes(o, item)| > 0
  {
    hide Trailer, ChunkRecord, R.Body;
    if item.ChunkOf? {
      var r := ChunkRecord(o, item.entries);
      assert |ChunkBytes(o, item.entries)| > 0;
    }
  }

  // ---------- one chunk ----------

  lemma {:induction false} MessageBounds(es: seq<Entry>, x: nat)
    requires x in MessagesAt(es)
    ensures x < |Raw(es)|
    ensures BoundsOf(es).Some? && BoundsOf(es).value.0 <= MessagesAt(es)[x].logTime <= BoundsOf(es).value.1
    decreases |es|
  {
    hide Raw;
    var n := |es| - 1;
    RawMore(es[..n], es[n]);
    assert es == es[..n] + [es[n]];
    EntryBytesLength(es[n]);
    if x in MessagesAt(es[..n]) {
      MessageBounds(es[..n], x);
    }
  }

  lemma {:induction false} BoundsAreOrdered(es: seq<Entry>)
    ensures StartTime(BoundsOf(es)) <= EndTime(BoundsOf(es))
    ensures BoundsOf(es).Some? <==> IndexOf(es) != map[]
    decreases |es|
  {
    hide Raw;
    if es != [] {
      BoundsAreOrdered(es[..|es| - 1]);
    }
  }

  /** A channel's index lists each of its messages once, and nothing else. */
  lemma {:induction false} IndexCounts(es: seq<Entry>, channel: nat, e: Cursor.Entry)
    ensures multiset(if channel in IndexOf(es) then IndexOf(es)[channel] else [])[e] ==
            if e.1 in MessagesAt(es) && MessagesAt(es)[e.1].logTime == e.0 && MessagesAt(es)[e.1].messageChannel == channel
            then 1 else 0
    decreases |es|
  {
    hide Raw, BoundsOf;
    if es != [] {
      var n := |es| - 1;
      IndexCounts(es[..n], channel, e);
      if |Raw(es[..n])| in MessagesAt(es[..n]) {
        MessageBounds(es[..n], |Raw(es[..n])|);
      }
    }
  }

  ghost predicate Lists(offsets: IntMap, channel: nat) {
    exists k :: 0 <= k < |offsets| && offsets[k].0 == channel
  }

  lemma ListsMore(offsets: IntMap, channel: nat)
    requires offsets != [] && forall i, j :: 0 <= i < j < |offsets| ==> offsets[i].0 != offsets[j].0
    ensures var n := |offsets| - 1;
            (Lists(offsets, channel) <==> Lists(offsets[..n], channel) || offsets[n].0 == channel) &&
            !(Lists(offsets[..n], channel) && offsets[n].0 == channel)
  {
    var n := |offsets| - 1;
    if k :| 0 <= k < |offsets| && offsets[k].0 == channel {
      assert k < n ==> offsets[..n][k].0 == channel;
    }
    if k :| 0 <= k < n && offsets[..n][k].0 == channel {
      assert offsets[k].0 == channel;
    }
  }

  lemma RegionMore(ix: IndexMap, offsets: IntMap, channel: nat)
    requires offsets != []
    ensures var n := |offsets| - 1;
            Cursor.EntriesFrom(RegionOf(ix, offsets), Some({channel}), 0) ==
            Cursor.EntriesFrom(RegionOf(ix, offsets[..n]), Some({channel}), 0) +
            (if offsets[n].0 == channel && channel in ix then ix[channel] else [])
  {
    var n := |offsets| - 1;
    assert RegionOf(ix, offsets)[..n] == RegionOf(ix, offsets[..n]);
  }

  /** Of the region's records those of one channel are its index. */
  lemma {:induction false} RegionOfChannel(ix: IndexMap, offsets: IntMap, channel: nat)
    requires forall i, j :: 0 <= i < j < |offsets| ==> offsets[i].0 != offsets[j].0
    ensures Cursor.EntriesFrom(RegionOf(ix, offsets), Some({channel}), 0) ==
            if Lists(offsets, channel) && channel in ix then ix[channel] else []
    decreases |offsets|
  {
    if offsets == [] {
      assert RegionOf(ix, offsets) == [];
    } else {
      hide Lists, RegionOf, Cursor.EntriesFrom;
      RegionOfChannel(ix, offsets[..|offsets| - 1], channel);
      ListsMore(offsets, channel);
      RegionMore(ix, offsets, channel);
      if channel in ix {
        assert [] + ix[channel] == ix[channel] + [] == ix[channel];
      }
    }
  }

  lemma {:induction false} OffsetsChannels(ix: IndexMap, channels: seq<nat>, base: nat)
    ensures |IndexOffsets(ix, channels, base)| == |channels|
    ensures forall k :: 0 <= k < |channels| ==> IndexOffsets(ix, channels, base)[k].0 == channels[k]
    decreases |channels|
  {
    hide IndexBytes;
    if channels != [] {
      OffsetsChannels(ix, channels[..|channels| - 1], base);
    }
  }

  lemma OffsetsOf(o: Options, es: seq<Entry>, at: nat)
    requires o.emitMessageIndexes
    ensures IndexIn(o, es, at).indexOffsets == IndexOffsets(IndexOf(es), Ascending(IndexOf(es).Keys), at + |ChunkBytes(o, es)|)
  {
    hide IndexOf, IndexOffsets, Ascending, BoundsOf, Trailer, Raw, ChunkBytes;
  }

  lemma FoundForChannel(o: Options, es: seq<Entry>, at: nat, channel: nat)
    requires o.emitMessageIndexes && forall c :: c in IndexOf(es) ==> c < U16
    ensures Cursor.EntriesFrom(RegionOf(IndexOf(es), IndexIn(o, es, at).indexOffsets), Some({channel}), 0) ==
            if channel in IndexOf(es) then IndexOf(es)[channel] else []
  {
    hide *;
    var ix := IndexOf(es);
    var channels := Ascending(ix.Keys);
    var offsets := IndexIn(o, es, at).indexOffsets;
    OffsetsOf(o, es, at);
    OffsetsChannels(ix, channels, at + |ChunkBytes(o, es)|);
    RegionOfChannel(ix, offsets, channel);
    if channel in ix {
      var k :| 0 <= k < |channels| && channels[k] == channel;
      ListsAt(offsets, k);
    }
  }

  lemma ListsAt(offsets: IntMap, k: nat)
    requires k < |offsets|
    ensures Lists(offsets, offsets[k].0)
  {
  }

  /** What the reader finds behind a chunk index agrees with the chunk's messages. */
  lemma ChunkIsIndexed(o: Options, es: seq<Entry>, at: nat, regions: Cursor.Regions, contents: Scan.Contents)
    requires o.emitMessageIndexes && forall c :: c in IndexOf(es) ==> c < U16
    requires at in regions && regions[at] == RegionOf(IndexOf(es), IndexIn(o, es, at).indexOffsets)
    requires at in contents && contents[at] == MessagesAt(es)
    ensures Scan.Indexed(IndexIn(o, es, at), regions, contents)
  {
    hide ChunkIndexFor, IndexIn, IndexOf, MessagesAt, Cursor.EntriesFrom, RegionOf;
    var c := IndexIn(o, es, at);
    ChunkIndexTimes(o, es, at);
    forall channel: nat
      ensures multiset(Cursor.EntriesFrom(Cursor.RegionOf(c, regions), Some({channel}), 0)) ==
              multiset(Scan.EntriesAbout(Scan.MessagesOf(c, contents), Some({channel})))
    {
      FoundForChannel(o, es, at, channel);
      var found := Cursor.EntriesFrom(Cursor.RegionOf(c, regions), Some({channel}), 0);
      forall e: Cursor.Entry
        ensures multiset(found)[e] == multiset(Scan.EntriesAbout(MessagesAt(es), Some({channel})))[e]
      {
        IndexCounts(es, channel, e);
      }
    }
  }

  /** Entries of any channels are entries of messages, so the chunk index bounds them. */
  lemma ChunkIsBounded(o: Options, es: seq<Entry>, at: nat, run: Reader.Read, contents: Scan.Contents)
    requires o.emitMessageIndexes && forall c :: c in IndexOf(es) ==> c < U16
    requires at in run.regions && run.regions[at] == RegionOf(IndexOf(es), IndexIn(o, es, at).indexOffsets)
    requires at in contents && contents[at] == MessagesAt(es)
    ensures Reader.Bounded(run, IndexIn(o, es, at)) && !Cursor.Unindexed(IndexIn(o, es, at))
  {
    hide BoundsOf, Raw, IndexOf, MessagesAt, Scan.Indexed, Reader.Entries, ChunkIndexFor, IndexIn, RegionOf;
    var c := IndexIn(o, es, at);
    ChunkIsIndexed(o, es, at, run.regions, contents);
    BoundsAreOrdered(es);
    TrailerHasRoom(o, es, at);
    ChunkIndexTimes(o, es, at);
    RegionIsListed(o, es, at, run.regions);
    forall e | e in Reader.Entries(run, c) ensures c.startTime <= e.0 <= c.endTime {
      Scan.RelevantOnce(run, c, contents, e);
      assert e in multiset(Reader.Entries(run, c));
      MessageBounds(es, e.1);
    }
  }

  lemma RegionIsListed(o: Options, es: seq<Entry>, at: nat, regions: Cursor.Regions)
    requires o.emitMessageIndexes && forall c :: c in IndexOf(es) ==> c < U16
    requires at in regions && regions[at] == RegionOf(IndexOf(es), IndexIn(o, es, at).indexOffsets)
    ensures Cursor.Listed(IndexIn(o, es, at), Cursor.RegionOf(IndexIn(o, es, at), regions))
  {
    hide IndexOf, ChunkIndexFor, IndexIn;
    ChunkIndexTimes(o, es, at);
    TrailerHasRoom(o, es, at);
  }

  lemma ChunkIndexTimes(o: Options, es: seq<Entry>, at: nat)
    ensures var c := IndexIn(o, es, at);
            c.startTime == StartTime(BoundsOf(es)) && c.endTime == EndTime(BoundsOf(es)) && c.chunkOffset == at
  {
  }

  /** The region has a length if there is anything in it; without it the chunk has no messages. */
  lemma TrailerHasRoom(o: Options, es: seq<Entry>, at: nat)
    requires o.emitMessageIndexes && forall c :: c in IndexOf(es) ==> c < U16
    ensures var c := IndexIn(o, es, at);
            (c.indexOffsets != [] ==> c.indexLength > 0) && (c.indexLength == 0 ==> IndexOf(es) == map[])
  {
    var ix := IndexOf(es);
    var channels := Ascending(ix.Keys);
    OffsetsChannels(ix, channels, at + |ChunkBytes(o, es)|);
    hide BoundsOf, Raw, ChunkBytes, IndexOf, IndexOffsets, EntryBytes, Ascending;
    assert forall k :: k in ix ==> k in channels;
    if channels != [] {
      EntryBytesLength(IndexRecord(ix, channels[|channels| - 1]));
      assert |IndexBytes(ix, channels)| > 0;
    }
  }

  // ---------- without message indexes ----------

  lemma {:induction false} LatestIsWritten(es: seq<Entry>) returns (x: nat)
    requires BoundsOf(es).Some?
    ensures x in MessagesAt(es) && MessagesAt(es)[x].logTime == BoundsOf(es).value.1
    decreases |es|
  {
    hide Raw;
    var n := |es| - 1;
    if IsMessage(es[n]) && (BoundsOf(es[..n]).None? || es[n].record.logTime > BoundsOf(es[..n]).value.1) {
      x := |Raw(es[..n])|;
    } else {
      x := LatestIsWritten(es[..n]);
      if x == |Raw(es[..n])| {
        MessageBounds(es[..n], x);
      }
    }
  }

  lemma NoTrailer(o: Options, es: seq<Entry>, at: nat)
    requires !o.emitMessageIndexes
    ensures IndexIn(o, es, at).indexLength == 0
  {
    hide BoundsOf, Raw, ChunkBytes, IndexOf, AscendingBelow;
    NoneAscend(U16);
    assert ChunkIndexes(o, es).Keys == {};
  }

  /** With message indexes off the reader refuses exactly the chunks that hold a message of another
      log time than zero. */
  lemma RefusedWithoutIndexes(o: Options, es: seq<Entry>, at: nat)
    requires !o.emitMessageIndexes
    ensures Cursor.Unindexed(IndexIn(o, es, at)) <==> exists x :: x in MessagesAt(es) && MessagesAt(es)[x].logTime != 0
  {
    hide BoundsOf, Raw, ChunkIndexFor, IndexIn, IndexOf, MessagesAt;
    ChunkIndexTimes(o, es, at);
    NoTrailer(o, es, at);
    BoundsAreOrdered(es);
    if BoundsOf(es).Some? && BoundsOf(es).value.1 != 0 {
      var x := LatestIsWritten(es);
    }
    if x :| x in MessagesAt(es) && MessagesAt(es)[x].logTime != 0 {
      MessageBounds(es, x);
    }
  }

  // ---------- the whole file ----------

  ghost predicate ChannelsFit(items: seq<Item>) {
    forall i, c :: 0 <= i < |items| && items[i].ChunkOf? && c in IndexOf(items[i].entries) ==> c < U16
  }

  /** For every chunk index the maps hold what belongs to its chunk. */
  lemma {:induction false} IndexOfChunk(o: Options, items: seq<Item>, k: nat) returns (i: nat)
    requires k < |IndexesIn(o, items)|
    ensures i < |items| && items[i].ChunkOf?
    ensures var es, at := items[i].entries, |Layout(o, items[..i])|;
            IndexesIn(o, items)[k] == IndexIn(o, es, at) &&
            at in RegionsIn(o, items) && RegionsIn(o, items)[at] == RegionOf(IndexOf(es), IndexIn(o, es, at).indexOffsets) &&
            at in ContentsIn(o, items) && ContentsIn(o, items)[at] == MessagesAt(es)
    decreases |items|
  {
    hide Layout, IndexIn, IndexOf, MessagesAt;
    var n := |items| - 1;
    if k < |IndexesIn(o, items[..n])| {
      i := IndexOfChunk(o, items[..n], k);
      assert items[..n][..i] == items[..i];
      OffsetsAscend(o, items[..n]);
    } else {
      i := n;
    }
  }

  /** A file meets what the reader relies on, for every read. */
  lemma FileIsReliable(o: Options, items: seq<Item>, run: Reader.Read)
    requires o.emitMessageIndexes && ChannelsFit(items) && run.regions == RegionsIn(o, items)
    ensures var cs := IndexesIn(o, items);
            Merge.Distinct(cs) && Merge.AllBounded(run, cs) && Scan.AllIndexed(cs, run.regions, ContentsIn(o, items)) &&
            TsMessages.NoneUnindexed(cs)
  {
    hide Layout, IndexIn, IndexOf, MessagesAt, IndexesIn, RegionsIn, ContentsIn, Reader.Bounded, Scan.Indexed, Cursor.Unindexed, RegionOf;
    var cs := IndexesIn(o, items);
    OffsetsAscend(o, items);
    forall k | 0 <= k < |cs|
      ensures Reader.Bounded(run, cs[k]) && Scan.Indexed(cs[k], run.regions, ContentsIn(o, items)) && !Cursor.Unindexed(cs[k])
    {
      var i := IndexOfChunk(o, items, k);
      ChunkIsIndexed(o, items[i].entries, |Layout(o, items[..i])|, run.regions, ContentsIn(o, items));
      ChunkIsBounded(o, items[i].entries, |Layout(o, items[..i])|, run, ContentsIn(o, items));
    }
  }

  ghost predicate InFileOrder(cs: seq<R.ChunkIndexRecord>) {
    forall i, j :: 0 <= i < j < |cs| ==> cs[i].chunkOffset < cs[j].chunkOffset
  }

  /** Chunk indexes in file order stay so when some are left out, and never tie against it. */
  lemma {:induction false} KeptAscends(cs: seq<R.ChunkIndexRecord>, p: R.ChunkIndexRecord -> bool)
    requires InFileOrder(cs)
    ensures InFileOrder(Kept(cs, p))
    decreases |cs|
  {
    if cs != [] {
      var n := |cs| - 1;
      KeptAscends(cs[..n], p);
      var kept := Kept(cs[..n], p);
      forall i | 0 <= i < |kept| ensures kept[i].chunkOffset < cs[n].chunkOffset {
        KeptMember(cs[..n], p, i);
        var j :| 0 <= j < n && cs[..n][j] == kept[i];
        assert cs[j] == kept[i];
      }
    }
  }

  lemma KeptIsReliable(o: Options, items: seq<Item>, run: Reader.Read, p: R.ChunkIndexRecord -> bool)
    requires o.emitMessageIndexes && ChannelsFit(items) && run.regions == RegionsIn(o, items)
    ensures var kept := Kept(IndexesIn(o, items), p);
            Merge.AllBounded(run, kept) && Merge.TiesInFileOrder(kept) && TsMessages.NoneUnindexed(kept)
  {
    hide IndexesIn, RegionsIn, Reader.Bounded, Cursor.Unindexed, Reader.Holds, Scan.AllIndexed;
    var cs := IndexesIn(o, items);
    FileIsReliable(o, items, run);
    OffsetsAscend(o, items);
    KeptAscends(cs, p);
    var kept := Kept(cs, p);
    forall i | 0 <= i < |kept| ensures Reader.Bounded(run, kept[i]) && !Cursor.Unindexed(kept[i]) {
      KeptMember(cs, p, i);
    }
  }

  /** The channels of chunks in a sane state are 16-bit IDs. */
  lemma SaneChannelsFit(s: State)
    requires Sane(s)
    ensures ChannelsFit(s.items)
  {
    hide Sane, IndexOf;
    forall i, c | 0 <= i < |s.items| && s.items[i].ChunkOf? && c in IndexOf(s.items[i].entries) ensures c < U16 {
      IndexedIsKnown(s, i, c);
    }
  }

  // ---------- the maps are what the file holds ----------

  /** Message indexes that were read one after the other can be read one by one. */
  lemma {:induction false} OneByOne(mcap: bytes, known: set<nat>, offsets: IntMap, k: nat)
    requires IndexesAt(mcap, known, offsets).Got? && k < |offsets|
    requires forall i, j :: 0 <= i < j < |offsets| ==> offsets[i].0 != offsets[j].0
    ensures offsets[k].0 in IndexesAt(mcap, known, offsets).value
    ensures IndexAt(mcap, offsets[k].1, offsets[k].0) == Got(IndexesAt(mcap, known, offsets).value[offsets[k].0])
    decreases |offsets|
  {
    hide IndexAt;
    var n := |offsets| - 1;
    if k < n {
      OneByOne(mcap, known, offsets[..n], k);
      assert offsets[k].0 != offsets[n].0;
    }
  }

  lemma {:induction false} MessageOrigin(es: seq<Entry>, x: nat) returns (j: nat)
    requires x in MessagesAt(es)
    ensures j < |es| && IsMessage(es[j]) && x == |Raw(es[..j])| && MessagesAt(es)[x] == es[j].record
    decreases |es|
  {
    hide Raw;
    var n := |es| - 1;
    if IsMessage(es[n]) && x == |Raw(es[..n])| {
      j := n;
    } else {
      j := MessageOrigin(es[..n], x);
      assert es[..n][..j] == es[..j];
    }
  }

  ghost predicate AllChunksFit(o: Options, items: seq<Item>) {
    forall i :: 0 <= i < |items| && items[i].ChunkOf? ==> ChunkFits(o, items[i].entries)
  }

  /** Every message index record and every message the maps hold is read from the bytes of the
      file, at the place the maps say. */
  lemma FoundInFile(o: Options, s: State, rest: bytes, k: nat)
    requires Sound(o.codec) && Sane(s) && o.emitMessageIndexes && AllChunksFit(o, s.items) && k < |IndexesIn(o, s.items)|
    ensures var file, c, known := Layout(o, s.items) + rest, IndexesIn(o, s.items)[k], s.channels.all.Keys;
            k < |ChunkIndexList(o, s.items)| && c == ChunkIndexList(o, s.items)[k] &&
            c.chunkOffset in RegionsIn(o, s.items) && c.chunkOffset in ContentsIn(o, s.items) &&
            (forall r :: r in RegionsIn(o, s.items)[c.chunkOffset] ==> IndexAt(file, r.at, r.channel) == Got(r.entries)) &&
            forall x :: x in ContentsIn(o, s.items)[c.chunkOffset] ==>
              Sought(o.codec, file, known, c, x) == Got(ContentsIn(o, s.items)[c.chunkOffset][x])
  {
    hide *;
    IndexesAreListed(o, s.items);
    var i := IndexOfChunk(o, s.items, k);
    var es, at, known := s.items[i].entries, |Layout(o, s.items[..i])|, s.channels.all.Keys;
    ChunkIndexTimes(o, es, at);
    ThatChunkFits(o, s.items, i);
    SaneChannelsFit(s);
    forall channel | channel in IndexOf(es) ensures channel in known && channel < U16 {
      IndexedIsKnown(s, i, channel);
    }
    RegionIsInFile(o, s.items, rest, i, known);
    ContentsAreInFile(o, s.items, rest, i, known);
  }

  lemma ThatChunkFits(o: Options, items: seq<Item>, i: nat)
    requires AllChunksFit(o, items) && i < |items| && items[i].ChunkOf?
    ensures ChunkFits(o, items[i].entries)
  {
  }

  lemma RegionIsInFile(o: Options, items: seq<Item>, rest: bytes, i: nat, known: set<nat>)
    requires i < |items| && items[i].ChunkOf? && ChunkFits(o, items[i].entries) && o.emitMessageIndexes
    requires forall c :: c in IndexOf(items[i].entries) ==> c in known && c < U16
    ensures var file, es, at := Layout(o, items) + rest, items[i].entries, |Layout(o, items[..i])|;
            forall r :: r in RegionOf(IndexOf(es), IndexIn(o, es, at).indexOffsets) ==> IndexAt(file, r.at, r.channel) == Got(r.entries)
  {
    hide *;
    var file, es, at := Layout(o, items) + rest, items[i].entries, |Layout(o, items[..i])|;
    var ix := IndexOf(es);
    var offsets := IndexIn(o, es, at).indexOffsets;
    OffsetsResolve(o, items, rest, i, known);
    IndexInIs(o, es, at);
    OffsetsOf(o, es, at);
    OffsetsChannels(ix, Ascending(ix.Keys), at + |ChunkBytes(o, es)|);
    RegionReadOneByOne(file, known, ix, offsets);
  }

  lemma IndexInIs(o: Options, es: seq<Entry>, at: nat)
    ensures IndexIn(o, es, at) == ChunkIndexFor(o, es, at)
  {
  }

  lemma RegionReadOneByOne(file: bytes, known: set<nat>, ix: IndexMap, offsets: IntMap)
    requires IndexesAt(file, known, offsets) == Got(ix)
    requires forall i, j :: 0 <= i < j < |offsets| ==> offsets[i].0 != offsets[j].0
    ensures forall r :: r in RegionOf(ix, offsets) ==> IndexAt(file, r.at, r.channel) == Got(r.entries)
  {
    hide IndexesAt, IndexAt;
    var region := RegionOf(ix, offsets);
    forall r | r in region ensures IndexAt(file, r.at, r.channel) == Got(r.entries) {
      var k :| 0 <= k < |region| && region[k] == r;
      OneByOne(file, known, offsets, k);
    }
  }

  lemma ContentsAreInFile(o: Options, items: seq<Item>, rest: bytes, i: nat, known: set<nat>)
    requires Sound(o.codec) && i < |items| && items[i].ChunkOf? && ChunkFits(o, items[i].entries)
    requires forall c :: c in IndexOf(items[i].entries) ==> c in known
    ensures var file, es, at := Layout(o, items) + rest, items[i].entries, |Layout(o, items[..i])|;
            forall x :: x in MessagesAt(es) ==> Sought(o.codec, file, known, IndexIn(o, es, at), x) == Got(MessagesAt(es)[x])
  {
    hide Layout, ChunkIndexFor, IndexOf, ChunkFits, MessagesAt, Sought, Raw, Sound;
    var file, es, at := Layout(o, items) + rest, items[i].entries, |Layout(o, items[..i])|;
    forall x | x in MessagesAt(es) ensures Sought(o.codec, file, known, IndexIn(o, es, at), x) == Got(MessagesAt(es)[x]) {
      var j := MessageOrigin(es, x);
      MessageIsIndexed(es, j);
      EveryMessageIsFound(o, items, rest, known, i, j);
    }
  }

  // ---------- every read ----------

  /** The read a call with a time range stands for. */
  function ReadOf(o: Options, items: seq<Item>, channels: map<nat, R.ChannelRecord>, topics: Option<set<bytes>>, start: int, end: int,
                  reverse: bool): Reader.Read
  {
    Reader.Read(RegionsIn(o, items), if topics.None? then None else Some(set id | id in channels && channels[id].topic in topics.value),
                Some(start), Some(end), reverse)
  }

  /** For any run of the writer with message indexes, and any read: the reader succeeds, and yields
      the sort, by log time and place, of exactly the messages that the run has written into chunks
      and that are asked for. */
  method ReadWhatWasWritten(o: Options, ghost calls: seq<Call>, items: seq<Item>, channels: map<nat, R.ChannelRecord>,
                            readFullRange: bool, topics: Option<set<bytes>>, start: int, end: int, reverse: bool)
    returns (ok: bool, out: seq<R.MessageRecord>)
    requires o.emitMessageIndexes && Sane(Initial(o)) && Safe(o, Initial(o), calls)
    requires items == Closed(Run(o, Initial(o), calls)).items
    ensures ok
    ensures var read, cs, contents := ReadOf(o, items, channels, topics, start, end, reverse), IndexesIn(o, items), ContentsIn(o, items);
            forall scan :: multiset(scan) == multiset(Scan.WantedHits(read, cs, contents)) ==>
              out == Mapped(Sort(scan, Reader.HitKey(reverse)), Scan.MessageAt(contents))
  {
    hide *;
    RunLeavesFit(o, calls);
    var cs, contents := IndexesIn(o, items), ContentsIn(o, items);
    var reader := new TsMessages.McapIndexedReader(cs, channels, RegionsIn(o, items), contents, readFullRange);
    ghost var read := reader.ReadFor(topics, Some(start), Some(end), reverse).value;
    RelevantIs(reader, topics);
    ReadIs(o, items, channels, topics, start, end, reverse, read);
    FileIsReliable(o, items, read);
    reader.LookedIs(read, start, end);
    KeptIsReliable(o, items, read, Scan.OverlapsRange(start, end));
    ghost var hits, first, peak;
    ok, out, hits, first, peak := reader.ReadMessages(topics, Some(start), Some(end), reverse);
    TsMessages.OutIsMapped(out, hits, contents);
  }

  lemma ReadIs(o: Options, items: seq<Item>, channels: map<nat, R.ChannelRecord>, topics: Option<set<bytes>>, start: int, end: int,
               reverse: bool, read: Reader.Read)
    requires read.regions == RegionsIn(o, items) && read.start == Some(start) && read.end == Some(end) && read.reverse == reverse
    requires read.relevant == if topics.None? then None else Some(set id | id in channels && channels[id].topic in topics.value)
    ensures read == ReadOf(o, items, channels, topics, start, end, reverse)
  {
    hide RegionsIn;
    if topics.Some? {
      assert ReadOf(o, items, channels, topics, start, end, reverse).relevant.value == read.relevant.value;
    }
  }

  lemma RelevantIs(reader: TsMessages.McapIndexedReader, topics: Option<set<bytes>>)
    ensures reader.RelevantChannels(topics) ==
            if topics.None? then None else Some(set id | id in reader.channels && reader.channels[id].topic in topics.value)
  {
    if topics.Some? {
      var found := reader.RelevantChannels(topics).value;
      assert found == set id | id in reader.channels && reader.channels[id].topic in topics.value;
    }
  }

  lemma RunLeavesFit(o: Options, calls: seq<Call>)
    requires Sane(Initial(o)) && Safe(o, Initial(o), calls)
    ensures ChannelsFit(Closed(Run(o, Initial(o), calls)).items)
  {
    hide Run, Safe, ChannelsFit, Registry.Valid, AllRegistered, SchemasKnown, AllEntries;
    var t := Run(o, Initial(o), calls);
    ClosedKeepsEntries(t);
    SaneChannelsFit(Closed(t));
  }
}
