/** What the TypeScript reads amount to in terms of the chunks' messages: what a scan of all
    chunks that filters by channel and time would find, and nothing lost by leaving chunks out. */
module TsScan {
  import opened Bytes
  import opened Sorting
  import opened TsCursor
  import opened TsReader
  import opened TsMerge
  import R = Records

  /** The messages of every chunk, by the chunk's offset and the offset in the chunk. */
  type Contents = map<nat, map<nat, R.MessageRecord>>

  function MessagesOf(c: R.ChunkIndexRecord, contents: Contents): map<nat, R.MessageRecord> {
    if c.chunkOffset in contents then contents[c.chunkOffset] else map[]
  }

  /** A parsed message of the indexed log time stands at a hit's place. */
  predicate Readable(h: Hit, contents: Contents) {
    h.chunk in contents && h.offset in contents[h.chunk] && contents[h.chunk][h.offset].logTime == h.time
  }

  /** The message at a hit's place. */
  function MessageAt(contents: Contents): Hit -> R.MessageRecord {
    (h: Hit) =>
      if h.chunk in contents && h.offset in contents[h.chunk] then contents[h.chunk][h.offset] else R.Message(0, 0, 0, 0, [])
  }

  predicate Overlaps(c: R.ChunkIndexRecord, start: int, end: int) {
    c.startTime <= end && c.endTime >= start
  }

  function OverlapsRange(start: int, end: int): R.ChunkIndexRecord -> bool {
    (c: R.ChunkIndexRecord) => Overlaps(c, start, end)
  }

  // ---------- chunks that are left out ----------

  /** A chunk that has something to give overlaps the range. */
  lemma GivingOverlaps(run: Read, c: R.ChunkIndexRecord, start: int, end: int)
    requires Bounded(run, c) && run.start == Some(start) && run.end == Some(end) && OrderedIn(run, c) != []
    ensures Overlaps(c, start, end)
  {
    OrderedAreEntries(run, c);
    hide OrderedIn, Entries;
    var e := OrderedIn(run, c)[0];
    assert e in Entries(run, c) && InRange(run.start, run.end)(e);
  }

  lemma OutsideHoldsNothing(run: Read, c: R.ChunkIndexRecord, start: int, end: int)
    requires Bounded(run, c) && run.start == Some(start) && run.end == Some(end) && !Overlaps(c, start, end)
    ensures ChunkHits(run, c) == []
  {
    hide OrderedIn, Bounded;
    if OrderedIn(run, c) != [] {
      GivingOverlaps(run, c, start, end);
    }
  }

  /** Leaving out the chunks that do not overlap the time range changes nothing. */
  lemma {:induction false} PruningChangesNothing(run: Read, cs: seq<R.ChunkIndexRecord>, start: int, end: int)
    requires AllBounded(run, cs) && run.start == Some(start) && run.end == Some(end)
    ensures AllHits(run, Kept(cs, OverlapsRange(start, end))) == AllHits(run, cs)
    decreases |cs|
  {
    hide Bounded, ChunkHits;
    if cs != [] {
      var n := |cs| - 1;
      PruningChangesNothing(run, cs[..n], start, end);
      var kept := Kept(cs[..n], OverlapsRange(start, end));
      if Overlaps(cs[n], start, end) {
        assert (kept + [cs[n]])[..|kept|] == kept;
      } else {
        OutsideHoldsNothing(run, cs[n], start, end);
        assert AllHits(run, cs[..n]) + [] == AllHits(run, cs[..n]);
      }
    }
  }

  // ---------- the scan ----------

  /** The index entries the messages of the relevant channels ought to have. */
  function EntriesAbout(messages: map<nat, R.MessageRecord>, relevant: Option<set<nat>>): set<Entry> {
    set o | o in messages && IsRelevant(messages[o].messageChannel, relevant) :: (messages[o].logTime, o)
  }

  /** Each channel's message indexes list exactly its messages in the chunk, each once. */
  ghost predicate Indexed(c: R.ChunkIndexRecord, regions: Regions, contents: Contents) {
    && c.chunkOffset in contents
    && forall channel: nat ::
         multiset(EntriesFrom(RegionOf(c, regions), Some({channel}), 0)) ==
         multiset(EntriesAbout(MessagesOf(c, contents), Some({channel})))
  }

  ghost predicate AllIndexed(cs: seq<R.ChunkIndexRecord>, regions: Regions, contents: Contents) {
    forall i :: 0 <= i < |cs| ==> Indexed(cs[i], regions, contents)
  }

  /** A message of a relevant channel in the closed time range. */
  predicate Asked(run: Read, m: R.MessageRecord) {
    IsRelevant(m.messageChannel, run.relevant) && InRange(run.start, run.end)((m.logTime, 0))
  }

  /** The messages of one chunk that are asked for. */
  function WantedOf(run: Read, c: R.ChunkIndexRecord, contents: Contents): set<Hit> {
    var messages := MessagesOf(c, contents);
    set o | o in messages && Asked(run, messages[o]) :: Hit(messages[o].logTime, c.chunkOffset, o)
  }

  /** The messages of all chunks that are asked for. */
  function WantedHits(run: Read, cs: seq<R.ChunkIndexRecord>, contents: Contents): set<Hit> {
    set i, h | 0 <= i < |cs| && h in WantedOf(run, cs[i], contents) :: h
  }

  // ---------- counting ----------

  lemma {:induction false} CountRelevant(region: seq<IndexRecord>, relevant: Option<set<nat>>, channel: nat, e: Entry)
    requires forall other: nat :: other != channel ==> e !in EntriesFrom(region, Some({other}), 0)
    ensures multiset(EntriesFrom(region, relevant, 0))[e] ==
            if IsRelevant(channel, relevant) then multiset(EntriesFrom(region, Some({channel}), 0))[e] else 0
    decreases |region|
  {
    if region != [] {
      var n := |region| - 1;
      var its := region[n].channel;
      forall other: nat | other != channel ensures e !in EntriesFrom(region[..n], Some({other}), 0) {
        assert e !in EntriesFrom(region, Some({other}), 0);
      }
      CountRelevant(region[..n], relevant, channel, e);
      if its != channel {
        assert e !in EntriesFrom(region, Some({its}), 0);
        assert e !in region[n].entries;
      }
    }
  }

  /** The relevant entries are those of the messages of relevant channels, each once. */
  lemma RelevantOnce(run: Read, c: R.ChunkIndexRecord, contents: Contents, e: Entry)
    requires Indexed(c, run.regions, contents)
    ensures multiset(Entries(run, c))[e] == if e in EntriesAbout(MessagesOf(c, contents), run.relevant) then 1 else 0
  {
    var region, messages := RegionOf(c, run.regions), MessagesOf(c, contents);
    var channel := if e.1 in messages then messages[e.1].messageChannel else 0;
    hide EntriesFrom;
    forall other: nat | other != channel ensures e !in EntriesFrom(region, Some({other}), 0) {
      assert e !in EntriesAbout(messages, Some({other}));
      assert e !in multiset(EntriesFrom(region, Some({other}), 0));
    }
    CountRelevant(region, run.relevant, channel, e);
    assert multiset(EntriesFrom(region, Some({channel}), 0)) == multiset(EntriesAbout(messages, Some({channel})));
  }

  lemma {:induction false} KeptCounts<T>(s: seq<T>, p: T -> bool, x: T)
    ensures multiset(Kept(s, p))[x] == if p(x) then multiset(s)[x] else 0
    decreases |s|
  {
    if s != [] {
      KeptCounts(s[..|s| - 1], p, x);
      assert s == s[..|s| - 1] + [s[|s| - 1]];
    }
  }

  lemma {:induction false} MappedCounts(s: seq<Entry>, chunk: nat, h: Hit)
    ensures multiset(Mapped(s, HitOf(chunk)))[h] == if h.chunk == chunk then multiset(s)[(h.time, h.offset)] else 0
    decreases |s|
  {
    if s != [] {
      var n := |s| - 1;
      MappedCounts(s[..n], chunk, h);
      assert s == s[..n] + [s[n]];
      assert Mapped(s, HitOf(chunk)) == Mapped(s[..n], HitOf(chunk)) + [HitOf(chunk)(s[n])];
    }
  }

  lemma OrderedPermutes(run: Read, c: R.ChunkIndexRecord)
    ensures multiset(OrderedIn(run, c)) == multiset(Kept(Entries(run, c), InRange(run.start, run.end)))
  {
    var kept := Kept(Entries(run, c), InRange(run.start, run.end));
    OrderedIs(c, run.regions, run.relevant, run.start, run.end, run.reverse);
    assert OrderedIn(run, c) == Turned(Sort(kept, EntryKey()), run.reverse);
    hide Sort, Kept, Entries, InRange, EntriesFrom, OrderedIn;
    SortPermutes(kept, EntryKey());
    ReversePermutes(Sort(kept, EntryKey()));
  }

  lemma {:induction false} ReversePermutes<T>(s: seq<T>)
    ensures multiset(Reverse(s)) == multiset(s)
    decreases |s|
  {
    if s == [] {
      assert Reverse(s) == [];
    } else {
      var init, last := s[..|s| - 1], s[|s| - 1];
      assert Reverse(s) == [last] + Reverse(init);
      assert s == init + [last];
      ReversePermutes(init);
    }
  }

  /** A chunk gives each message that is asked for once. */
  lemma ChunkGivesWanted(run: Read, c: R.ChunkIndexRecord, contents: Contents, h: Hit)
    requires Indexed(c, run.regions, contents)
    ensures multiset(ChunkHits(run, c))[h] == if h in WantedOf(run, c, contents) then 1 else 0
  {
    var e := (h.time, h.offset);
    MappedCounts(OrderedIn(run, c), c.chunkOffset, h);
    OrderedPermutes(run, c);
    KeptCounts(Entries(run, c), InRange(run.start, run.end), e);
    RelevantOnce(run, c, contents, e);
    hide OrderedIn, Entries, Kept, Indexed;
    assert InRange(run.start, run.end)(e) == InRange(run.start, run.end)((h.time, 0));
  }

  lemma {:induction false} AllGiveWanted(run: Read, cs: seq<R.ChunkIndexRecord>, contents: Contents, h: Hit)
    requires AllIndexed(cs, run.regions, contents) && Distinct(cs)
    ensures multiset(AllHits(run, cs))[h] == if h in WantedHits(run, cs, contents) then 1 else 0
    decreases |cs|
  {
    hide ChunkHits, Indexed, Asked;
    if cs != [] {
      var n := |cs| - 1;
      AllGiveWanted(run, cs[..n], contents, h);
      ChunkGivesWanted(run, cs[n], contents, h);
      assert h in WantedHits(run, cs, contents) <==> h in WantedHits(run, cs[..n], contents) || h in WantedOf(run, cs[n], contents) by {
        WantedOfMore(run, cs, contents, h);
      }
      if h in WantedHits(run, cs[..n], contents) {
        var i :| 0 <= i < n && h in WantedOf(run, cs[..n][i], contents);
        assert cs[i].chunkOffset != cs[n].chunkOffset;
      }
    }
  }

  lemma WantedOfMore(run: Read, cs: seq<R.ChunkIndexRecord>, contents: Contents, h: Hit)
    requires cs != []
    ensures var n := |cs| - 1;
            h in WantedHits(run, cs, contents) <==> h in WantedHits(run, cs[..n], contents) || h in WantedOf(run, cs[n], contents)
  {
    hide WantedOf;
    var n := |cs| - 1;
    if h in WantedHits(run, cs, contents) {
      var i :| 0 <= i < |cs| && h in WantedOf(run, cs[i], contents);
      assert i < n ==> cs[..n][i] == cs[i];
    }
    if h in WantedHits(run, cs[..n], contents) {
      var i :| 0 <= i < n && h in WantedOf(run, cs[..n][i], contents);
      assert cs[i] == cs[..n][i];
    }
  }

  lemma AllAreWanted(run: Read, cs: seq<R.ChunkIndexRecord>, contents: Contents)
    requires Distinct(cs) && AllIndexed(cs, run.regions, contents)
    ensures multiset(AllHits(run, cs)) == multiset(WantedHits(run, cs, contents))
  {
    hide *;
    forall h: Hit ensures multiset(AllHits(run, cs))[h] == multiset(WantedHits(run, cs, contents))[h] {
      AllGiveWanted(run, cs, contents, h);
    }
  }

  lemma WantedAreReadable(run: Read, cs: seq<R.ChunkIndexRecord>, contents: Contents)
    ensures forall h :: h in WantedHits(run, cs, contents) ==> Readable(h, contents)
  {
  }

  lemma SortOfAnyScan(hits: seq<Hit>, scan: seq<Hit>, reverse: bool)
    requires multiset(scan) == multiset(hits)
    ensures Sort(hits, HitKey(reverse)) == Sort(scan, HitKey(reverse))
  {
    hide Sort;
    SortPermutes(hits, HitKey(reverse));
    SortSorts(hits, HitKey(reverse));
    SortedIsSort(Sort(hits, HitKey(reverse)), scan, HitKey(reverse));
  }

  /** What a read gives, and in which order, is settled by the messages in the chunks: it is the
      sort of whatever lists each message that is asked for once. All of it can be parsed. */
  lemma GivesTheWanted(run: Read, cs: seq<R.ChunkIndexRecord>, contents: Contents, start: int, end: int)
    requires AllBounded(run, cs) && Distinct(cs) && AllIndexed(cs, run.regions, contents)
    requires run.start == Some(start) && run.end == Some(end)
    ensures var hits := AllHits(run, Kept(cs, OverlapsRange(start, end)));
            multiset(hits) == multiset(WantedHits(run, cs, contents)) && (forall h :: h in hits ==> Readable(h, contents)) &&
            forall scan :: multiset(scan) == multiset(WantedHits(run, cs, contents)) ==>
              Sort(hits, HitKey(run.reverse)) == Sort(scan, HitKey(run.reverse))
  {
    hide *;
    PruningChangesNothing(run, cs, start, end);
    var hits := AllHits(run, Kept(cs, OverlapsRange(start, end)));
    AllAreWanted(run, cs, contents);
    WantedAreReadable(run, cs, contents);
    forall h | h in hits ensures Readable(h, contents) {
      assert h in multiset(hits);
      assert h in WantedHits(run, cs, contents);
    }
    forall scan | multiset(scan) == multiset(WantedHits(run, cs, contents))
      ensures Sort(hits, HitKey(run.reverse)) == Sort(scan, HitKey(run.reverse))
    {
      SortOfAnyScan(hits, scan, run.reverse);
    }
  }
}
