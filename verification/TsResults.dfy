/** What the TypeScript reads amount to: exactly the wanted messages, a reverse read that mirrors
    the forward read, and reads that show why each condition is there. */
module TsResults {
  import opened Bytes
  import opened Sorting
  import opened TsCursor
  import opened TsReader
  import opened TsMerge
  import opened TsScan
  import opened TsMessages
  import R = Records

  /** The hits of a read over the listed chunks, in the order they are yielded. */
  function Yielded(run: Read, cs: seq<R.ChunkIndexRecord>): seq<Hit> {
    Sort(AllHits(run, cs), HitKey(run.reverse))
  }

  // ---------- exactly the wanted messages ----------

  /** A read yields a hit, once, exactly if the chunk at its place holds a message of its time and
      offset whose channel and time are asked for; nothing else is yielded. */
  lemma YieldsTheWanted(run: Read, cs: seq<R.ChunkIndexRecord>, contents: Contents, start: int, end: int, h: Hit)
    requires AllBounded(run, cs) && Distinct(cs) && AllIndexed(cs, run.regions, contents)
    requires run.start == Some(start) && run.end == Some(end)
    ensures multiset(Yielded(run, Kept(cs, OverlapsRange(start, end))))[h] ==
            if (exists i :: 0 <= i < |cs| && h.chunk == cs[i].chunkOffset) && h.offset in contents[h.chunk] &&
               contents[h.chunk][h.offset].logTime == h.time && start <= h.time <= end &&
               IsRelevant(contents[h.chunk][h.offset].messageChannel, run.relevant)
            then 1 else 0
    ensures Sorted(Yielded(run, Kept(cs, OverlapsRange(start, end))), HitKey(run.reverse))
  {
    hide AllHits, Sort, Kept, AllBounded, WantedHits, HitKey;
    var hits := AllHits(run, Kept(cs, OverlapsRange(start, end)));
    GivesTheWanted(run, cs, contents, start, end);
    SortPermutes(hits, HitKey(run.reverse));
    SortSorts(hits, HitKey(run.reverse));
    WantedIs(run, cs, contents, start, end, h);
  }

  lemma WantedIs(run: Read, cs: seq<R.ChunkIndexRecord>, contents: Contents, start: int, end: int, h: Hit)
    requires AllIndexed(cs, run.regions, contents) && run.start == Some(start) && run.end == Some(end)
    ensures h in WantedHits(run, cs, contents) <==>
              (exists i :: 0 <= i < |cs| && h.chunk == cs[i].chunkOffset) && h.offset in contents[h.chunk] &&
              contents[h.chunk][h.offset].logTime == h.time && start <= h.time <= end &&
              IsRelevant(contents[h.chunk][h.offset].messageChannel, run.relevant)
  {
    if i :| 0 <= i < |cs| && h.chunk == cs[i].chunkOffset {
      assert Indexed(cs[i], run.regions, contents);
      assert MessagesOf(cs[i], contents) == contents[h.chunk];
      if h.offset in contents[h.chunk] && Asked(run, contents[h.chunk][h.offset]) &&
         contents[h.chunk][h.offset].logTime == h.time {
        assert h in WantedOf(run, cs[i], contents);
      }
    }
    if j :| 0 <= j < |cs| && h in WantedOf(run, cs[j], contents) {
      assert Indexed(cs[j], run.regions, contents);
    }
  }

  // ---------- entries and hits ----------

  /** An entry of a relevant channel in the closed time range. */
  ghost predicate WantedIn(run: Read, c: R.ChunkIndexRecord, h: Hit) {
    h.chunk == c.chunkOffset && (h.time, h.offset) in Entries(run, c) && InRange(run.start, run.end)((h.time, h.offset))
  }

  lemma ChunkHitsAreWanted(run: Read, c: R.ChunkIndexRecord, h: Hit)
    ensures h in ChunkHits(run, c) <==> WantedIn(run, c, h)
  {
    var e := (h.time, h.offset);
    OrderedMembers(run, c, e);
    hide OrderedIn, Entries, InRange;
    var o, hits := OrderedIn(run, c), ChunkHits(run, c);
    if h in hits {
      var i :| 0 <= i < |hits| && hits[i] == h;
      assert o[i] == e;
    }
    if e in o && h.chunk == c.chunkOffset {
      var i :| 0 <= i < |o| && o[i] == e;
      assert hits[i] == h;
    }
  }

  lemma {:induction false} AllHitsAreWanted(run: Read, cs: seq<R.ChunkIndexRecord>, h: Hit)
    ensures h in AllHits(run, cs) <==> exists i :: 0 <= i < |cs| && WantedIn(run, cs[i], h)
    decreases |cs|
  {
    hide ChunkHits, WantedIn;
    if cs != [] {
      var n := |cs| - 1;
      AllHitsAreWanted(run, cs[..n], h);
      ChunkHitsAreWanted(run, cs[n], h);
      if i :| 0 <= i < |cs| && WantedIn(run, cs[i], h) {
        if i < n {
          assert cs[..n][i] == cs[i];
        }
      }
      if j :| 0 <= j < |cs[..n]| && WantedIn(run, cs[..n][j], h) {
        assert cs[j] == cs[..n][j];
      }
    }
  }

  // ---------- the mirror ----------

  /** The same read in the other direction. */
  function Backwards(run: Read): Read {
    run.(reverse := true)
  }

  function Forwards(run: Read): Read {
    run.(reverse := false)
  }

  lemma SameChunkHits(run: Read, c: R.ChunkIndexRecord)
    ensures multiset(ChunkHits(Backwards(run), c)) == multiset(ChunkHits(Forwards(run), c))
  {
    var kept := Kept(Entries(run, c), InRange(run.start, run.end));
    var sorted := Sort(kept, EntryKey());
    OrderedIs(c, run.regions, run.relevant, run.start, run.end, true);
    OrderedIs(c, run.regions, run.relevant, run.start, run.end, false);
    assert OrderedIn(Backwards(run), c) == Reverse(sorted);
    assert OrderedIn(Forwards(run), c) == sorted;
    hide Sort, Kept, Entries, InRange, EntriesFrom, OrderedIn;
    MappedReverse(sorted, HitOf(c.chunkOffset));
    ReversePermutes(Mapped(sorted, HitOf(c.chunkOffset)));
  }

  lemma MappedReverse(s: seq<Entry>, f: Entry -> Hit)
    ensures Mapped(Reverse(s), f) == Reverse(Mapped(s, f))
  {
  }

  lemma {:induction false} SameHits(run: Read, cs: seq<R.ChunkIndexRecord>)
    ensures multiset(AllHits(Backwards(run), cs)) == multiset(AllHits(Forwards(run), cs))
    decreases |cs|
  {
    hide ChunkHits, Backwards, Forwards;
    if cs != [] {
      SameHits(run, cs[..|cs| - 1]);
      SameChunkHits(run, cs[|cs| - 1]);
    }
  }

  /** The reverse read yields exactly the mirror image of the forward read, ties included. */
  lemma ReverseIsMirror(run: Read, cs: seq<R.ChunkIndexRecord>)
    ensures Yielded(Backwards(run), cs) == Reverse(Yielded(Forwards(run), cs))
  {
    var back, forth := AllHits(Backwards(run), cs), AllHits(Forwards(run), cs);
    SameHits(run, cs);
    hide AllHits, Sort;
    var y := Yielded(Forwards(run), cs);
    SortPermutes(forth, HitKey(false));
    SortSorts(forth, HitKey(false));
    ReversePermutes(y);
    forall i, j | 0 <= i < j < |y|
      ensures HitKey(true)(Reverse(y)[i]).AtMost(HitKey(true)(Reverse(y)[j]))
    {
      assert HitKey(false)(y[|y| - 1 - j]).AtMost(HitKey(false)(y[|y| - 1 - i]));
    }
    SortedIsSort(Reverse(y), back, HitKey(true));
  }

  // ---------- why the conditions are there ----------

  /** A chunk with messages but without message indexes, as the format allows it. */
  const UNINDEXED: R.ChunkIndexRecord := R.ChunkIndex(1, 5, 100, 50, [], 0, [], 0, 0)

  /** Nothing else is wrong with it, whatever the read: its index bounds and lists what regions
      there are, and every entry is readable, there being none. */
  lemma UnindexedIsBounded(run: Read)
    requires run.regions == map[]
    ensures Bounded(run, UNINDEXED) && Distinct([UNINDEXED]) && TiesInFileOrder([UNINDEXED])
    ensures AllHits(run, [UNINDEXED]) == [] && Unindexed(UNINDEXED)
  {
    hide AllHits, Entries;
    if AllHits(run, [UNINDEXED]) != [] {
      var h := AllHits(run, [UNINDEXED])[0];
      AllHitsAreWanted(run, [UNINDEXED], h);
      UnindexedIsEmpty(run);
    }
    UnindexedIsEmpty(run);
  }

  lemma UnindexedIsEmpty(run: Read)
    requires run.regions == map[]
    ensures Entries(run, UNINDEXED) == []
  {
  }

  /** Still every read that comes to it fails. */
  method ReadUnindexed(start: int, end: int, reverse: bool) returns (ok: bool)
    ensures ok <==> !Overlaps(UNINDEXED, start, end)
  {
    hide AllHits, Bounded, Drain, Sort, HeapOf, WantedHits, Readable;
    var reader := new McapIndexedReader([UNINDEXED], map[], map[], map[], false);
    ghost var read := reader.ReadFor(None, Some(start), Some(end), reverse).value;
    UnindexedIsBounded(read);
    KeptOfOne(UNINDEXED, OverlapsRange(start, end));
    NothingHit(read);
    ghost var hits, first, peak;
    var out;
    ok, out, hits, first, peak := reader.ReadMessages(None, Some(start), Some(end), reverse);
  }

  lemma KeptOfOne<T>(x: T, p: T -> bool)
    ensures Kept([x], p) == if p(x) then [x] else []
  {
    assert [x][..0] == [];
  }

  lemma NothingHit(run: Read)
    ensures AllHits(run, []) == []
  {
  }

  /** Two chunks listed against their order in the file, in sequence and touching at time 5. */
  const LATER: R.ChunkIndexRecord := R.ChunkIndex(1, 5, 200, 50, [(0, 250)], 60, [], 0, 0)
  const EARLIER: R.ChunkIndexRecord := R.ChunkIndex(5, 9, 100, 50, [(0, 150)], 40, [], 0, 0)
  const REGIONS: Regions :=
    map[200 := [IndexRecord(250, 0, [(1, 0), (5, 9)])], 100 := [IndexRecord(150, 0, [(5, 0)])]]
  const CONTENTS: Contents :=
    map[200 := map[0 := R.Message(0, 0, 1, 0, []), 9 := R.Message(0, 1, 5, 0, [])],
        100 := map[0 := R.Message(0, 2, 5, 0, [])]]

  lemma EntriesOfThose(run: Read)
    requires run.regions == REGIONS && run.relevant.None?
    ensures Entries(run, LATER) == [(1, 0), (5, 9)] && Entries(run, EARLIER) == [(5, 0)]
    ensures Bounded(run, LATER) && Bounded(run, EARLIER)
  {
    var a, b := RegionOf(LATER, REGIONS), RegionOf(EARLIER, REGIONS);
    assert a[..|a| - 1] == [] && b[..|b| - 1] == [];
    assert EntriesFrom([], run.relevant, 0) == [];
    assert EntriesFrom(a, run.relevant, 0) == [] + a[0].entries;
    assert EntriesFrom(b, run.relevant, 0) == [] + b[0].entries;
    assert (0, 250) in LATER.indexOffsets && (0, 150) in EARLIER.indexOffsets;
  }

  lemma HitsOfThose(run: Read)
    requires run.regions == REGIONS && run.relevant.None? && run.start == Some(1) && run.end == Some(9)
    ensures var hits := AllHits(run, [LATER, EARLIER]);
            |hits| == 3 && Hit(1, 200, 0) in hits && Hit(5, 200, 9) in hits && Hit(5, 100, 0) in hits &&
            forall h :: h in hits ==> Readable(h, CONTENTS)
  {
    hide AllHits, Entries;
    var cs := [LATER, EARLIER];
    EntriesOfThose(run);
    assert WantedIn(run, cs[0], Hit(1, 200, 0)) && WantedIn(run, cs[0], Hit(5, 200, 9)) && WantedIn(run, cs[1], Hit(5, 100, 0));
    AllHitsAreWanted(run, cs, Hit(1, 200, 0));
    AllHitsAreWanted(run, cs, Hit(5, 200, 9));
    AllHitsAreWanted(run, cs, Hit(5, 100, 0));
    forall h | h in AllHits(run, cs) ensures Readable(h, CONTENTS) {
      AllHitsAreWanted(run, cs, h);
    }
    HitsOfTwo(run, LATER, EARLIER);
    AllOrdered(run, LATER);
    AllOrdered(run, EARLIER);
  }

  lemma HitsOfTwo(run: Read, c: R.ChunkIndexRecord, d: R.ChunkIndexRecord)
    ensures |AllHits(run, [c, d])| == |OrderedIn(run, c)| + |OrderedIn(run, d)|
  {
    hide OrderedIn;
    assert [c, d][..1] == [c] && [c][..0] == [];
    assert AllHits(run, [c]) == AllHits(run, []) + ChunkHits(run, c);
  }

  /** When all entries are in range none is left out. */
  lemma AllOrdered(run: Read, c: R.ChunkIndexRecord)
    requires forall i :: 0 <= i < |Entries(run, c)| ==> InRange(run.start, run.end)(Entries(run, c)[i])
    ensures |OrderedIn(run, c)| == |Entries(run, c)|
  {
    OrderedIs(c, run.regions, run.relevant, run.start, run.end, run.reverse);
    KeptAll(Entries(run, c), InRange(run.start, run.end));
  }

  lemma KeptOfTwo<T>(x: T, y: T, p: T -> bool)
    requires p(x) && p(y)
    ensures Kept([x, y], p) == [x, y]
  {
    assert [x, y][..1] == [x];
    KeptOfOne(x, p);
  }

  lemma AgainstFileOrder()
    ensures InSequence([LATER, EARLIER]) && Distinct([LATER, EARLIER]) && !TiesInFileOrder([LATER, EARLIER])
    ensures NoneUnindexed([LATER, EARLIER])
  {
    var cs := [LATER, EARLIER];
    assert Holds(cs[0]) && Holds(cs[1]) && cs[0].endTime == cs[1].startTime;
    assert cs[0].startTime != cs[1].endTime && cs[0].chunkOffset > cs[1].chunkOffset;
  }

  /** The message that belongs in the middle: it has the time of the last one and stands before it
      in the file. */
  const MIDDLE: R.MessageRecord := R.Message(0, 2, 5, 0, [])

  lemma BelongsInTheMiddle()
    ensures Sorted([Hit(1, 200, 0), Hit(5, 100, 0), Hit(5, 200, 9)], HitKey(false))
    ensures MessageAt(CONTENTS)(Hit(5, 100, 0)) == MIDDLE
  {
  }

  /** Leaving the heap alone reads the chunk at 200 in one piece: the read succeeds, with all three
      messages, but the one that belongs in the middle is not there. */
  method ReadAgainstFileOrder() returns (ok: bool, out: seq<R.MessageRecord>)
    ensures ok && |out| == 3 && MIDDLE in out && out[1] != MIDDLE
  {
    hide AllHits, Bounded, Drain, Sort, HeapOf, WantedHits, Readable, HitKey, Sorted, InSequence, TiesInFileOrder, Distinct,
      NoneUnindexed, Unindexed, IsAt;
    var cs := [LATER, EARLIER];
    var reader := new McapIndexedReader(cs, map[], REGIONS, CONTENTS, false);
    ghost var read := reader.ReadFor(None, Some(1), Some(9), false).value;
    EntriesOfThose(read);
    HitsOfThose(read);
    AgainstFileOrder();
    KeptOfTwo(LATER, EARLIER, OverlapsRange(1, 9));
    ghost var hits, first, peak;
    ok, out, hits, first, peak := reader.ReadMessages(None, Some(1), Some(9), false);
    NotInTheMiddle(read, first, hits, out);
  }

  lemma NotInTheMiddle(run: Read, first: seq<View>, hits: seq<Hit>, out: seq<R.MessageRecord>)
    requires run.regions == REGIONS && run.relevant.None? && run.start == Some(1) && run.end == Some(9) && !run.reverse
    requires HeapOf(run, [LATER, EARLIER], first) && hits == Drain(run, first, true)
    requires |out| == |hits| && forall i :: 0 <= i < |out| ==> IsAt(out[i], hits[i], CONTENTS)
    ensures |out| == 3 && MIDDLE in out && out[1] != MIDDLE
  {
    hide AllHits, Bounded, Drain, AllOk, Active, Least, Bag, IsAt, InPieces;
    ThreeHits(run, first, hits);
    AloneInPieces(run, first);
    var j := ThreeInPieces(hits, Hit(1, 200, 0), Hit(5, 100, 0), Hit(5, 200, 9));
    MessageOfThose(out[j], hits[j]);
    MessageOfThose(out[1], hits[1]);
  }

  lemma ThreeHits(run: Read, first: seq<View>, hits: seq<Hit>)
    requires run.regions == REGIONS && run.relevant.None? && run.start == Some(1) && run.end == Some(9) && !run.reverse
    requires HeapOf(run, [LATER, EARLIER], first) && hits == Drain(run, first, true)
    ensures |hits| == 3 && Hit(1, 200, 0) in hits && Hit(5, 100, 0) in hits && Hit(5, 200, 9) in hits
  {
    hide AllHits, Bounded, Drain, AllOk, Active, Least, Bag;
    var cs := [LATER, EARLIER];
    var all := AllHits(run, cs);
    EntriesOfThose(run);
    HitsOfThose(run);
    FreshPermuted(run, cs, first);
    DrainGivesAll(run, first, true);
    SameMembers(hits, all);
  }

  lemma SameMembers<T>(a: seq<T>, b: seq<T>)
    requires multiset(a) == multiset(b)
    ensures |a| == |b| && forall x :: x in b ==> x in a
  {
    assert |multiset(a)| == |a| && |multiset(b)| == |b|;
    forall x | x in b ensures x in a {
      assert x in multiset(b);
    }
  }

  lemma ThreeInPieces(hits: seq<Hit>, a: Hit, b: Hit, c: Hit) returns (j: nat)
    requires |hits| == 3 && InPieces(hits) && a in hits && b in hits && c in hits && a != c
    requires a.chunk == c.chunk && b.chunk != a.chunk
    ensures j < 3 && hits[j] == b && (hits[1] == a || hits[1] == c)
  {
    var i :| 0 <= i < 3 && hits[i] == a;
    j :| 0 <= j < 3 && hits[j] == b;
    var k :| 0 <= k < 3 && hits[k] == c;
  }

  lemma MessageOfThose(m: R.MessageRecord, h: Hit)
    requires IsAt(m, h, CONTENTS) && (h == Hit(1, 200, 0) || h == Hit(5, 100, 0) || h == Hit(5, 200, 9))
    ensures m == MIDDLE <==> h == Hit(5, 100, 0)
  {
  }
}
