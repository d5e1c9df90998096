/** The merge of the TypeScript reader as a function of the heap: which message comes next, when
    the heap is rearranged and when it is left alone. Rearranged, it yields the sort of all
    messages. Left alone, it reads chunk after chunk, and that is the same sort exactly if no
    two chunks that touch in time stand against their order in the file. */
module TsMerge {
  import opened Bytes
  import opened Sorting
  import opened TsCursor
  import opened TsReader
  import R = Records

  /** The hits of one chunk, in reading order. */
  function ChunkHits(run: Read, c: R.ChunkIndexRecord): seq<Hit> {
    Mapped(OrderedIn(run, c), HitOf(c.chunkOffset))
  }

  function AllHits(run: Read, cs: seq<R.ChunkIndexRecord>): seq<Hit>
    decreases |cs|
  {
    if cs == [] then [] else AllHits(run, cs[..|cs| - 1]) + ChunkHits(run, cs[|cs| - 1])
  }

  /** Every chunk starts no earlier than the one before it ends. */
  ghost predicate InSequence(cs: seq<R.ChunkIndexRecord>) {
    forall i :: 0 < i < |cs| ==> cs[i].startTime >= cs[i - 1].endTime
  }

  /** Chunks that touch in time are listed in file order, unless both are a single moment. */
  ghost predicate TiesInFileOrder(cs: seq<R.ChunkIndexRecord>) {
    forall i, j :: 0 <= i < j < |cs| && Holds(cs[i]) && Holds(cs[j]) && cs[i].endTime == cs[j].startTime ==>
      cs[i].chunkOffset < cs[j].chunkOffset || cs[i].startTime == cs[j].endTime
  }

  ghost predicate Distinct(cs: seq<R.ChunkIndexRecord>) {
    forall i, j :: 0 <= i < j < |cs| ==> cs[i].chunkOffset != cs[j].chunkOffset
  }

  ghost predicate AllBounded(run: Read, cs: seq<R.ChunkIndexRecord>) {
    forall i :: 0 <= i < |cs| ==> Bounded(run, cs[i])
  }

  // ---------- the merge ----------

  /** Loaded cursors on the heap have more to give. */
  ghost predicate Active(vs: seq<View>) {
    forall i :: 0 <= i < |vs| && vs[i].loaded.Some? ==> vs[i].next < |vs[i].loaded.value|
  }

  function Loaded(run: Read, v: View): View {
    v.(loaded := Some(OrderedIn(run, v.index)))
  }

  /** The heap after the top cursor was loaded: put back, or removed if it has nothing to give. */
  function AfterLoading(run: Read, vs: seq<View>): seq<View>
    requires vs != []
  {
    Topped(if OrderedIn(run, vs[0].index) != [] then vs[0 := Loaded(run, vs[0])] else vs[1..])
  }

  /** The heap after the top cursor gave a message: left alone, put back, or removed. */
  function AfterGiving(vs: seq<View>, alone: bool): seq<View>
    requires vs != [] && vs[0].loaded.Some?
  {
    if vs[0].next + 1 < |vs[0].loaded.value| then
      if alone then vs[0 := Advanced(vs[0])] else Topped(vs[0 := Advanced(vs[0])])
    else Topped(vs[1..])
  }

  lemma LoadingSteps(run: Read, vs: seq<View>)
    requires AllOk(run, vs) && Active(vs) && vs != [] && vs[0].loaded.None?
    ensures var ws := AfterLoading(run, vs);
            AllOk(run, ws) && Active(ws) && Least(ws) && Bag(run, ws) == Bag(run, vs) && Unloaded(ws) < Unloaded(vs) &&
            (Separated(vs) ==> Separated(ws))
  {
    hide Bag, Bounded, OrderedIn, Unloaded, Precedes, CompareViews, Topped, Holds;
    LoadKeepsBag(run, vs);
    var t := vs[0 := Loaded(run, vs[0])];
    var base := if OrderedIn(run, vs[0].index) != [] then t else vs[1..];
    if OrderedIn(run, vs[0].index) == [] {
      RemoveKeepsBag(run, t);
      assert t[1..] == vs[1..];
    }
    assert Separated(vs) ==> Separated(base);
    ToppedKeeps(run, base);
    ToppedStaysActive(base);
  }

  lemma ToppedStaysActive(vs: seq<View>)
    requires Active(vs)
    ensures Active(Topped(vs))
  {
    hide LeastAt;
  }

  lemma GivingSteps(run: Read, vs: seq<View>, alone: bool)
    requires AllOk(run, vs) && Active(vs) && vs != [] && vs[0].loaded.Some?
    ensures var ws := AfterGiving(vs, alone);
            AllOk(run, ws) && Active(ws) && Bag(run, vs) == Bag(run, ws) + multiset{Front(vs[0])} &&
            Unloaded(ws) == Unloaded(vs) && (Separated(vs) ==> Separated(ws)) &&
            (!alone || (Leads(vs) && Separated(vs)) ==> Leads(ws))
  {
    hide Bag, Bounded, OrderedIn, Unloaded, Precedes, CompareViews, Topped, Holds, Coming;
    FrontIsNext(run, vs[0]);
    var t := vs[0 := Advanced(vs[0])];
    BagOfTop(run, vs, Advanced(vs[0]));
    var more := vs[0].next + 1 < |vs[0].loaded.value|;
    if !more {
      RemoveKeepsBag(run, t);
      assert t[1..] == vs[1..];
    }
    var base := if more then t else vs[1..];
    if alone && more {
      if Leads(vs) && Separated(vs) {
        TopHolds(run, vs[0]);
        TopStaysAhead(run, vs, Advanced(vs[0]));
      }
    } else {
      ToppedKeeps(run, base);
      ToppedStaysActive(base);
      LeastLeads(Topped(base));
    }
  }

  lemma TopHolds(run: Read, v: View)
    requires ViewOk(run, v) && v.loaded.Some? && v.next < |v.loaded.value|
    ensures Holds(v.index)
  {
    hide OrderedIn, Bounded, Holds;
    var tail := OrderedIn(run, v.index)[v.next..];
    assert Coming(run, v)[0] in Coming(run, v);
    GivingHolds(run, v, Coming(run, v)[0]);
  }

  /** The messages a heap gives until it is empty. With `alone` it is not rearranged after a
      message, only after loading and removing. */
  ghost function Drain(run: Read, vs: seq<View>, alone: bool): seq<Hit>
    requires AllOk(run, vs) && Active(vs)
    decreases Unloaded(vs), |Bag(run, vs)|
  {
    if vs == [] then []
    else if vs[0].loaded.None? then
      LoadingSteps(run, vs);
      Drain(run, AfterLoading(run, vs), alone)
    else
      GivingSteps(run, vs, alone);
      [Front(vs[0])] + Drain(run, AfterGiving(vs, alone), alone)
  }

  /** Whatever is done with the heap, every message comes out once. */
  lemma {:induction false} DrainGivesAll(run: Read, vs: seq<View>, alone: bool)
    requires AllOk(run, vs) && Active(vs)
    ensures multiset(Drain(run, vs, alone)) == Bag(run, vs)
    decreases Unloaded(vs), |Bag(run, vs)|
  {
    hide ViewOk, Bag, Unloaded, AfterLoading, AfterGiving, Active;
    if vs == [] {
      NothingComing(run);
    } else if vs[0].loaded.None? {
      LoadingSteps(run, vs);
      DrainGivesAll(run, AfterLoading(run, vs), alone);
    } else {
      GivingSteps(run, vs, alone);
      DrainGivesAll(run, AfterGiving(vs, alone), alone);
    }
  }

  lemma NothingComing(run: Read)
    ensures Bag(run, []) == multiset{}
  {
  }

  /** Messages come out in order if the heap is rearranged after each one, or need not be. */
  lemma {:induction false} DrainIsSorted(run: Read, vs: seq<View>, alone: bool)
    requires AllOk(run, vs) && Active(vs) && Leads(vs) && (alone ==> Separated(vs))
    ensures Sorted(Drain(run, vs, alone), HitKey(run.reverse))
    decreases Unloaded(vs), |Bag(run, vs)|
  {
    hide ViewOk, Bag, Unloaded, AfterLoading, AfterGiving, Leads, Separated, Least, HitKey;
    if vs == [] {
    } else if vs[0].loaded.None? {
      LoadingSteps(run, vs);
      LeastLeads(AfterLoading(run, vs));
      DrainIsSorted(run, AfterLoading(run, vs), alone);
    } else {
      GivingSteps(run, vs, alone);
      var ws := AfterGiving(vs, alone);
      DrainIsSorted(run, ws, alone);
      DrainGivesAll(run, ws, alone);
      FrontIsFirst(run, vs);
      var rest := Drain(run, ws, alone);
      forall k | 0 <= k < |rest| ensures HitKey(run.reverse)(Front(vs[0])).AtMost(HitKey(run.reverse)(rest[k])) {
        assert rest[k] in multiset(rest);
      }
      SortedFront(Front(vs[0]), rest, HitKey(run.reverse));
    }
  }

  lemma SortedFront<T>(x: T, s: seq<T>, key: T -> Key)
    requires Sorted(s, key) && forall k :: 0 <= k < |s| ==> key(x).AtMost(key(s[k]))
    ensures Sorted([x] + s, key)
  {
    var t := [x] + s;
    forall i, j | 0 <= i < j < |t| ensures key(t[i]).AtMost(key(t[j])) {
      assert t[j] == s[j - 1];
      if i > 0 {
        assert t[i] == s[i - 1];
      }
    }
  }

  // ---------- the heap at the start ----------

  function FreshView(reverse: bool): R.ChunkIndexRecord -> View {
    (c: R.ChunkIndexRecord) => View(c, reverse, None, 0)
  }

  /** A heap of unread cursors, one for each chunk. */
  ghost predicate HeapOf(run: Read, cs: seq<R.ChunkIndexRecord>, vs: seq<View>) {
    && multiset(vs) == multiset(Mapped(cs, FreshView(run.reverse)))
    && Least(vs) && AllOk(run, vs) && Active(vs)
  }

  lemma FreshOk(run: Read, cs: seq<R.ChunkIndexRecord>)
    requires AllBounded(run, cs) && Distinct(cs)
    ensures AllOk(run, Mapped(cs, FreshView(run.reverse)))
  {
    hide Bounded, OrderedIn;
  }

  lemma {:induction false} FreshBag(run: Read, cs: seq<R.ChunkIndexRecord>)
    requires AllBounded(run, cs) && AllOk(run, Mapped(cs, FreshView(run.reverse)))
    ensures Bag(run, Mapped(cs, FreshView(run.reverse))) == multiset(AllHits(run, cs))
    decreases |cs|
  {
    hide Bounded, OrderedIn;
    if cs != [] {
      var n := |cs| - 1;
      var vs := Mapped(cs, FreshView(run.reverse));
      assert vs[..n] == Mapped(cs[..n], FreshView(run.reverse));
      FreshBag(run, cs[..n]);
      assert OrderedIn(run, cs[n])[0..] == OrderedIn(run, cs[n]);
      assert Coming(run, vs[n]) == ChunkHits(run, cs[n]);
    }
  }

  lemma FreshPermuted(run: Read, cs: seq<R.ChunkIndexRecord>, vs: seq<View>)
    requires AllBounded(run, cs) && Distinct(cs) && multiset(vs) == multiset(Mapped(cs, FreshView(run.reverse)))
    ensures AllOk(run, vs) && Active(vs) && Bag(run, vs) == multiset(AllHits(run, cs))
    ensures forall i :: 0 <= i < |vs| ==> vs[i].loaded.None? && vs[i].index in cs
  {
    hide ViewOk, Bag, AllHits, AllBounded;
    var unread := Mapped(cs, FreshView(run.reverse));
    FreshOk(run, cs);
    ViewsDistinct(cs, vs, run.reverse);
    forall i | 0 <= i < |vs| ensures ViewOk(run, vs[i]) && vs[i].index in cs && vs[i].loaded.None? {
      assert vs[i] in multiset(unread);
      var k :| 0 <= k < |unread| && unread[k] == vs[i];
    }
    BagPermutes(run, vs, unread);
    FreshBag(run, cs);
  }

  /** There is a heap for every list of chunks. */
  lemma SomeHeap(run: Read, cs: seq<R.ChunkIndexRecord>) returns (vs: seq<View>)
    requires AllBounded(run, cs) && Distinct(cs)
    ensures HeapOf(run, cs, vs)
  {
    hide Least, AllBounded, AllOk;
    var unread := Mapped(cs, FreshView(run.reverse));
    FreshOk(run, cs);
    ToppedKeeps(run, unread);
    ToppedPermutes(unread);
    vs := Topped(unread);
    FreshPermuted(run, cs, vs);
  }

  /** Chunks in sequence are separated, wherever they are in the list. */
  lemma {:induction false} SequenceAscends(cs: seq<R.ChunkIndexRecord>, i: nat, j: nat)
    requires InSequence(cs) && i < j < |cs| && forall k :: 0 <= k < |cs| ==> cs[k].startTime <= cs[k].endTime
    ensures cs[i].endTime <= cs[j].startTime
    decreases j - i
  {
    if i + 1 < j {
      SequenceAscends(cs, i, j - 1);
    }
  }

  lemma FreshSeparated(run: Read, cs: seq<R.ChunkIndexRecord>, vs: seq<View>)
    requires AllBounded(run, cs) && Distinct(cs) && InSequence(cs) && TiesInFileOrder(cs)
    requires multiset(vs) == multiset(Mapped(cs, FreshView(run.reverse)))
    ensures Separated(vs)
  {
    hide OrderedIn, Entries, Holds;
    var unread := Mapped(cs, FreshView(run.reverse));
    ViewsDistinct(cs, vs, run.reverse);
    forall i, j | 0 <= i < |vs| && 0 <= j < |vs| && i != j && Holds(vs[i].index) && Holds(vs[j].index)
      ensures Precedes(vs[i].index, vs[j].index) || Precedes(vs[j].index, vs[i].index)
    {
      assert vs[i] in multiset(unread) && vs[j] in multiset(unread);
      var a :| 0 <= a < |unread| && unread[a] == vs[i];
      var b :| 0 <= b < |unread| && unread[b] == vs[j];
      assert vs[i].index.chunkOffset != vs[j].index.chunkOffset;
      if a < b {
        SequenceAscends(cs, a, b);
      } else {
        SequenceAscends(cs, b, a);
      }
    }
  }

  /** The whole merge yields the sort of all messages by time, chunk and offset, also when the
      heap is left alone, if the chunks allow it. */
  lemma DrainIsSort(run: Read, cs: seq<R.ChunkIndexRecord>, vs: seq<View>, alone: bool)
    requires AllBounded(run, cs) && Distinct(cs) && HeapOf(run, cs, vs)
    requires alone ==> InSequence(cs) && TiesInFileOrder(cs)
    ensures Drain(run, vs, alone) == Sort(AllHits(run, cs), HitKey(run.reverse))
  {
    hide AllOk, Active, Bag, AllHits, Sort, Least, InSequence, TiesInFileOrder, AllBounded, Drain;
    FreshPermuted(run, cs, vs);
    LeastLeads(vs);
    if alone {
      FreshSeparated(run, cs, vs);
    }
    DrainIsSorted(run, vs, alone);
    DrainGivesAll(run, vs, alone);
    SortedIsSort(Drain(run, vs, alone), AllHits(run, cs), HitKey(run.reverse));
  }

  // ---------- left alone, chunks are read in one piece ----------

  /** No chunk's messages are interrupted by those of another. */
  ghost predicate InPieces(hits: seq<Hit>) {
    forall x, y, z :: 0 <= x < y < z < |hits| && hits[x].chunk == hits[z].chunk ==> hits[y].chunk == hits[x].chunk
  }

  lemma {:induction false} TopInOnePiece(run: Read, vs: seq<View>)
    requires AllOk(run, vs) && Active(vs) && vs != [] && vs[0].loaded.Some?
    ensures vs[0].next <= |OrderedIn(run, vs[0].index)|
    ensures AllOk(run, Topped(vs[1..])) && Active(Topped(vs[1..]))
    ensures Unloaded(Topped(vs[1..])) <= Unloaded(vs) && |Bag(run, Topped(vs[1..]))| < |Bag(run, vs)|
    ensures Drain(run, vs, true) == Coming(run, vs[0]) + Drain(run, Topped(vs[1..]), true)
    decreases |vs[0].loaded.value| - vs[0].next
  {
    hide Bounded, OrderedIn, Unloaded, Bag, Topped, Active, Coming, ViewOk, Drain;
    ActiveTop(vs);
    FrontIsNext(run, vs[0]);
    GivingSteps(run, vs, true);
    DrainGives(run, vs);
    var ws := AfterGiving(vs, true);
    if vs[0].next + 1 < |vs[0].loaded.value| {
      TopInOnePiece(run, ws);
      assert ws[1..] == vs[1..];
      var more := Drain(run, Topped(vs[1..]), true);
      assert [Front(vs[0])] + (Coming(run, ws[0]) + more) == ([Front(vs[0])] + Coming(run, ws[0])) + more;
    } else {
      NothingMore(run, Advanced(vs[0]));
      assert [Front(vs[0])] + [] == [Front(vs[0])];
    }
  }

  lemma DrainGives(run: Read, vs: seq<View>)
    requires AllOk(run, vs) && Active(vs) && vs != [] && vs[0].loaded.Some?
    ensures AllOk(run, AfterGiving(vs, true)) && Active(AfterGiving(vs, true))
    ensures Drain(run, vs, true) == [Front(vs[0])] + Drain(run, AfterGiving(vs, true), true)
  {
    hide AllOk, Active, AfterGiving;
    GivingSteps(run, vs, true);
  }

  lemma NothingMore(run: Read, v: View)
    requires ViewOk(run, v) && v.loaded.Some? && v.next == |v.loaded.value|
    ensures v.next <= |OrderedIn(run, v.index)| && Coming(run, v) == []
  {
    hide OrderedIn, Bounded;
  }

  lemma ActiveTop(vs: seq<View>)
    requires Active(vs) && vs != [] && vs[0].loaded.Some?
    ensures vs[0].next < |vs[0].loaded.value|
  {
  }

  lemma {:induction false} AloneInPieces(run: Read, vs: seq<View>)
    requires AllOk(run, vs) && Active(vs)
    ensures InPieces(Drain(run, vs, true))
    decreases Unloaded(vs), |Bag(run, vs)|
  {
    hide ViewOk, Bag, Unloaded, AfterLoading, Active, OrderedIn, Topped, InPieces;
    if vs == [] {
      NoPieces();
    } else if vs[0].loaded.None? {
      LoadingSteps(run, vs);
      AloneInPieces(run, AfterLoading(run, vs));
    } else {
      TopInOnePiece(run, vs);
      var rest := Topped(vs[1..]);
      AloneInPieces(run, rest);
      forall h | h in Drain(run, rest, true) ensures h.chunk != vs[0].index.chunkOffset {
        OthersAreOthers(run, vs, h);
      }
      OnePieceMore(Coming(run, vs[0]), Drain(run, rest, true), vs[0].index.chunkOffset);
    }
  }

  lemma NoPieces()
    ensures InPieces([])
  {
  }

  lemma OthersAreOthers(run: Read, vs: seq<View>, h: Hit)
    requires AllOk(run, vs) && Active(vs) && vs != []
    requires AllOk(run, Topped(vs[1..])) && Active(Topped(vs[1..])) && h in Drain(run, Topped(vs[1..]), true)
    ensures h.chunk != vs[0].index.chunkOffset
  {
    hide ViewOk, Bag, Unloaded, OrderedIn, LeastAt, Drain;
    var rest := Topped(vs[1..]);
    DrainGivesAll(run, rest, true);
    assert h in multiset(Drain(run, rest, true));
    var i := BagOrigin(run, rest, h);
    ToppedPermutes(vs[1..]);
    assert rest[i] in multiset(vs[1..]);
    var k :| 0 <= k < |vs[1..]| && vs[1..][k] == rest[i];
    assert vs[k + 1] == rest[i];
  }

  lemma OnePieceMore(a: seq<Hit>, b: seq<Hit>, chunk: nat)
    requires InPieces(b) && (forall i :: 0 <= i < |a| ==> a[i].chunk == chunk) && forall h :: h in b ==> h.chunk != chunk
    ensures InPieces(a + b)
  {
    var s := a + b;
    forall x, y, z | 0 <= x < y < z < |s| && s[x].chunk == s[z].chunk ensures s[y].chunk == s[x].chunk {
      assert |a| <= z ==> s[z] == b[z - |a|] && b[z - |a|] in b;
      if |a| <= x {
        assert s[x] == b[x - |a|] && s[y] == b[y - |a|];
      }
    }
  }

  // ---------- when leaving the heap alone is right ----------

  lemma OrderedMembers(run: Read, c: R.ChunkIndexRecord, e: Entry)
    ensures e in OrderedIn(run, c) <==> e in Entries(run, c) && InRange(run.start, run.end)(e)
  {
    var kept := Kept(Entries(run, c), InRange(run.start, run.end));
    KeptMembers(Entries(run, c), InRange(run.start, run.end));
    var sorted := Sort(kept, EntryKey());
    SortPermutes(kept, EntryKey());
    OrderedIs(c, run.regions, run.relevant, run.start, run.end, run.reverse);
    assert OrderedIn(run, c) == Turned(sorted, run.reverse);
    hide Sort, Kept, Entries, InRange, EntriesFrom, OrderedIn;
    assert e in kept <==> e in multiset(kept);
    assert e in sorted <==> e in multiset(sorted);
    assert e in Reverse(sorted) <==> e in sorted by { ReverseMembers(sorted, e); }
  }

  lemma ReverseMembers<T>(s: seq<T>, x: T)
    ensures x in Reverse(s) <==> x in s
  {
    if x in s {
      var i :| 0 <= i < |s| && s[i] == x;
      assert Reverse(s)[|s| - 1 - i] == x;
    }
  }

  lemma {:induction false} HitOfChunk(run: Read, cs: seq<R.ChunkIndexRecord>, i: nat, e: Entry)
    requires i < |cs| && e in OrderedIn(run, cs[i])
    ensures Hit(e.0, cs[i].chunkOffset, e.1) in AllHits(run, cs)
    decreases |cs|
  {
    hide OrderedIn;
    var n := |cs| - 1;
    if i < n {
      HitOfChunk(run, cs[..n], i, e);
    } else {
      var k :| 0 <= k < |OrderedIn(run, cs[n])| && OrderedIn(run, cs[n])[k] == e;
      assert ChunkHits(run, cs[n])[k] == Hit(e.0, cs[n].chunkOffset, e.1);
    }
  }

  /** A read in whose range all the chunks are. */
  ghost predicate Reads(run: Read, cs: seq<R.ChunkIndexRecord>, reverse: bool) {
    && run.reverse == reverse && run.start.Some? && run.end.Some?
    && AllBounded(run, cs)
    && forall i :: 0 <= i < |cs| ==> cs[i].startTime <= run.end.value && cs[i].endTime >= run.start.value
  }

  /** Messages at both ends of two chunks, and none elsewhere. */
  function BothEnds(a: R.ChunkIndexRecord): seq<IndexRecord>
    requires a.indexOffsets != []
  {
    [IndexRecord(a.indexOffsets[0].1, a.indexOffsets[0].0, [(a.startTime, 0), (a.endTime, 1)])]
  }

  function EndsOfTwo(cs: seq<R.ChunkIndexRecord>, i: nat, j: nat, reverse: bool): Read
    requires i < j < |cs| && Holds(cs[i]) && Holds(cs[j])
  {
    Read(map[cs[i].chunkOffset := BothEnds(cs[i]), cs[j].chunkOffset := BothEnds(cs[j])], None,
         Some(cs[0].startTime), Some(cs[|cs| - 1].endTime), reverse)
  }

  lemma EntriesAtEnds(run: Read, a: R.ChunkIndexRecord)
    requires a.indexOffsets != [] && RegionOf(a, run.regions) == BothEnds(a) && run.relevant.None?
    ensures Entries(run, a) == [(a.startTime, 0), (a.endTime, 1)]
  {
    var region := BothEnds(a);
    assert region[..|region| - 1] == [];
    assert EntriesFrom([], run.relevant, 0) == [];
    assert EntriesFrom(region, run.relevant, 0) == [] + region[0].entries;
  }

  lemma EndsAreRead(cs: seq<R.ChunkIndexRecord>, i: nat, j: nat, reverse: bool)
    requires Distinct(cs) && InSequence(cs) && (forall k :: 0 <= k < |cs| ==> cs[k].startTime <= cs[k].endTime)
    requires i < j < |cs| && Holds(cs[i]) && Holds(cs[j])
    ensures var run := EndsOfTwo(cs, i, j, reverse);
            Reads(run, cs, reverse) &&
            forall k :: k == i || k == j ==>
              (cs[k].startTime, 0) in OrderedIn(run, cs[k]) && (cs[k].endTime, 1) in OrderedIn(run, cs[k])
  {
    hide OrderedIn, Entries;
    var run := EndsOfTwo(cs, i, j, reverse);
    var n := |cs| - 1;
    forall k | 0 <= k < |cs| ensures cs[0].startTime <= cs[k].startTime && cs[k].endTime <= cs[n].endTime {
      if k > 0 {
        SequenceAscends(cs, 0, k);
      }
      if k < n {
        SequenceAscends(cs, k, n);
      }
    }
    forall k | 0 <= k < |cs| ensures Bounded(run, cs[k]) {
      if k == i || k == j {
        assert cs[i].chunkOffset != cs[j].chunkOffset;
        assert RegionOf(cs[k], run.regions) == BothEnds(cs[k]);
        EntriesAtEnds(run, cs[k]);
        assert cs[k].indexOffsets[0] in cs[k].indexOffsets;
      } else {
        NoEntries(run, cs[k]);
      }
    }
    forall k | k == i || k == j
      ensures (cs[k].startTime, 0) in OrderedIn(run, cs[k]) && (cs[k].endTime, 1) in OrderedIn(run, cs[k])
    {
      assert cs[i].chunkOffset != cs[j].chunkOffset;
      EntriesAtEnds(run, cs[k]);
      OrderedMembers(run, cs[k], (cs[k].startTime, 0));
      OrderedMembers(run, cs[k], (cs[k].endTime, 1));
    }
  }

  lemma NoEntries(run: Read, c: R.ChunkIndexRecord)
    requires c.chunkOffset !in run.regions
    ensures Entries(run, c) == []
  {
  }

  /** In a sorted list whose chunks come in one piece, nothing stands between two messages of
      one chunk but messages of that chunk. */
  lemma NothingBetween(hits: seq<Hit>, a: Hit, b: Hit, c: Hit, reverse: bool)
    requires Sorted(hits, HitKey(reverse)) && InPieces(hits) && a in hits && b in hits && c in hits && a.chunk == c.chunk
    requires HitKey(false)(a).AtMost(HitKey(false)(b)) && HitKey(false)(b).AtMost(HitKey(false)(c))
    ensures b.chunk == a.chunk
  {
    hide Sorted, HitKey;
    var x :| 0 <= x < |hits| && hits[x] == a;
    var y :| 0 <= y < |hits| && hits[y] == b;
    var z :| 0 <= z < |hits| && hits[z] == c;
    if b != a && b != c {
      PositionsFollow(hits, x, y, reverse);
      PositionsFollow(hits, y, z, reverse);
    }
  }

  lemma PositionsFollow(hits: seq<Hit>, i: nat, j: nat, reverse: bool)
    requires Sorted(hits, HitKey(reverse)) && i < |hits| && j < |hits| && hits[i] != hits[j]
    requires HitKey(false)(hits[i]).AtMost(HitKey(false)(hits[j]))
    ensures if reverse then j < i else i < j
  {
  }

  /** Two chunks against their order in the file: a read that leaves the heap alone goes wrong. */
  lemma AgainstFileOrderGoesWrong(cs: seq<R.ChunkIndexRecord>, i: nat, j: nat, run: Read, vs: seq<View>)
    requires Distinct(cs) && InSequence(cs) && (forall k :: 0 <= k < |cs| ==> cs[k].startTime <= cs[k].endTime)
    requires i < j < |cs| && Holds(cs[i]) && Holds(cs[j]) && cs[i].endTime == cs[j].startTime
    requires cs[i].chunkOffset >= cs[j].chunkOffset && cs[i].startTime != cs[j].endTime
    requires run == EndsOfTwo(cs, i, j, run.reverse) && HeapOf(run, cs, vs)
    ensures Drain(run, vs, true) != Sort(AllHits(run, cs), HitKey(run.reverse))
  {
    hide AllOk, Active, AllHits, Sort, Least, OrderedIn, AllBounded, Drain, HitKey, InSequence;
    EndsAreRead(cs, i, j, run.reverse);
    var a, b := cs[i], cs[j];
    assert a.chunkOffset != b.chunkOffset;
    var s := Sort(AllHits(run, cs), HitKey(run.reverse));
    SortSorts(AllHits(run, cs), HitKey(run.reverse));
    HitOfSort(run, cs, i, (a.startTime, 0));
    HitOfSort(run, cs, i, (a.endTime, 1));
    HitOfSort(run, cs, j, (b.startTime, 0));
    HitOfSort(run, cs, j, (b.endTime, 1));
    if Drain(run, vs, true) == s {
      AloneInPieces(run, vs);
      KeysOfEnds(a, b);
      if a.startTime < a.endTime {
        NothingBetween(s, Hit(a.startTime, a.chunkOffset, 0), Hit(b.startTime, b.chunkOffset, 0),
                       Hit(a.endTime, a.chunkOffset, 1), run.reverse);
      } else {
        NothingBetween(s, Hit(b.startTime, b.chunkOffset, 0), Hit(a.endTime, a.chunkOffset, 1),
                       Hit(b.endTime, b.chunkOffset, 1), run.reverse);
      }
    }
  }

  lemma KeysOfEnds(a: R.ChunkIndexRecord, b: R.ChunkIndexRecord)
    requires a.endTime == b.startTime && b.chunkOffset < a.chunkOffset
    ensures a.startTime < a.endTime ==>
              HitKey(false)(Hit(a.startTime, a.chunkOffset, 0)).AtMost(HitKey(false)(Hit(b.startTime, b.chunkOffset, 0)))
    ensures HitKey(false)(Hit(b.startTime, b.chunkOffset, 0)).AtMost(HitKey(false)(Hit(a.endTime, a.chunkOffset, 1)))
    ensures b.startTime < b.endTime ==>
              HitKey(false)(Hit(a.endTime, a.chunkOffset, 1)).AtMost(HitKey(false)(Hit(b.endTime, b.chunkOffset, 1)))
  {
  }

  lemma HitOfSort(run: Read, cs: seq<R.ChunkIndexRecord>, i: nat, e: Entry)
    requires i < |cs| && e in OrderedIn(run, cs[i])
    ensures Hit(e.0, cs[i].chunkOffset, e.1) in Sort(AllHits(run, cs), HitKey(run.reverse))
  {
    hide AllHits, OrderedIn, Sort, HitKey;
    HitOfChunk(run, cs, i, e);
    SortPermutes(AllHits(run, cs), HitKey(run.reverse));
    assert Hit(e.0, cs[i].chunkOffset, e.1) in multiset(AllHits(run, cs));
  }

  /** Not rearranging the heap while chunks are in sequence is right for every content of the
      chunks if and only if chunks that touch in time are listed in file order, or are both a
      single moment. */
  lemma AloneIsRightExactly(cs: seq<R.ChunkIndexRecord>, reverse: bool)
    requires Distinct(cs) && InSequence(cs) && forall k :: 0 <= k < |cs| ==> cs[k].startTime <= cs[k].endTime
    ensures TiesInFileOrder(cs) <==>
              forall run, vs :: Reads(run, cs, reverse) && HeapOf(run, cs, vs) ==>
                Drain(run, vs, true) == Sort(AllHits(run, cs), HitKey(reverse))
  {
    hide AllHits, Sort, Drain, OrderedIn, AllOk, Active, InSequence, Distinct, Least;
    if TiesInFileOrder(cs) {
      forall run, vs | Reads(run, cs, reverse) && HeapOf(run, cs, vs)
        ensures Drain(run, vs, true) == Sort(AllHits(run, cs), HitKey(reverse))
      {
        DrainIsSort(run, cs, vs, true);
      }
    } else {
      var i, j :| 0 <= i < j < |cs| && Holds(cs[i]) && Holds(cs[j]) && cs[i].endTime == cs[j].startTime &&
        !(cs[i].chunkOffset < cs[j].chunkOffset || cs[i].startTime == cs[j].endTime);
      var run := EndsOfTwo(cs, i, j, reverse);
      EndsAreRead(cs, i, j, reverse);
      var vs := SomeHeap(run, cs);
      AgainstFileOrderGoesWrong(cs, i, j, run, vs);
    }
  }

  // ---------- cursors of different chunks ----------

  lemma ViewsDistinct(cs: seq<R.ChunkIndexRecord>, views: seq<View>, reverse: bool)
    requires Distinct(cs) && multiset(views) == multiset(Mapped(cs, FreshView(reverse)))
    ensures forall j, k :: 0 <= j < k < |views| ==> views[j].index.chunkOffset != views[k].index.chunkOffset
  {
    var unread := Mapped(cs, FreshView(reverse));
    forall j, k | 0 <= j < k < |views| ensures views[j].index.chunkOffset != views[k].index.chunkOffset {
      assert views[j] in multiset(unread) && views[k] in multiset(unread);
      var a :| 0 <= a < |unread| && unread[a] == views[j];
      var b :| 0 <= b < |unread| && unread[b] == views[k];
      if a == b {
        TwiceInMultiset(views, j, k);
        OnceInMultiset(cs, a, reverse);
      }
    }
  }

  lemma TwiceInMultiset<T>(s: seq<T>, j: nat, k: nat)
    requires j < k < |s| && s[j] == s[k]
    ensures multiset(s)[s[j]] >= 2
  {
    assert s == s[..k] + ([s[k]] + s[k + 1..]);
    assert s[j] in multiset(s[..k]) by { assert s[..k][j] == s[j]; }
  }

  lemma OnceInMultiset(cs: seq<R.ChunkIndexRecord>, a: nat, reverse: bool)
    requires a < |cs| && Distinct(cs)
    ensures multiset(Mapped(cs, FreshView(reverse)))[Mapped(cs, FreshView(reverse))[a]] == 1
  {
    var unread := Mapped(cs, FreshView(reverse));
    var x := unread[a];
    assert unread == unread[..a] + ([x] + unread[a + 1..]);
    var front, tail := unread[..a], unread[a + 1..];
    forall i | 0 <= i < |front| ensures front[i] != x {
      assert cs[i].chunkOffset != cs[a].chunkOffset;
    }
    forall i | 0 <= i < |tail| ensures tail[i] != x {
      assert tail[i] == unread[a + 1 + i];
      assert cs[a].chunkOffset != cs[a + 1 + i].chunkOffset;
    }
  }
}
