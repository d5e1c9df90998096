/** The TypeScript `McapIndexedReader` object: every read is proved against the merge as a
    function of the heap, with its exact success condition and how much is held in memory. */
module TsMessages {
  import opened Bytes
  import opened Sorting
  import opened TsCursor
  import opened TsReader
  import opened TsMerge
  import opened TsScan
  import R = Records

  /** No chunk claims messages without having message indexes. */
  ghost predicate NoneUnindexed(cs: seq<R.ChunkIndexRecord>) {
    forall i :: 0 <= i < |cs| ==> !Unindexed(cs[i])
  }

  /** Everything a read over these chunks comes to can be parsed. */
  ghost predicate AllReadable(run: Read, cs: seq<R.ChunkIndexRecord>, contents: Contents) {
    forall h :: h in AllHits(run, cs) ==> Readable(h, contents)
  }

  /** The cursors of one read. */
  ghost predicate Wired(nodes: seq<ChunkCursor>, run: Read) {
    && (forall i :: 0 <= i < |nodes| ==>
          nodes[i].relevant == run.relevant && nodes[i].start == run.start && nodes[i].end == run.end &&
          nodes[i].reverse == run.reverse)
    && (forall i, j :: 0 <= i < j < |nodes| ==> nodes[i] != nodes[j])
  }

  /** What is held uncompressed when the chunks are in sequence. */
  ghost predicate OneHeld(vs: seq<View>, cached: set<nat>) {
    && (forall k :: k in cached ==> vs != [] && k == vs[0].index.chunkOffset)
    && (vs != [] && vs[0].loaded.None? ==> cached == {})
  }

  lemma {:induction false} SubsetCounts(a: set<nat>, b: set<nat>)
    requires a <= b
    ensures |a| <= |b|
    decreases a
  {
    if a != {} {
      var x :| x in a;
      SubsetCounts(a - {x}, b - {x});
    }
  }

  /** The message at a hit's place. */
  ghost predicate IsAt(m: R.MessageRecord, h: Hit, contents: Contents) {
    Readable(h, contents) && m == contents[h.chunk][h.offset]
  }

  /** What is yielded is the messages at the hits. */
  lemma OutIsMapped(out: seq<R.MessageRecord>, hits: seq<Hit>, contents: Contents)
    requires |out| == |hits| && forall i :: 0 <= i < |out| ==> IsAt(out[i], hits[i], contents)
    ensures out == Mapped(hits, MessageAt(contents))
  {
  }

  class McapIndexedReader {
    const chunkIndexes: seq<R.ChunkIndexRecord>
    const channels: map<nat, R.ChannelRecord>
    const regions: Regions
    const contents: Contents
    const readFullRange: bool
    var messageStart: Option<nat>
    var messageEnd: Option<nat>

    /** Notes the earliest start and the latest end of the chunks. */
    constructor (chunkIndexes: seq<R.ChunkIndexRecord>, channels: map<nat, R.ChannelRecord>, regions: Regions,
                 contents: Contents, readFullRange: bool)
      ensures this.chunkIndexes == chunkIndexes && this.channels == channels && this.regions == regions
      ensures this.contents == contents && SpanHolds()
    {
      this.chunkIndexes, this.channels, this.regions := chunkIndexes, channels, regions;
      this.contents, this.readFullRange := contents, readFullRange;
      messageStart, messageEnd := None, None;
      new;
      var i := 0;
      while i < |chunkIndexes|
        invariant i <= |chunkIndexes|
        invariant messageStart.Some? <==> i > 0
        invariant messageEnd.Some? <==> i > 0
        invariant forall k :: 0 <= k < i ==> messageStart.value <= chunkIndexes[k].startTime
        invariant forall k :: 0 <= k < i ==> chunkIndexes[k].endTime <= messageEnd.value
      {
        var chunk := chunkIndexes[i];
        if messageStart.None? || chunk.startTime < messageStart.value {
          messageStart := Some(chunk.startTime);
        }
        if messageEnd.None? || chunk.endTime > messageEnd.value {
          messageEnd := Some(chunk.endTime);
        }
        i := i + 1;
      }
    }

    /** The default time range holds every chunk. */
    ghost predicate SpanHolds()
      reads this
    {
      && (messageStart.None? <==> chunkIndexes == [])
      && (messageEnd.None? <==> chunkIndexes == [])
      && forall k :: 0 <= k < |chunkIndexes| ==>
           messageStart.value <= chunkIndexes[k].startTime && chunkIndexes[k].endTime <= messageEnd.value
    }

    /** Puts a cursor for one chunk on the heap, or refuses the chunk. */
    method PushCursor(heap: Heap, run: Read, c: R.ChunkIndexRecord, ghost vs: seq<View>) returns (accepted: bool)
      requires Wired(heap.nodes, run) && Sees(heap.nodes, vs) && Comparable(vs + [View(c, run.reverse, None, 0)])
      modifies heap
      ensures accepted <==> !Unindexed(c)
      ensures accepted ==> Wired(heap.nodes, run) && Sees(heap.nodes, Topped(vs + [View(c, run.reverse, None, 0)]))
      ensures forall n :: n in heap.nodes ==> n in old(heap.nodes) || fresh(n)
    {
      hide CompareViews, Least, Comparable, Wired, LeastAt;
      var cursor := ChunkCursor.Create(c, run.relevant, run.start, run.end, run.reverse, readFullRange);
      if cursor.None? {
        return false;
      }
      WiredMore(heap.nodes, cursor.value, run);
      heap.nodes := heap.nodes + [cursor.value];
      ghost var nodes := heap.nodes;
      ghost var pushed := vs + [View(c, run.reverse, None, 0)];
      heap.Rearrange(pushed);
      WiredSwap(nodes, LeastAt(pushed, |pushed|), run);
      accepted := true;
    }

    /** Puts a cursor for every chunk that overlaps the time range on the heap, and notes
        whether these chunks are in sequence; fails if one of them has no message indexes
        although its times are not zero. */
    method PushCursors(heap: Heap, run: Read, start: int, end: int) returns (accepted: bool, ordered: bool, ghost vs: seq<View>)
      requires heap.nodes == [] && run.regions == regions && run.start == Some(start) && run.end == Some(end)
      requires Distinct(chunkIndexes)
      modifies heap
      ensures accepted <==> NoneUnindexed(Kept(chunkIndexes, OverlapsRange(start, end)))
      ensures accepted ==>
                var matching := Kept(chunkIndexes, OverlapsRange(start, end));
                multiset(vs) == multiset(Mapped(matching, FreshView(run.reverse))) && Distinct(matching) &&
                (ordered <==> InSequence(matching)) && Wired(heap.nodes, run) && Sees(heap.nodes, vs) && Least(vs)
      ensures forall n :: n in heap.nodes ==> fresh(n)
    {
      hide *;
      accepted, ordered, vs := true, true, [];
      var previous: Option<nat> := None;
      ghost var matching: seq<R.ChunkIndexRecord> := [];
      ghost var made: set<ChunkCursor> := {};
      var i := 0;
      NothingOnHeap(run);
      NothingMatched(chunkIndexes, start, end, run.reverse);
      while i < |chunkIndexes|
        invariant i <= |chunkIndexes| && Matched(chunkIndexes, i, matching, vs, start, end, run.reverse)
        invariant Wired(heap.nodes, run) && Sees(heap.nodes, vs) && Least(vs) && accepted
        invariant fresh(made) && forall n :: n in heap.nodes ==> n in made
        invariant previous == if matching == [] then None else Some(matching[|matching| - 1].endTime)
        invariant ordered <==> InSequence(matching)
        invariant NoneUnindexed(matching)
      {
        var c := chunkIndexes[i];
        if Overlaps(c, start, end) {
          MatchedMore(chunkIndexes, i, matching, vs, start, end, run.reverse);
          accepted := PushCursor(heap, run, c, vs);
          if !accepted {
            RefusesMatching(chunkIndexes, i, start, end);
            return;
          }
          PushedTop(vs, c, run.reverse);
          MatchedPushed(chunkIndexes, i, matching, vs, Topped(vs + [View(c, run.reverse, None, 0)]), start, end, run.reverse);
          vs := Topped(vs + [View(c, run.reverse, None, 0)]);
          made := made + (set n | n in heap.nodes);
          InSequenceMore(matching, c);
          if ordered && previous.Some? {
            ordered := c.startTime >= previous.value;
          }
          previous := Some(c.endTime);
          OneMoreIndexed(matching, c);
          matching := matching + [c];
        } else {
          MatchedLess(chunkIndexes, i, matching, vs, start, end, run.reverse);
        }
        i := i + 1;
      }
      AllMatched(chunkIndexes, matching, vs, start, end, run.reverse);
    }

    /** The channels whose topics are asked for. */
    function RelevantChannels(topics: Option<set<bytes>>): Option<set<nat>> {
      if topics.None? then None
      else Some(set id | id in channels && channels[id].topic in topics.value)
    }

    /** The message a cursor's next entry names, from the chunk's uncompressed data, which is
        loaded if it is not held. */
    method Fetch(cache: map<nat, map<nat, R.MessageRecord>>, chunk: nat, e: Entry)
      returns (m: Option<R.MessageRecord>, held: map<nat, map<nat, R.MessageRecord>>)
      requires forall k :: k in cache ==> k in contents && cache[k] == contents[k]
      ensures forall k :: k in held ==> k in contents && held[k] == contents[k]
      ensures held.Keys == cache.Keys || held.Keys == cache.Keys + {chunk}
      ensures m.Some? ==> IsAt(m.value, Hit(e.0, chunk, e.1), contents)
      ensures m.Some? <==> Readable(Hit(e.0, chunk, e.1), contents)
    {
      held := cache;
      if chunk !in held {
        if chunk !in contents {
          return None, held;
        }
        held := held[chunk := contents[chunk]];
      }
      if e.1 !in held[chunk] {
        return None, held;
      }
      m := if held[chunk][e.1].logTime != e.0 then None else Some(held[chunk][e.1]);
    }

    /** The top cursor is loaded, and put back, or removed if nothing in it is asked for. */
    method LoadTop(heap: Heap, run: Read, ghost vs: seq<View>) returns (ok: bool)
      requires run.regions == regions && Wired(heap.nodes, run) && Sees(heap.nodes, vs) && vs != [] && AllOk(run, vs)
      requires vs[0].loaded.None?
      modifies heap, heap.nodes[0]
      ensures ok && Wired(heap.nodes, run) && Sees(heap.nodes, AfterLoading(run, vs))
      ensures forall n :: n in heap.nodes ==> n in old(heap.nodes)
    {
      hide Least, CompareViews, OrderedIn, Wired, LeastAt;
      WiredRest(heap.nodes, run);
      BoundedIs(run, vs[0]);
      var cursor := heap.nodes[0];
      ghost var nodes := heap.nodes;
      ok := cursor.LoadMessageIndexes(regions);
      ghost var t := vs[0 := Loaded(run, vs[0])];
      assert Sees(nodes, t);
      ComparableViews(run, vs, t);
      var more := cursor.HasMoreMessages();
      if more {
        heap.Rearrange(t);
        WiredSwap(nodes, LeastAt(t, |t|), run);
      } else {
        heap.nodes := heap.nodes[1..];
        assert t[1..] == vs[1..];
        heap.Rearrange(t[1..]);
        WiredSwap(nodes[1..], LeastAt(t[1..], |t[1..]|), run);
      }
    }

    /** The top cursor's next entry is taken. */
    method PopTop(heap: Heap, run: Read, ghost vs: seq<View>) returns (e: Entry)
      requires Wired(heap.nodes, run) && Sees(heap.nodes, vs) && vs != []
      requires vs[0].loaded.Some? && vs[0].next < |vs[0].loaded.value|
      modifies heap.nodes[0]
      ensures Front(vs[0]) == Hit(e.0, vs[0].index.chunkOffset, e.1)
      ensures Sees(heap.nodes, vs[0 := Advanced(vs[0])])
    {
      hide Wired;
      WiredRest(heap.nodes, run);
      e := heap.nodes[0].PopMessage();
    }

    /** The cursor that gave a message stays at the top, is put back, or is removed. */
    method Continue(heap: Heap, run: Read, ordered: bool, cache: Contents, ghost vs: seq<View>) returns (held: Contents)
      requires vs != [] && vs[0].loaded.Some? && vs[0].next < |vs[0].loaded.value| && AllOk(run, vs)
      requires Wired(heap.nodes, run) && Sees(heap.nodes, vs[0 := Advanced(vs[0])])
      modifies heap
      ensures held == if vs[0].next + 1 < |vs[0].loaded.value| then cache else cache - {vs[0].index.chunkOffset}
      ensures Wired(heap.nodes, run) && Sees(heap.nodes, AfterGiving(vs, ordered))
      ensures forall n :: n in heap.nodes ==> n in old(heap.nodes)
    {
      hide Least, CompareViews, OrderedIn, Wired, Bounded, LeastAt;
      ghost var nodes := heap.nodes;
      ghost var t := vs[0 := Advanced(vs[0])];
      WiredRest(heap.nodes, run);
      ComparableViews(run, vs, t);
      var cursor := heap.nodes[0];
      assert cursor.Look() == t[0];
      held := cache;
      var more := cursor.HasMoreMessages();
      if more {
        if !ordered {
          heap.Rearrange(t);
          WiredSwap(nodes, LeastAt(t, |t|), run);
        }
      } else {
        heap.nodes := heap.nodes[1..];
        assert t[1..] == vs[1..];
        heap.Rearrange(t[1..]);
        WiredSwap(nodes[1..], LeastAt(t[1..], |t[1..]|), run);
        held := held - {cursor.chunkIndex.chunkOffset};
      }
    }

    /** The read a call stands for; none, if there is no chunk and no range was given. */
    function ReadFor(topics: Option<set<bytes>>, startArg: Option<int>, endArg: Option<int>, reverse: bool): (r: Option<Read>)
      reads this
      ensures r.Some? ==> r.value.regions == regions && r.value.start.Some? && r.value.end.Some? && r.value.reverse == reverse &&
                          r.value.relevant == RelevantChannels(topics)
      ensures startArg.Some? && endArg.Some? ==> r.Some? && r.value.start == startArg && r.value.end == endArg
    {
      if startArg.None? && messageStart.None? then None
      else if endArg.None? && messageEnd.None? then None
      else
        var start := if startArg.Some? then startArg.value else messageStart.value;
        var end := if endArg.Some? then endArg.value else messageEnd.value;
        Some(Read(regions, RelevantChannels(topics), Some(start), Some(end), reverse))
    }

    /** The chunks a read looks at. */
    function Looked(run: Read): seq<R.ChunkIndexRecord>
      requires run.start.Some? && run.end.Some?
    {
      Kept(chunkIndexes, OverlapsRange(run.start.value, run.end.value))
    }

    /** Yields the messages of all relevant channels in the closed time range, by log time and
        place in the file, or in the reverse of that order. `first` is the heap at the start,
        `peak` the most uncompressed chunks held at once. */
    method ReadMessages(topics: Option<set<bytes>>, startArg: Option<int>, endArg: Option<int>, reverse: bool)
      returns (ok: bool, out: seq<R.MessageRecord>, ghost hits: seq<Hit>, ghost first: seq<View>, ghost peak: nat)
      requires Distinct(chunkIndexes)
      requires var r := ReadFor(topics, startArg, endArg, reverse); r.Some? ==> AllBounded(r.value, Looked(r.value))
      ensures ReadFor(topics, startArg, endArg, reverse).None? ==> ok && out == []
      ensures |out| == |hits| && forall i :: 0 <= i < |out| ==> IsAt(out[i], hits[i], contents)
      ensures var r := ReadFor(topics, startArg, endArg, reverse);
              r.Some? ==> (ok <==> NoneUnindexed(Looked(r.value)) && AllReadable(r.value, Looked(r.value), contents))
      ensures var r := ReadFor(topics, startArg, endArg, reverse);
              r.Some? ==> if NoneUnindexed(Looked(r.value)) then
                            HeapOf(r.value, Looked(r.value), first) &&
                            hits <= Drain(r.value, first, InSequence(Looked(r.value))) &&
                            (ok ==> hits == Drain(r.value, first, InSequence(Looked(r.value))))
                          else hits == []
      ensures var r := ReadFor(topics, startArg, endArg, reverse);
              r.Some? && ok && (InSequence(Looked(r.value)) ==> TiesInFileOrder(Looked(r.value))) ==>
                hits == Sort(AllHits(r.value, Looked(r.value)), HitKey(reverse))
      ensures var r := ReadFor(topics, startArg, endArg, reverse);
              r.Some? && AllBounded(r.value, chunkIndexes) && AllIndexed(chunkIndexes, regions, contents) &&
              (InSequence(Looked(r.value)) ==> TiesInFileOrder(Looked(r.value))) ==>
                (ok <==> NoneUnindexed(Looked(r.value))) &&
                (ok ==> forall scan :: multiset(scan) == multiset(WantedHits(r.value, chunkIndexes, contents)) ==>
                  hits == Sort(scan, HitKey(reverse)))
      ensures var r := ReadFor(topics, startArg, endArg, reverse);
              r.Some? && InSequence(Looked(r.value)) ==> peak <= 1
    {
      hide *;
      ok, out, hits, first, peak := true, [], [], [], 0;
      var read := ReadFor(topics, startArg, endArg, reverse);
      if read.None? {
        return;
      }
      var run := read.value;
      ok, out, hits, first, peak := Merge(run, run.start.value, run.end.value);
      if InSequence(Looked(run)) ==> TiesInFileOrder(Looked(run)) {
        ReadAmounts(run, ok, hits, first);
      }
    }

    lemma LookedIs(run: Read, start: int, end: int)
      requires run.start == Some(start) && run.end == Some(end)
      ensures Looked(run) == Kept(chunkIndexes, OverlapsRange(start, end))
    {
    }

    lemma LookedIsDistinct(run: Read)
      requires Distinct(chunkIndexes) && run.start.Some? && run.end.Some?
      ensures Distinct(Looked(run))
    {
      KeptDistinct(chunkIndexes, OverlapsRange(run.start.value, run.end.value));
    }

    /** What a merge amounts to when its order can be relied on, and when the indexes are complete. */
    lemma ReadAmounts(run: Read, ok: bool, hits: seq<Hit>, first: seq<View>)
      requires Distinct(chunkIndexes) && run.start.Some? && run.end.Some? && run.regions == regions
      requires AllBounded(run, Looked(run)) && (InSequence(Looked(run)) ==> TiesInFileOrder(Looked(run)))
      requires ok <==> NoneUnindexed(Looked(run)) && AllReadable(run, Looked(run), contents)
      requires ok ==> HeapOf(run, Looked(run), first) && hits == Drain(run, first, InSequence(Looked(run)))
      ensures ok ==> hits == Sort(AllHits(run, Looked(run)), HitKey(run.reverse))
      ensures AllBounded(run, chunkIndexes) && AllIndexed(chunkIndexes, regions, contents) ==>
                (ok <==> NoneUnindexed(Looked(run))) &&
                (ok ==> forall scan :: multiset(scan) == multiset(WantedHits(run, chunkIndexes, contents)) ==>
                  hits == Sort(scan, HitKey(run.reverse)))
    {
      hide *;
      LookedIs(run, run.start.value, run.end.value);
      if ok {
        LookedIsDistinct(run);
        MergedIsSorted(run, Looked(run), first);
      }
      if AllBounded(run, chunkIndexes) && AllIndexed(chunkIndexes, regions, contents) {
        GivesTheWanted(run, chunkIndexes, contents, run.start.value, run.end.value);
        ReadableIs(run, Looked(run), contents);
      }
    }

    /** One message from the top cursor, whose chunk is uncompressed if it is not held. */
    method GiveMessage(heap: Heap, run: Read, ordered: bool, cache: Contents, ghost vs: seq<View>)
      returns (message: Option<R.MessageRecord>, held: Contents, ghost most: nat)
      requires Wired(heap.nodes, run) && Sees(heap.nodes, vs) && AllOk(run, vs)
      requires vs != [] && vs[0].loaded.Some? && vs[0].next < |vs[0].loaded.value|
      requires forall k :: k in cache ==> k in contents && cache[k] == contents[k]
      requires ordered ==> OneHeld(vs, cache.Keys)
      modifies heap, heap.nodes[0]
      ensures message.Some? <==> Readable(Front(vs[0]), contents)
      ensures message.Some? ==>
                IsAt(message.value, Front(vs[0]), contents) && Wired(heap.nodes, run) &&
                Sees(heap.nodes, AfterGiving(vs, ordered)) && forall n :: n in heap.nodes ==> n in old(heap.nodes)
      ensures forall k :: k in held ==> k in contents && held[k] == contents[k]
      ensures message.Some? && ordered ==> OneHeld(AfterGiving(vs, true), held.Keys) && most <= 1
    {
      hide Wired, AllOk, AfterGiving, OneHeld;
      var chunk := heap.nodes[0].chunkIndex.chunkOffset;
      assert heap.nodes[0].Look() == vs[0];
      var e := PopTop(heap, run, vs);
      message, held := Fetch(cache, chunk, e);
      most := |held|;
      if message.None? {
        return;
      }
      if ordered {
        FetchHolds(vs, cache.Keys, held.Keys);
        CacheSize(held);
      }
      ghost var fetched := held;
      held := Continue(heap, run, ordered, held, vs);
      if ordered {
        GivingHoldsOne(vs, held.Keys);
      }
    }

    /** The reading loop. */
    method Merge(run: Read, start: int, end: int)
      returns (ok: bool, out: seq<R.MessageRecord>, ghost hits: seq<Hit>, ghost first: seq<View>, ghost peak: nat)
      requires Distinct(chunkIndexes) && run.regions == regions && run.start == Some(start) && run.end == Some(end)
      requires AllBounded(run, Looked(run))
      ensures |out| == |hits| && forall i :: 0 <= i < |out| ==> IsAt(out[i], hits[i], contents)
      ensures ok <==> NoneUnindexed(Looked(run)) && AllReadable(run, Looked(run), contents)
      ensures if NoneUnindexed(Looked(run)) then
                HeapOf(run, Looked(run), first) && hits <= Drain(run, first, InSequence(Looked(run))) &&
                (ok ==> hits == Drain(run, first, InSequence(Looked(run))))
              else hits == []
      ensures InSequence(Looked(run)) ==> peak <= 1
    {
      hide *;
      ok, out, hits, first, peak := true, [], [], [], 0;
      var heap := new Heap();
      ghost var matching := Kept(chunkIndexes, OverlapsRange(start, end));
      LookedIs(run, start, end);
      ghost var vs;
      NothingOnHeap(run);
      var ordered;
      ok, ordered, vs := PushCursors(heap, run, start, end);
      if !ok {
        return;
      }
      ghost var made := set n | n in heap.nodes;
      Begin(run, matching, vs);
      first := vs;
      var cache: Contents := map[];
      assert cache.Keys == {};
      NothingHeld(vs);
      while heap.nodes != []
        invariant fresh(heap) && fresh(made) && forall n :: n in heap.nodes ==> n in made
        invariant ok && Wired(heap.nodes, run) && Sees(heap.nodes, vs) && Draining(run, first, ordered, hits, vs)
        invariant forall k :: k in cache ==> k in contents && cache[k] == contents[k]
        invariant ordered ==> OneHeld(vs, cache.Keys)
        invariant ordered ==> peak <= 1
        invariant |out| == |hits| && forall i :: 0 <= i < |out| ==> IsAt(out[i], hits[i], contents)
        decreases BagSize(run, vs).0, BagSize(run, vs).1
      {
        SeesLength(heap.nodes, vs);
        ghost var was := vs;
        TopIs(run, first, ordered, hits, vs, heap.nodes);
        var cursor := heap.nodes[0];
        assert cursor in heap.nodes;
        if cursor.ordered.None? {
          ok := LoadTop(heap, run, vs);
          vs := AfterLoading(run, vs);
          DrainingLoads(run, first, ordered, hits, was);
          if ordered {
            LoadHoldsOne(was, vs, cache.Keys);
          }
          continue;
        }
        var message;
        ghost var most;
        message, cache, most := GiveMessage(heap, run, ordered, cache, vs);
        if message.None? {
          StopsUnread(run, matching, first, ordered, hits, vs, contents);
          return false, out, hits, first, peak;
        }
        vs := AfterGiving(vs, ordered);
        DrainingGives(run, first, ordered, hits, was);
        peak := if most > peak then most else peak;
        out := out + [message.value];
        hits := hits + [Front(was[0])];
      }
      Finished(run, matching, first, ordered, hits, vs, heap.nodes, out, contents);
    }
  }

  lemma WiredMore(nodes: seq<ChunkCursor>, cursor: ChunkCursor, run: Read)
    requires Wired(nodes, run) && cursor !in nodes && cursor.relevant == run.relevant && cursor.start == run.start
    requires cursor.end == run.end && cursor.reverse == run.reverse
    ensures Wired(nodes + [cursor], run)
  {
    forall i | 0 <= i < |nodes| ensures nodes[i] != cursor {
    }
  }

  lemma WiredSwap(nodes: seq<ChunkCursor>, m: nat, run: Read)
    requires Wired(nodes, run) && (nodes == [] || m < |nodes|)
    ensures var t := Swapped(nodes, m); Wired(t, run) && forall n :: n in t ==> n in nodes
  {
    var t := Swapped(nodes, m);
    forall i | 0 <= i < |t| ensures t[i] == nodes[if i == 0 then m else if i == m then 0 else i] {
    }
  }

  lemma WiredRest(nodes: seq<ChunkCursor>, run: Read)
    requires Wired(nodes, run) && nodes != []
    ensures Wired(nodes[1..], run) && nodes[0] !in nodes[1..] && nodes[0].relevant == run.relevant
    ensures nodes[0].start == run.start && nodes[0].end == run.end && nodes[0].reverse == run.reverse
  {
  }

  lemma NothingOnHeap(run: Read)
    ensures Least([]) && InSequence([]) && Distinct([]) && Wired([], run) && Sees([], []) && NoneUnindexed([])
  {
  }

  lemma ReadableIs(run: Read, cs: seq<R.ChunkIndexRecord>, contents: Contents)
    ensures AllReadable(run, cs, contents) <==> forall h :: h in AllHits(run, cs) ==> Readable(h, contents)
  {
  }

  lemma {:induction false} KeptDistinct(cs: seq<R.ChunkIndexRecord>, p: R.ChunkIndexRecord -> bool)
    requires Distinct(cs)
    ensures Distinct(Kept(cs, p))
    decreases |cs|
  {
    if cs != [] {
      var n := |cs| - 1;
      KeptDistinct(cs[..n], p);
      var kept := Kept(cs[..n], p);
      forall i | 0 <= i < |kept| ensures kept[i].chunkOffset != cs[n].chunkOffset {
        KeptMember(cs[..n], p, i);
        var j :| 0 <= j < n && cs[..n][j] == kept[i];
        assert cs[j] == kept[i];
      }
    }
  }

  lemma MergedIsSorted(run: Read, cs: seq<R.ChunkIndexRecord>, first: seq<View>)
    requires AllBounded(run, cs) && Distinct(cs) && HeapOf(run, cs, first) && (InSequence(cs) ==> TiesInFileOrder(cs))
    ensures Drain(run, first, InSequence(cs)) == Sort(AllHits(run, cs), HitKey(run.reverse))
  {
    hide *;
    DrainIsSort(run, cs, first, InSequence(cs));
  }

  // ---------- the loop against the merge ----------

  /** How far a run is: what was yielded and what the heap still gives make up the whole. */
  ghost predicate Draining(run: Read, first: seq<View>, alone: bool, hits: seq<Hit>, vs: seq<View>) {
    && AllOk(run, first) && Active(first) && AllOk(run, vs) && Active(vs)
    && hits + Drain(run, vs, alone) == Drain(run, first, alone)
  }

  /** How much is still to be loaded and read. */
  ghost function BagSize(run: Read, vs: seq<View>): (nat, nat) {
    if AllOk(run, vs) then (Unloaded(vs), |Bag(run, vs)|) else (0, 0)
  }

  lemma SeesLength(nodes: seq<ChunkCursor>, vs: seq<View>)
    requires Sees(nodes, vs)
    ensures |nodes| == |vs|
  {
  }

  lemma Begin(run: Read, matching: seq<R.ChunkIndexRecord>, vs: seq<View>)
    requires AllBounded(run, matching) && Distinct(matching)
    requires multiset(vs) == multiset(Mapped(matching, FreshView(run.reverse))) && Least(vs)
    ensures HeapOf(run, matching, vs) && Draining(run, vs, true, [], vs) && Draining(run, vs, false, [], vs)
    ensures vs == [] || vs[0].loaded.None?
  {
    hide AllOk, Active, Drain, AllBounded, Distinct, Least;
    FreshPermuted(run, matching, vs);
    assert [] + Drain(run, vs, true) == Drain(run, vs, true);
    assert [] + Drain(run, vs, false) == Drain(run, vs, false);
  }

  lemma NothingHeld(vs: seq<View>)
    requires vs == [] || vs[0].loaded.None?
    ensures OneHeld(vs, {})
  {
  }

  /** What is known of the top cursor. */
  lemma TopIs(run: Read, first: seq<View>, alone: bool, hits: seq<Hit>, vs: seq<View>, nodes: seq<ChunkCursor>)
    requires Draining(run, first, alone, hits, vs) && Sees(nodes, vs) && vs != []
    ensures AllOk(run, vs) && Active(vs) && (vs[0].loaded.Some? ==> vs[0].next < |vs[0].loaded.value|)
    ensures nodes[0].ordered == vs[0].loaded && nodes[0].chunkIndex == vs[0].index
    ensures BagSize(run, vs) == (Unloaded(vs), |Bag(run, vs)|)
  {
    hide Bounded, Bag, Unloaded, Drain;
    assert nodes[0].Look() == vs[0];
  }

  lemma DrainingLoads(run: Read, first: seq<View>, alone: bool, hits: seq<Hit>, vs: seq<View>)
    requires Draining(run, first, alone, hits, vs) && vs != [] && vs[0].loaded.None?
    ensures Draining(run, first, alone, hits, AfterLoading(run, vs))
    ensures BagSize(run, AfterLoading(run, vs)).0 < BagSize(run, vs).0
  {
    hide AllOk, Active, AfterLoading, Bag, Unloaded;
    LoadingSteps(run, vs);
  }

  lemma DrainingGives(run: Read, first: seq<View>, alone: bool, hits: seq<Hit>, vs: seq<View>)
    requires Draining(run, first, alone, hits, vs) && vs != [] && vs[0].loaded.Some? && vs[0].next < |vs[0].loaded.value|
    ensures Draining(run, first, alone, hits + [Front(vs[0])], AfterGiving(vs, alone))
    ensures BagSize(run, AfterGiving(vs, alone)).0 == BagSize(run, vs).0
    ensures BagSize(run, AfterGiving(vs, alone)).1 < BagSize(run, vs).1
  {
    hide AllOk, Active, AfterGiving, Bag, Unloaded;
    GivingSteps(run, vs, alone);
    var rest := Drain(run, AfterGiving(vs, alone), alone);
    assert hits + ([Front(vs[0])] + rest) == (hits + [Front(vs[0])]) + rest;
  }

  lemma LoadHoldsOne(vs: seq<View>, ws: seq<View>, cached: set<nat>)
    requires OneHeld(vs, cached) && vs != [] && vs[0].loaded.None?
    ensures OneHeld(ws, cached)
  {
  }

  lemma FetchHolds(vs: seq<View>, before: set<nat>, held: set<nat>)
    requires vs != [] && OneHeld(vs, before) && (held == before || held == before + {vs[0].index.chunkOffset})
    ensures |held| <= 1 && forall k :: k in held ==> k == vs[0].index.chunkOffset
  {
    assert held <= {vs[0].index.chunkOffset};
    SubsetCounts(held, {vs[0].index.chunkOffset});
  }

  lemma CacheSize(cache: Contents)
    ensures |cache| == |cache.Keys|
  {
  }

  /** With the heap left alone nothing but the top's chunk is held. */
  lemma GivingHoldsOne(vs: seq<View>, held: set<nat>)
    requires vs != [] && vs[0].loaded.Some? && vs[0].next < |vs[0].loaded.value|
    requires forall k :: k in held ==> k == vs[0].index.chunkOffset && vs[0].next + 1 < |vs[0].loaded.value|
    ensures OneHeld(AfterGiving(vs, true), held)
  {
    hide Topped;
  }

  /** The message a read stops at is one of those it comes to. */
  lemma StopsUnread(run: Read, matching: seq<R.ChunkIndexRecord>, first: seq<View>, alone: bool, hits: seq<Hit>, vs: seq<View>,
                    contents: Contents)
    requires Draining(run, first, alone, hits, vs) && vs != [] && vs[0].loaded.Some? && vs[0].next < |vs[0].loaded.value|
    requires HeapOf(run, matching, first) && AllBounded(run, matching) && Distinct(matching)
    requires !Readable(Front(vs[0]), contents)
    ensures !AllReadable(run, matching, contents) && hits <= Drain(run, first, alone)
  {
    hide AllOk, Active, Bag, Unloaded, AllHits, AllBounded, Readable, Least;
    DrainGivesAll(run, first, alone);
    FreshPermuted(run, matching, first);
    assert Drain(run, first, alone)[|hits|] == Drain(run, vs, alone)[0] == Front(vs[0]);
    assert Front(vs[0]) in multiset(Drain(run, first, alone));
  }

  lemma Finished(run: Read, matching: seq<R.ChunkIndexRecord>, first: seq<View>, alone: bool, hits: seq<Hit>, vs: seq<View>,
                 nodes: seq<ChunkCursor>, out: seq<R.MessageRecord>, contents: Contents)
    requires Draining(run, first, alone, hits, vs) && Sees(nodes, vs) && nodes == []
    requires HeapOf(run, matching, first) && AllBounded(run, matching) && Distinct(matching)
    requires |out| == |hits| && forall i :: 0 <= i < |out| ==> IsAt(out[i], hits[i], contents)
    ensures AllReadable(run, matching, contents) && hits == Drain(run, first, alone)
  {
    hide AllOk, Active, Bag, Unloaded, AllHits, AllBounded, Readable, Least;
    assert Drain(run, vs, alone) == [];
    assert hits == Drain(run, first, alone);
    DrainGivesAll(run, first, alone);
    FreshPermuted(run, matching, first);
    forall h | h in AllHits(run, matching) ensures Readable(h, contents) {
      assert h in multiset(AllHits(run, matching));
      assert h in multiset(hits);
      var i :| 0 <= i < |hits| && hits[i] == h;
      assert IsAt(out[i], hits[i], contents);
    }
  }

  lemma BoundedIs(run: Read, v: View)
    requires ViewOk(run, v)
    ensures v.reverse == run.reverse && Listed(v.index, RegionOf(v.index, run.regions))
    ensures forall e :: e in EntriesFrom(RegionOf(v.index, run.regions), run.relevant, 0) ==>
              v.index.startTime <= e.0 <= v.index.endTime
    ensures OrderedIn(run, v.index) == Ordered(v.index, run.regions, run.relevant, run.start, run.end, run.reverse)
  {
  }

  lemma ComparableViews(run: Read, vs: seq<View>, t: seq<View>)
    requires AllOk(run, vs) && vs != [] && |t| == |vs| && t[1..] == vs[1..]
    requires t[0].index == vs[0].index && t[0].reverse == vs[0].reverse
    ensures Comparable(t) && Comparable(t[1..])
  {
    hide Bounded, OrderedIn;
    forall i | 0 <= i < |t| ensures t[i].index == vs[i].index && t[i].reverse == run.reverse {
      if i > 0 {
        assert t[i] == t[1..][i - 1] == vs[1..][i - 1];
      }
    }
  }

  // ---------- the heap at the start ----------

  lemma PushedTop(vs: seq<View>, c: R.ChunkIndexRecord, reverse: bool)
    requires Comparable(vs + [View(c, reverse, None, 0)])
    ensures var ws := Topped(vs + [View(c, reverse, None, 0)]);
            Least(ws) && multiset(ws) == multiset(vs + [View(c, reverse, None, 0)])
  {
    hide *;
    ToppedIsLeast(vs + [View(c, reverse, None, 0)]);
    ToppedPermutes(vs + [View(c, reverse, None, 0)]);
  }

  lemma RefusesMatching(cs: seq<R.ChunkIndexRecord>, i: nat, start: int, end: int)
    requires i < |cs| && Overlaps(cs[i], start, end) && Unindexed(cs[i])
    ensures !NoneUnindexed(Kept(cs, OverlapsRange(start, end)))
  {
    KeptMembers(cs, OverlapsRange(start, end));
    assert cs[i] in Kept(cs, OverlapsRange(start, end));
  }

  lemma OneMoreIndexed(cs: seq<R.ChunkIndexRecord>, c: R.ChunkIndexRecord)
    requires NoneUnindexed(cs) && !Unindexed(c)
    ensures NoneUnindexed(cs + [c])
  {
  }

  /** The cursors made for the first `i` chunks. */
  ghost predicate Matched(cs: seq<R.ChunkIndexRecord>, i: nat, matching: seq<R.ChunkIndexRecord>, vs: seq<View>, start: int,
                          end: int, reverse: bool)
    requires i <= |cs|
  {
    && matching == Kept(cs[..i], OverlapsRange(start, end)) && Distinct(matching)
    && (forall c :: c in matching ==> c in cs[..i])
    && multiset(vs) == multiset(Mapped(matching, FreshView(reverse)))
  }

  lemma NothingMatched(cs: seq<R.ChunkIndexRecord>, start: int, end: int, reverse: bool)
    ensures Matched(cs, 0, [], [], start, end, reverse)
  {
    var none: seq<R.ChunkIndexRecord> := [];
    assert Mapped(none, FreshView(reverse)) == [];
  }

  lemma MatchedMore(cs: seq<R.ChunkIndexRecord>, i: nat, matching: seq<R.ChunkIndexRecord>, vs: seq<View>, start: int, end: int,
                    reverse: bool)
    requires i < |cs| && Distinct(cs) && Matched(cs, i, matching, vs, start, end, reverse)
    ensures Comparable(vs + [View(cs[i], reverse, None, 0)])
  {
    hide Kept, OverlapsRange, Comparable, Distinct;
    OffsetsApart(cs, i, matching, vs, reverse);
  }

  lemma MatchedPushed(cs: seq<R.ChunkIndexRecord>, i: nat, matching: seq<R.ChunkIndexRecord>, was: seq<View>, vs: seq<View>,
                      start: int, end: int, reverse: bool)
    requires i < |cs| && Distinct(cs) && Matched(cs, i, matching, was, start, end, reverse) && Overlaps(cs[i], start, end)
    requires multiset(vs) == multiset(was + [View(cs[i], reverse, None, 0)])
    ensures Matched(cs, i + 1, matching + [cs[i]], vs, start, end, reverse)
  {
    hide Kept, OverlapsRange, Comparable, Distinct;
    OffsetsApart(cs, i, matching, was, reverse);
    PushedPermutes(matching, cs[i], was, reverse);
    KeptOneMore(cs, i, start, end);
    assert cs[..i + 1] == cs[..i] + [cs[i]];
  }

  lemma MatchedLess(cs: seq<R.ChunkIndexRecord>, i: nat, matching: seq<R.ChunkIndexRecord>, vs: seq<View>, start: int, end: int,
                    reverse: bool)
    requires i < |cs| && Matched(cs, i, matching, vs, start, end, reverse) && !Overlaps(cs[i], start, end)
    ensures Matched(cs, i + 1, matching, vs, start, end, reverse)
  {
    hide Kept, OverlapsRange, Distinct;
    KeptOneMore(cs, i, start, end);
    assert cs[..i + 1] == cs[..i] + [cs[i]];
  }

  lemma AllMatched(cs: seq<R.ChunkIndexRecord>, matching: seq<R.ChunkIndexRecord>, vs: seq<View>, start: int, end: int,
                   reverse: bool)
    requires Matched(cs, |cs|, matching, vs, start, end, reverse)
    ensures matching == Kept(cs, OverlapsRange(start, end)) && Distinct(matching)
    ensures multiset(vs) == multiset(Mapped(matching, FreshView(reverse)))
  {
    hide Kept, OverlapsRange, Distinct;
    assert cs[..|cs|] == cs;
  }

  lemma KeptOneMore(cs: seq<R.ChunkIndexRecord>, i: nat, start: int, end: int)
    requires i < |cs|
    ensures Kept(cs[..i + 1], OverlapsRange(start, end)) ==
            if Overlaps(cs[i], start, end) then Kept(cs[..i], OverlapsRange(start, end)) + [cs[i]]
            else Kept(cs[..i], OverlapsRange(start, end))
  {
    assert cs[..i + 1] == cs[..i] + [cs[i]];
    KeptMore(cs[..i], cs[i], OverlapsRange(start, end));
    assert Kept(cs[..i], OverlapsRange(start, end)) + [] == Kept(cs[..i], OverlapsRange(start, end));
  }

  lemma InSequenceMore(cs: seq<R.ChunkIndexRecord>, c: R.ChunkIndexRecord)
    ensures InSequence(cs + [c]) <==> InSequence(cs) && (cs != [] ==> c.startTime >= cs[|cs| - 1].endTime)
  {
    var t := cs + [c];
    if InSequence(t) {
      forall i | 0 < i < |cs| ensures cs[i].startTime >= cs[i - 1].endTime {
        assert t[i].startTime >= t[i - 1].endTime;
      }
      if cs != [] {
        assert t[|cs|].startTime >= t[|cs| - 1].endTime;
      }
    }
  }

  lemma PushedPermutes(cs: seq<R.ChunkIndexRecord>, c: R.ChunkIndexRecord, views: seq<View>, reverse: bool)
    requires multiset(views) == multiset(Mapped(cs, FreshView(reverse)))
    ensures multiset(views + [View(c, reverse, None, 0)]) == multiset(Mapped(cs + [c], FreshView(reverse)))
  {
    assert Mapped(cs + [c], FreshView(reverse)) == Mapped(cs, FreshView(reverse)) + [View(c, reverse, None, 0)];
  }

  /** A new chunk is at another place than those on the heap. */
  lemma OffsetsApart(cs: seq<R.ChunkIndexRecord>, i: nat, matching: seq<R.ChunkIndexRecord>, views: seq<View>, reverse: bool)
    requires i < |cs| && Distinct(cs) && Distinct(matching) && forall c :: c in matching ==> c in cs[..i]
    requires multiset(views) == multiset(Mapped(matching, FreshView(reverse)))
    ensures Distinct(matching + [cs[i]])
    ensures Comparable(views + [View(cs[i], reverse, None, 0)])
  {
    forall c | c in matching ensures c.chunkOffset != cs[i].chunkOffset {
      var k :| 0 <= k < i && cs[..i][k] == c;
      assert cs[k] == c;
    }
    forall k | 0 <= k < |matching| ensures (matching + [cs[i]])[k].chunkOffset != cs[i].chunkOffset {
      assert matching[k] in matching;
    }
    var unread := Mapped(matching, FreshView(reverse));
    forall j | 0 <= j < |views| ensures views[j].index in matching && views[j].reverse == reverse {
      assert views[j] in multiset(unread);
      var k :| 0 <= k < |unread| && unread[k] == views[j];
    }
    ViewsDistinct(matching, views, reverse);
  }
}
