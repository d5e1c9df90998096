/** The TypeScript `McapIndexedReader.readMessages`: a heap of chunk cursors, each loaded when
    it comes to the top. Chunks that follow each other in time are read without
    rearranging the heap, and then at most one uncompressed chunk is held. */
module TsReader {
  import opened Bytes
  import opened Sorting
  import opened TsCursor
  import R = Records

  /** One message, by its log time and its place in the file. */
  datatype Hit = Hit(time: nat, chunk: nat, offset: nat)

  /** Log time, then chunk offset, then message offset; all turned for reverse reads. */
  function HitKey(reverse: bool): Hit -> Key {
    (h: Hit) => if reverse then Key(0 - h.time, 0 - h.chunk, 0 - h.offset) else Key(h.time, h.chunk, h.offset)
  }

  function HitOf(chunk: nat): Entry -> Hit {
    (e: Entry) => Hit(e.0, chunk, e.1)
  }

  /** What one read asks for. */
  datatype Read = Read(regions: Regions, relevant: Option<set<nat>>, start: Option<int>, end: Option<int>, reverse: bool)

  function Entries(run: Read, c: R.ChunkIndexRecord): seq<Entry> {
    EntriesFrom(RegionOf(c, run.regions), run.relevant, 0)
  }

  function OrderedIn(run: Read, c: R.ChunkIndexRecord): seq<Entry> {
    Ordered(c, run.regions, run.relevant, run.start, run.end, run.reverse)
  }

  /** The chunk index bounds its messages and lists their indexes. */
  ghost predicate Bounded(run: Read, c: R.ChunkIndexRecord) {
    && c.startTime <= c.endTime
    && Listed(c, RegionOf(c, run.regions))
    && forall e :: e in Entries(run, c) ==> c.startTime <= e.0 <= c.endTime
  }

  // ---------- what a cursor has still to give ----------

  ghost predicate ViewOk(run: Read, v: View) {
    && v.reverse == run.reverse
    && Bounded(run, v.index)
    && (v.loaded.None? ==> v.next == 0)
    && (v.loaded.Some? ==> v.loaded.value == OrderedIn(run, v.index) && v.next <= |v.loaded.value|)
  }

  /** The messages still to come from a cursor, loaded or not. */
  ghost function Coming(run: Read, v: View): seq<Hit>
    requires v.next <= |OrderedIn(run, v.index)|
  {
    Mapped(OrderedIn(run, v.index)[v.next..], HitOf(v.index.chunkOffset))
  }

  ghost predicate AllOk(run: Read, vs: seq<View>) {
    && (forall i :: 0 <= i < |vs| ==> ViewOk(run, vs[i]))
    && (forall i, j :: 0 <= i < j < |vs| ==> vs[i].index.chunkOffset != vs[j].index.chunkOffset)
  }

  lemma NextInRange(run: Read, v: View)
    requires ViewOk(run, v)
    ensures v.next <= |OrderedIn(run, v.index)|
  {
  }

  ghost function Bag(run: Read, vs: seq<View>): multiset<Hit>
    requires forall i :: 0 <= i < |vs| ==> ViewOk(run, vs[i])
    decreases |vs|
  {
    if vs == [] then multiset{}
    else
      NextInRange(run, vs[|vs| - 1]);
      Bag(run, vs[..|vs| - 1]) + multiset(Coming(run, vs[|vs| - 1]))
  }

  function Unloaded(vs: seq<View>): nat
    decreases |vs|
  {
    if vs == [] then 0 else Unloaded(vs[..|vs| - 1]) + (if vs[|vs| - 1].loaded.None? then 1 else 0)
  }

  function UnloadedOne(v: View): nat {
    if v.loaded.None? then 1 else 0
  }

  /** A cursor's share can be taken out of the whole. */
  lemma {:induction false} BagWithout(run: Read, vs: seq<View>, i: nat)
    requires i < |vs| && forall k :: 0 <= k < |vs| ==> ViewOk(run, vs[k])
    ensures vs[i].next <= |OrderedIn(run, vs[i].index)|
    ensures Bag(run, vs) == Bag(run, vs[..i] + vs[i + 1..]) + multiset(Coming(run, vs[i]))
    ensures Unloaded(vs) == Unloaded(vs[..i] + vs[i + 1..]) + UnloadedOne(vs[i])
    decreases |vs|
  {
    hide ViewOk, Coming, OrderedIn;
    var n := |vs| - 1;
    NextInRange(run, vs[i]);
    if i == n {
      assert vs[..i] + vs[i + 1..] == vs[..n];
    } else {
      var rest := vs[..i] + vs[i + 1..];
      BagWithout(run, vs[..n], i);
      assert rest[..|rest| - 1] == vs[..n][..i] + vs[..n][i + 1..];
      assert rest[|rest| - 1] == vs[n];
      NextInRange(run, vs[n]);
    }
  }

  lemma WithoutOne<T>(s: seq<T>, i: nat)
    requires i < |s|
    ensures multiset(s[..i] + s[i + 1..]) == multiset(s) - multiset{s[i]}
  {
    assert s == s[..i] + ([s[i]] + s[i + 1..]);
    assert multiset(s) == multiset(s[..i]) + (multiset([s[i]]) + multiset(s[i + 1..]));
  }

  lemma {:induction false} BagPermutes(run: Read, a: seq<View>, b: seq<View>)
    requires multiset(a) == multiset(b)
    requires forall k :: 0 <= k < |a| ==> ViewOk(run, a[k])
    requires forall k :: 0 <= k < |b| ==> ViewOk(run, b[k])
    ensures Bag(run, a) == Bag(run, b) && Unloaded(a) == Unloaded(b)
    decreases |a|
  {
    hide ViewOk, Coming, OrderedIn, Bag, Unloaded;
    assert |multiset(a)| == |a| && |multiset(b)| == |b|;
    if a == [] {
      assert a == b;
    } else {
      var n := |a| - 1;
      assert a[n] in multiset(a);
      var i :| 0 <= i < |b| && b[i] == a[n];
      var rest := b[..i] + b[i + 1..];
      WithoutOne(b, i);
      WithoutOne(a, n);
      assert a[..n] + a[n + 1..] == a[..n];
      BagWithout(run, b, i);
      BagWithout(run, a, n);
      BagPermutes(run, a[..n], rest);
    }
  }

  /** Replacing the top cursor changes its share only. */
  lemma BagOfTop(run: Read, vs: seq<View>, top: View)
    requires vs != [] && ViewOk(run, top) && forall k :: 0 <= k < |vs| ==> ViewOk(run, vs[k])
    ensures vs[0].next <= |OrderedIn(run, vs[0].index)| && top.next <= |OrderedIn(run, top.index)|
    ensures Bag(run, vs) == Bag(run, vs[1..]) + multiset(Coming(run, vs[0]))
    ensures Bag(run, vs[0 := top]) == Bag(run, vs[1..]) + multiset(Coming(run, top))
    ensures Unloaded(vs) == Unloaded(vs[1..]) + UnloadedOne(vs[0])
    ensures Unloaded(vs[0 := top]) == Unloaded(vs[1..]) + UnloadedOne(top)
  {
    hide ViewOk, Coming, OrderedIn, Unloaded, Bag;
    BagWithout(run, vs, 0);
    assert vs[..0] + vs[1..] == vs[1..];
    var changed := vs[0 := top];
    BagWithout(run, changed, 0);
    assert changed[..0] + changed[1..] == vs[1..];
  }

  lemma {:induction false} BagOrigin(run: Read, vs: seq<View>, h: Hit) returns (i: nat)
    requires (forall k :: 0 <= k < |vs| ==> ViewOk(run, vs[k])) && h in Bag(run, vs)
    ensures i < |vs| && vs[i].next <= |OrderedIn(run, vs[i].index)| && h in Coming(run, vs[i])
    decreases |vs|
  {
    hide ViewOk, Coming, OrderedIn;
    var n := |vs| - 1;
    NextInRange(run, vs[n]);
    if h in Coming(run, vs[n]) {
      i := n;
    } else {
      i := BagOrigin(run, vs[..n], h);
    }
  }

  // ---------- the order of the cursors ----------

  /** The comparison is a strict order on cursors of different chunks. */
  lemma ComparesStrictly(a: View, b: View, c: View)
    requires a.reverse == b.reverse == c.reverse
    ensures a.index.chunkOffset != b.index.chunkOffset ==> (CompareViews(a, b) < 0 <==> !(CompareViews(b, a) < 0))
    ensures CompareViews(a, b) < 0 && CompareViews(b, c) < 0 ==> CompareViews(a, c) < 0
    ensures !(CompareViews(a, a) < 0)
  {
    hide SortTime;
  }

  /** The first cursor comes before all others. */
  ghost predicate Least(vs: seq<View>) {
    vs != [] ==> forall i :: 1 <= i < |vs| ==> CompareViews(vs[0], vs[i]) < 0
  }

  /** A chunk whose index leaves room for messages. */
  predicate Holds(c: R.ChunkIndexRecord) {
    c.indexOffsets != [] && c.indexLength > 0
  }

  /** The first cursor comes before all others that may have something to give. */
  ghost predicate Leads(vs: seq<View>) {
    vs != [] ==> forall i :: 1 <= i < |vs| && Holds(vs[i].index) ==> CompareViews(vs[0], vs[i]) < 0
  }

  lemma LeastLeads(vs: seq<View>)
    requires Least(vs)
    ensures Leads(vs)
  {
    hide CompareViews;
  }

  lemma GivingHolds(run: Read, v: View, h: Hit)
    requires ViewOk(run, v) && v.next <= |OrderedIn(run, v.index)| && h in Coming(run, v)
    ensures Holds(v.index)
  {
    OrderedAreEntries(run, v.index);
    hide OrderedIn;
    assert OrderedIn(run, v.index)[|OrderedIn(run, v.index)| - 1] in Entries(run, v.index);
    assert RegionOf(v.index, run.regions) != [];
    var first := RegionOf(v.index, run.regions)[0];
    assert (first.channel, first.at) in v.index.indexOffsets;
  }

  lemma OrderedAscends(run: Read, c: R.ChunkIndexRecord)
    ensures Sorted(Mapped(OrderedIn(run, c), HitOf(c.chunkOffset)), HitKey(run.reverse))
  {
    var kept := Kept(Entries(run, c), InRange(run.start, run.end));
    SortSorts(kept, EntryKey());
    var s := Sort(kept, EntryKey());
    OrderedIs(c, run.regions, run.relevant, run.start, run.end, run.reverse);
    assert OrderedIn(run, c) == Turned(s, run.reverse);
    hide Sort, Kept, Entries, InRange, EntriesFrom, OrderedIn;
    var hits := Mapped(OrderedIn(run, c), HitOf(c.chunkOffset));
    forall i, j | 0 <= i < j < |hits|
      ensures HitKey(run.reverse)(hits[i]).AtMost(HitKey(run.reverse)(hits[j]))
    {
      if run.reverse {
        assert EntryKey()(s[|s| - 1 - j]).AtMost(EntryKey()(s[|s| - 1 - i]));
      } else {
        assert EntryKey()(s[i]).AtMost(EntryKey()(s[j]));
      }
    }
  }

  lemma OrderedAreEntries(run: Read, c: R.ChunkIndexRecord)
    ensures forall i :: 0 <= i < |OrderedIn(run, c)| ==>
              OrderedIn(run, c)[i] in Entries(run, c) && InRange(run.start, run.end)(OrderedIn(run, c)[i])
  {
    var kept := Kept(Entries(run, c), InRange(run.start, run.end));
    KeptMembers(Entries(run, c), InRange(run.start, run.end));
    SortPermutes(kept, EntryKey());
    OrderedIs(c, run.regions, run.relevant, run.start, run.end, run.reverse);
    assert OrderedIn(run, c) == Turned(Sort(kept, EntryKey()), run.reverse);
    hide Sort, Kept, Entries, InRange, EntriesFrom, OrderedIn;
    forall i | 0 <= i < |OrderedIn(run, c)|
      ensures OrderedIn(run, c)[i] in kept
    {
      assert OrderedIn(run, c)[i] in Sort(kept, EntryKey());
      assert OrderedIn(run, c)[i] in multiset(kept);
    }
  }

  /** Whether a time may come at or behind a cursor's sort time in reading direction. */
  predicate NotEarlier(time: nat, from: nat, reverse: bool) {
    if reverse then time <= from else time >= from
  }

  /** A cursor's messages come no earlier than the time it is sorted by, even if its
      indexes have not been loaded. */
  lemma SortTimeBounds(run: Read, v: View)
    requires ViewOk(run, v)
    ensures v.next <= |OrderedIn(run, v.index)|
    ensures forall i :: v.next <= i < |OrderedIn(run, v.index)| ==> NotEarlier(OrderedIn(run, v.index)[i].0, SortTime(v), run.reverse)
  {
    hide OrderedIn, Entries, InRange;
    var o := OrderedIn(run, v.index);
    var hits := Mapped(o, HitOf(v.index.chunkOffset));
    OrderedAscends(run, v.index);
    OrderedAreEntries(run, v.index);
    forall i | v.next <= i < |o| ensures NotEarlier(o[i].0, SortTime(v), run.reverse) {
      assert o[i] in Entries(run, v.index);
      if v.loaded.Some? && v.next < i {
        assert HitKey(run.reverse)(hits[v.next]).AtMost(HitKey(run.reverse)(hits[i]));
      }
    }
  }

  /** The next message of the top cursor. */
  function Front(v: View): Hit
    requires v.loaded.Some? && v.next < |v.loaded.value|
  {
    Hit(v.loaded.value[v.next].0, v.index.chunkOffset, v.loaded.value[v.next].1)
  }

  /** It comes before everything another cursor has to give ... */
  lemma FrontBeforeOther(run: Read, v: View, u: View, h: Hit)
    requires ViewOk(run, v) && ViewOk(run, u) && v.loaded.Some? && v.next < |v.loaded.value|
    requires CompareViews(v, u) < 0 && u.next <= |OrderedIn(run, u.index)| && h in Coming(run, u)
    ensures HitKey(run.reverse)(Front(v)).AtMost(HitKey(run.reverse)(h))
  {
    SortTimeBounds(run, u);
    hide OrderedIn, Bounded;
    var tail := OrderedIn(run, u.index)[u.next..];
    var i :| 0 <= i < |tail| && Coming(run, u)[i] == h;
    assert tail[i] == OrderedIn(run, u.index)[u.next + i];
  }

  /** ... and before the rest of its own. */
  lemma FrontBeforeOwn(run: Read, v: View, h: Hit)
    requires ViewOk(run, v) && v.loaded.Some? && v.next < |v.loaded.value| && h in Coming(run, v)
    ensures HitKey(run.reverse)(Front(v)).AtMost(HitKey(run.reverse)(h))
  {
    OrderedAscends(run, v.index);
    hide OrderedIn, Bounded;
    var o := OrderedIn(run, v.index);
    var hits := Mapped(o, HitOf(v.index.chunkOffset));
    var i :| 0 <= i < |Coming(run, v)| && Coming(run, v)[i] == h;
    assert o[v.next..][i] == o[v.next + i];
    if i > 0 {
      assert HitKey(run.reverse)(hits[v.next]).AtMost(HitKey(run.reverse)(hits[v.next + i]));
    }
  }

  lemma FrontIsFirst(run: Read, vs: seq<View>)
    requires AllOk(run, vs) && vs != [] && Leads(vs) && vs[0].loaded.Some? && vs[0].next < |vs[0].loaded.value|
    ensures forall h :: h in Bag(run, vs) ==> HitKey(run.reverse)(Front(vs[0])).AtMost(HitKey(run.reverse)(h))
  {
    hide ViewOk, Coming, OrderedIn, HitKey, CompareViews, Bag;
    var front := Front(vs[0]);
    forall h | h in Bag(run, vs) ensures HitKey(run.reverse)(front).AtMost(HitKey(run.reverse)(h)) {
      var i := BagOrigin(run, vs, h);
      if i == 0 {
        FrontBeforeOwn(run, vs[0], h);
      } else {
        GivingHolds(run, vs[i], h);
        FrontBeforeOther(run, vs[0], vs[i], h);
      }
    }
  }

  function Advanced(v: View): View {
    v.(next := v.next + 1)
  }

  lemma FrontIsNext(run: Read, v: View)
    requires ViewOk(run, v) && v.loaded.Some? && v.next < |v.loaded.value|
    ensures ViewOk(run, Advanced(v)) && v.next + 1 <= |OrderedIn(run, v.index)|
    ensures Coming(run, v) == [Front(v)] + Coming(run, Advanced(v))
    ensures multiset(Coming(run, v)) == multiset{Front(v)} + multiset(Coming(run, Advanced(v)))
  {
    hide OrderedIn, Bounded;
    var o := OrderedIn(run, v.index);
    assert o[v.next..] == [o[v.next]] + o[v.next + 1..];
    assert Coming(run, v) == [Front(v)] + Coming(run, Advanced(v));
  }

  // ---------- loading, removing, rearranging ----------

  lemma LoadKeepsBag(run: Read, vs: seq<View>)
    requires AllOk(run, vs) && vs != [] && vs[0].loaded.None?
    ensures var t := vs[0 := vs[0].(loaded := Some(OrderedIn(run, vs[0].index)))];
            AllOk(run, t) && Bag(run, t) == Bag(run, vs) && Unloaded(t) + 1 == Unloaded(vs)
  {
    hide OrderedIn, Bounded, Bag, Unloaded;
    BagOfTop(run, vs, vs[0].(loaded := Some(OrderedIn(run, vs[0].index))));
  }

  lemma RemoveKeepsBag(run: Read, vs: seq<View>)
    requires AllOk(run, vs) && vs != [] && vs[0].loaded.Some? && vs[0].next == |vs[0].loaded.value|
    ensures AllOk(run, vs[1..]) && Bag(run, vs[1..]) == Bag(run, vs) && Unloaded(vs[1..]) == Unloaded(vs)
  {
    hide OrderedIn, Bounded, Bag, Unloaded;
    BagOfTop(run, vs, vs[0]);
    assert OrderedIn(run, vs[0].index)[vs[0].next..] == [];
  }

  // ---------- chunks that follow each other ----------

  /** All of `a` comes before all of `b`, ties included. */
  predicate Precedes(a: R.ChunkIndexRecord, b: R.ChunkIndexRecord) {
    a.endTime < b.startTime || (a.endTime == b.startTime && a.chunkOffset < b.chunkOffset)
  }

  ghost predicate Separated(vs: seq<View>) {
    forall i, j :: 0 <= i < |vs| && 0 <= j < |vs| && i != j && Holds(vs[i].index) && Holds(vs[j].index) ==>
      Precedes(vs[i].index, vs[j].index) || Precedes(vs[j].index, vs[i].index)
  }

  /** A cursor's sort time lies in its chunk's range. */
  lemma SortTimeInChunk(run: Read, v: View)
    requires ViewOk(run, v)
    ensures v.index.startTime <= SortTime(v) <= v.index.endTime
  {
    OrderedAreEntries(run, v.index);
    hide OrderedIn, Entries;
  }

  /** Of two cursors of chunks that follow each other the nearer one stays first, whatever
      was read from it. */
  lemma FirstStaysFirst(run: Read, v: View, w: View, u: View)
    requires ViewOk(run, v) && ViewOk(run, w) && ViewOk(run, u) && v.index == w.index
    requires Precedes(v.index, u.index) || Precedes(u.index, v.index)
    requires CompareViews(v, u) < 0
    ensures CompareViews(w, u) < 0
  {
    SortTimeInChunk(run, v);
    SortTimeInChunk(run, w);
    SortTimeInChunk(run, u);
    hide OrderedIn, Entries, SortTime;
  }

  /** Whatever is read from the top cursor, it stays ahead of all others that hold something. */
  lemma TopStaysAhead(run: Read, vs: seq<View>, w: View)
    requires AllOk(run, vs) && vs != [] && Leads(vs) && Separated(vs) && ViewOk(run, w) && w.index == vs[0].index
    requires Holds(w.index)
    ensures Leads(vs[0 := w])
  {
    hide ViewOk, CompareViews, Precedes, Holds;
    forall i | 1 <= i < |vs| && Holds(vs[i].index) ensures CompareViews(w, vs[i]) < 0 {
      FirstStaysFirst(run, vs[0], w, vs[i]);
    }
  }

  // ---------- the heap ----------

  /** The cursors as values. */
  ghost predicate Sees(nodes: seq<ChunkCursor>, vs: seq<View>)
    reads nodes
  {
    |vs| == |nodes| && forall i :: 0 <= i < |nodes| ==> nodes[i].Look() == vs[i]
  }

  /** Cursors of different chunks, read in one direction. */
  ghost predicate Comparable(vs: seq<View>) {
    forall i, j :: 0 <= i < j < |vs| ==>
      vs[i].reverse == vs[j].reverse && vs[i].index.chunkOffset != vs[j].index.chunkOffset
  }

  /** Where the least of the first `n` views is. */
  function LeastAt(vs: seq<View>, n: nat): (m: nat)
    requires n <= |vs|
    ensures n > 0 ==> m < n
  {
    if n <= 1 then 0
    else
      var m := LeastAt(vs, n - 1);
      if CompareViews(vs[n - 1], vs[m]) < 0 then n - 1 else m
  }

  /** The first and the m-th exchanged. */
  function Swapped<T>(s: seq<T>, m: nat): seq<T>
    requires s == [] || m < |s|
  {
    if s == [] then [] else s[0 := s[m]][m := s[0]]
  }

  /** The cursors with the least one brought to the top. */
  function Topped(vs: seq<View>): seq<View> {
    Swapped(vs, LeastAt(vs, |vs|))
  }

  lemma {:induction false} LeastAtIsLeast(vs: seq<View>, n: nat, k: nat)
    requires k < n <= |vs| && Comparable(vs)
    ensures k != LeastAt(vs, n) ==> CompareViews(vs[LeastAt(vs, n)], vs[k]) < 0
    decreases n
  {
    hide CompareViews;
    if n > 1 {
      var m := LeastAt(vs, n - 1);
      ComparesStrictly(vs[n - 1], vs[m], vs[k]);
      if k < n - 1 {
        LeastAtIsLeast(vs, n - 1, k);
      }
      ComparesStrictly(vs[m], vs[n - 1], vs[n - 1]);
    }
  }

  lemma ToppedIsLeast(vs: seq<View>)
    requires Comparable(vs)
    ensures Least(Topped(vs))
  {
    hide CompareViews, LeastAt;
    if vs != [] {
      var m := LeastAt(vs, |vs|);
      forall k | 0 <= k < |vs| && k != m ensures CompareViews(vs[m], vs[k]) < 0 {
        LeastAtIsLeast(vs, |vs|, k);
      }
    }
  }

  /** Rearranging a heap whose top is already the least leaves it as it is, so skipping it then
      changes nothing. */
  lemma LeastStays(vs: seq<View>)
    requires Least(vs) && Comparable(vs)
    ensures Topped(vs) == vs
  {
    hide CompareViews, LeastAt;
    var m := LeastAt(vs, |vs|);
    if vs != [] && m != 0 {
      LeastAtIsLeast(vs, |vs|, 0);
      ComparesStrictly(vs[0], vs[m], vs[0]);
    }
  }

  /** The library heap, seen from outside: the first node is the least as of the last
      rearrangement; the order of the others is of no concern. */
  class Heap {
    var nodes: seq<ChunkCursor>

    constructor ()
      ensures nodes == []
    {
      nodes := [];
    }

    /** Brings the least cursor to the top. */
    method Rearrange(ghost vs: seq<View>)
      requires Sees(nodes, vs) && Comparable(vs)
      modifies this
      ensures Sees(nodes, Topped(vs)) && nodes == Swapped(old(nodes), LeastAt(vs, |vs|))
    {
      hide CompareViews;
      if nodes == [] {
        return;
      }
      var least, i := 0, 1;
      while i < |nodes|
        invariant least < i <= |nodes| && nodes == old(nodes)
        invariant least == LeastAt(vs, i)
      {
        var diff := nodes[i].Compare(nodes[least]);
        if diff < 0 {
          least := i;
        }
        i := i + 1;
      }
      nodes := nodes[0 := nodes[least]][least := nodes[0]];
    }
  }

  /** Swapping two nodes permutes their views. */
  lemma SwapPermutes(vs: seq<View>, m: nat)
    requires m < |vs|
    ensures multiset(Swapped(vs, m)) == multiset(vs)
  {
    var t := vs[0 := vs[m]];
    assert multiset(t) == multiset(vs) - multiset{vs[0]} + multiset{vs[m]};
    assert multiset(t[m := vs[0]]) == multiset(t) - multiset{t[m]} + multiset{vs[0]};
  }

  lemma ToppedPermutes(vs: seq<View>)
    ensures multiset(Topped(vs)) == multiset(vs)
  {
    hide LeastAt;
    if vs != [] {
      SwapPermutes(vs, LeastAt(vs, |vs|));
    }
  }

  lemma OkComparable(run: Read, vs: seq<View>)
    requires AllOk(run, vs)
    ensures Comparable(vs)
  {
    hide Bounded, OrderedIn;
  }

  /** Bringing the least cursor to the top changes nothing but the order of the heap. */
  lemma ToppedKeeps(run: Read, vs: seq<View>)
    requires AllOk(run, vs)
    ensures var t := Topped(vs);
            AllOk(run, t) && Bag(run, t) == Bag(run, vs) && Unloaded(t) == Unloaded(vs) && (Separated(vs) ==> Separated(t)) &&
            Least(t)
  {
    hide ViewOk, Bag, Unloaded, Precedes, LeastAt, CompareViews;
    OkComparable(run, vs);
    ToppedIsLeast(vs);
    ToppedPermutes(vs);
    BagPermutes(run, vs, Topped(vs));
  }
}
