/** The TypeScript `ChunkCursor`: the reader's position in one chunk. Message indexes are
    loaded when the chunk's turn comes, sorted, reversed if need be, and cut to the time
    range by two binary searches. */
module TsCursor {
  import opened Bytes
  import opened Sorting
  import R = Records

  // ---------- message indexes of a chunk ----------

  /** Log time and offset in the uncompressed chunk. */
  type Entry = (nat, nat)

  /** A message index record and where it starts in the file. */
  datatype IndexRecord = IndexRecord(at: nat, channel: nat, entries: seq<Entry>)

  /** The message index region of every chunk, by the chunk's offset. */
  type Regions = map<nat, seq<IndexRecord>>

  function RegionOf(c: R.ChunkIndexRecord, regions: Regions): seq<IndexRecord> {
    if c.chunkOffset in regions then regions[c.chunkOffset] else []
  }

  predicate IsRelevant(channel: nat, relevant: Option<set<nat>>) {
    relevant.None? || channel in relevant.value
  }

  /** The entries of the relevant records that start at or behind `from`, in file order. */
  function EntriesFrom(region: seq<IndexRecord>, relevant: Option<set<nat>>, from: nat): seq<Entry>
    decreases |region|
  {
    if region == [] then []
    else
      var n := |region| - 1;
      EntriesFrom(region[..n], relevant, from) +
      (if IsRelevant(region[n].channel, relevant) && region[n].at >= from then region[n].entries else [])
  }

  /** The chunk index lists every record of the region and has room for it. */
  ghost predicate Listed(c: R.ChunkIndexRecord, region: seq<IndexRecord>) {
    && (region != [] ==> c.indexLength > 0)
    && forall i :: 0 <= i < |region| ==> (region[i].channel, region[i].at) in c.indexOffsets
  }

  /** A chunk that claims messages by its times but has no message indexes: no cursor is made
      for it. */
  predicate Unindexed(c: R.ChunkIndexRecord) {
    c.indexLength == 0 && (c.startTime != 0 || c.endTime != 0)
  }

  /** Reading from the first relevant index on misses nothing that is relevant. */
  lemma {:induction false} LateStartMissesNothing(region: seq<IndexRecord>, relevant: Option<set<nat>>, from: nat)
    requires forall i :: 0 <= i < |region| && IsRelevant(region[i].channel, relevant) ==> from <= region[i].at
    ensures EntriesFrom(region, relevant, from) == EntriesFrom(region, relevant, 0)
    decreases |region|
  {
    if region != [] {
      LateStartMissesNothing(region[..|region| - 1], relevant, from);
    }
  }

  /** Without a relevant index there are no relevant entries. */
  lemma {:induction false} NothingRelevant(region: seq<IndexRecord>, relevant: Option<set<nat>>)
    requires forall i :: 0 <= i < |region| ==> !IsRelevant(region[i].channel, relevant)
    ensures EntriesFrom(region, relevant, 0) == []
    decreases |region|
  {
    if region != [] {
      NothingRelevant(region[..|region| - 1], relevant);
    }
  }

  // ---------- order and range ----------

  function EntryKey(): Entry -> Key {
    (e: Entry) => Key(e.0, e.1, 0)
  }

  /** The closed time range; absent ends are open. */
  function InRange(start: Option<int>, end: Option<int>): Entry -> bool {
    (e: Entry) => !(start.Some? && e.0 < start.value) && !(end.Some? && e.0 > end.value)
  }

  function Turned<T>(s: seq<T>, reverse: bool): seq<T> {
    if reverse then Reverse(s) else s
  }

  /** The entries a cursor walks through. */
  function Ordered(c: R.ChunkIndexRecord, regions: Regions, relevant: Option<set<nat>>, start: Option<int>, end: Option<int>,
                   reverse: bool): seq<Entry>
  {
    Turned(Sort(Kept(EntriesFrom(RegionOf(c, regions), relevant, 0), InRange(start, end)), EntryKey()), reverse)
  }

  /** A time as the binary searches see it. */
  function Sided(time: int, reverse: bool): int {
    if reverse then 0 - time else time
  }

  ghost predicate Ascends(s: seq<Entry>, reverse: bool) {
    forall i, j :: 0 <= i < j < |s| ==> Sided(s[i].0, reverse) <= Sided(s[j].0, reverse)
  }

  /** The first position whose time is not before `value`. */
  method SortedIndexBy(s: seq<Entry>, value: int, reverse: bool) returns (index: nat)
    requires Ascends(s, reverse)
    ensures index <= |s|
    ensures forall i :: 0 <= i < index ==> Sided(s[i].0, reverse) < Sided(value, reverse)
    ensures forall i :: index <= i < |s| ==> Sided(s[i].0, reverse) >= Sided(value, reverse)
  {
    var low, high := 0, |s|;
    while low < high
      invariant low <= high <= |s|
      invariant forall i :: 0 <= i < low ==> Sided(s[i].0, reverse) < Sided(value, reverse)
      invariant forall i :: high <= i < |s| ==> Sided(s[i].0, reverse) >= Sided(value, reverse)
    {
      var mid := (low + high) / 2;
      if Sided(s[mid].0, reverse) < Sided(value, reverse) {
        low := mid + 1;
      } else {
        high := mid;
      }
    }
    index := high;
  }

  /** The first position whose time is behind `value`. */
  method SortedLastIndexBy(s: seq<Entry>, value: int, reverse: bool) returns (index: nat)
    requires Ascends(s, reverse)
    ensures index <= |s|
    ensures forall i :: 0 <= i < index ==> Sided(s[i].0, reverse) <= Sided(value, reverse)
    ensures forall i :: index <= i < |s| ==> Sided(s[i].0, reverse) > Sided(value, reverse)
  {
    var low, high := 0, |s|;
    while low < high
      invariant low <= high <= |s|
      invariant forall i :: 0 <= i < low ==> Sided(s[i].0, reverse) <= Sided(value, reverse)
      invariant forall i :: high <= i < |s| ==> Sided(s[i].0, reverse) > Sided(value, reverse)
    {
      var mid := (low + high) / 2;
      if Sided(s[mid].0, reverse) <= Sided(value, reverse) {
        low := mid + 1;
      } else {
        high := mid;
      }
    }
    index := high;
  }

  /** JavaScript's slice: empty when the end is not behind the start. */
  function Slice(s: seq<Entry>, from: nat, to: nat): seq<Entry>
    requires from <= |s| && to <= |s|
  {
    if from <= to then s[from..to] else []
  }

  lemma {:induction false} KeptAll<T>(s: seq<T>, p: T -> bool)
    requires forall i :: 0 <= i < |s| ==> p(s[i])
    ensures Kept(s, p) == s
    decreases |s|
  {
    if s != [] {
      KeptAll(s[..|s| - 1], p);
      assert s == s[..|s| - 1] + [s[|s| - 1]];
    }
  }

  lemma {:induction false} KeptNone<T>(s: seq<T>, p: T -> bool)
    requires forall i :: 0 <= i < |s| ==> !p(s[i])
    ensures Kept(s, p) == []
    decreases |s|
  {
    if s != [] {
      KeptNone(s[..|s| - 1], p);
    }
  }

  lemma KeptMiddle(a: seq<Entry>, b: seq<Entry>, c: seq<Entry>, p: Entry -> bool)
    requires (forall i :: 0 <= i < |a| ==> !p(a[i])) && (forall i :: 0 <= i < |b| ==> p(b[i])) && forall i :: 0 <= i < |c| ==> !p(c[i])
    ensures Kept((a + b) + c, p) == b
  {
    hide Kept;
    KeptConcat(a + b, c, p);
    KeptConcat(a, b, p);
    KeptNone(a, p);
    KeptAll(b, p);
    KeptNone(c, p);
    Alone(b);
  }

  /** Cutting a list at the two positions keeps what lies between them. */
  lemma SliceIsKept(s: seq<Entry>, from: nat, to: nat, p: Entry -> bool)
    requires from <= |s| && to <= |s|
    requires forall i :: 0 <= i < |s| ==> (p(s[i]) <==> from <= i < to)
    ensures Slice(s, from, to) == Kept(s, p)
  {
    hide Kept;
    if from <= to {
      var a, b, c := s[..from], s[from..to], s[to..];
      assert s == (a + b) + c;
      KeptMiddle(a, b, c, p);
    } else {
      KeptNone(s, p);
    }
  }

  lemma Alone(b: seq<Entry>)
    ensures [] + b + [] == b
  {
  }

  lemma {:induction false} KeptReverse<T>(s: seq<T>, p: T -> bool)
    ensures Kept(Reverse(s), p) == Reverse(Kept(s, p))
    decreases |s|
  {
    if s == [] {
      assert Reverse(s) == [];
    } else {
      var init, last := s[..|s| - 1], s[|s| - 1];
      assert Reverse(s) == [last] + Reverse(init);
      KeptConcat([last], Reverse(init), p);
      KeptReverse(init, p);
      assert [last][..0] == [];
      assert Kept([last], p) == if p(last) then [last] else [];
      if p(last) {
        assert Reverse(Kept(init, p) + [last]) == [last] + Reverse(Kept(init, p));
      } else {
        assert [] + Reverse(Kept(init, p)) == Reverse(Kept(init, p));
      }
    }
  }

  lemma SortedAscends(s: seq<Entry>, reverse: bool)
    requires Sorted(s, EntryKey())
    ensures Ascends(Turned(s, reverse), reverse)
  {
    forall i, j | 0 <= i < j < |s|
      ensures s[i].0 <= s[j].0
    {
      assert EntryKey()(s[i]).AtMost(EntryKey()(s[j]));
    }
  }

  /** The sorted and turned entries in range are those of the sorted entries. */
  lemma RangeOfSorted(all: seq<Entry>, start: Option<int>, end: Option<int>, reverse: bool)
    ensures Kept(Turned(Sort(all, EntryKey()), reverse), InRange(start, end)) ==
            Turned(Sort(Kept(all, InRange(start, end)), EntryKey()), reverse)
  {
    hide Sort, EntryKey, InRange;
    SortKept(all, InRange(start, end), EntryKey());
    if reverse {
      KeptReverse(Sort(all, EntryKey()), InRange(start, end));
    }
  }

  // ---------- the cursor ----------

  /** The fields of a cursor at one moment. */
  datatype View = View(index: R.ChunkIndexRecord, reverse: bool, loaded: Option<seq<Entry>>, next: nat)

  /** The time a cursor is sorted by: that of its next message, or the end of the chunk's
      range on which reading starts. */
  function SortTime(v: View): nat {
    if v.loaded.Some? && v.next < |v.loaded.value| then v.loaded.value[v.next].0
    else if v.reverse then v.index.endTime
    else v.index.startTime
  }

  /** Negative if `a` comes first: by time, then by offset in the file. */
  function CompareViews(a: View, b: View): int {
    var byTime := SortTime(a) as int - SortTime(b) as int;
    var diff := if byTime == 0 then a.index.chunkOffset as int - b.index.chunkOffset as int else byTime;
    if a.reverse then 0 - diff else diff
  }

  class ChunkCursor {
    const chunkIndex: R.ChunkIndexRecord
    const relevant: Option<set<nat>>
    const start: Option<int>
    const end: Option<int>
    const reverse: bool
    const readFullRange: bool
    var ordered: Option<seq<Entry>>
    var next: nat

    ghost function Look(): View
      reads this
    {
      View(chunkIndex, reverse, ordered, next)
    }

    /** The checked construction: refused for a chunk without message indexes whose times are
        not both zero. */
    static method Create(c: R.ChunkIndexRecord, relevant: Option<set<nat>>, start: Option<int>, end: Option<int>, reverse: bool,
                         readFullRange: bool) returns (cursor: Option<ChunkCursor>)
      ensures cursor.None? <==> Unindexed(c)
      ensures cursor.Some? ==>
                var v := cursor.value;
                fresh(v) && v.Look() == View(c, reverse, None, 0) && v.relevant == relevant && v.start == start && v.end == end
    {
      if c.indexLength == 0 {
        if c.startTime != 0 || c.endTime != 0 {
          return None;
        }
      }
      var v := new ChunkCursor(c, relevant, start, end, reverse, readFullRange);
      cursor := Some(v);
    }

    constructor (c: R.ChunkIndexRecord, relevant: Option<set<nat>>, start: Option<int>, end: Option<int>, reverse: bool,
                 readFullRange: bool)
      ensures Look() == View(c, reverse, None, 0) && this.relevant == relevant && this.start == start && this.end == end
    {
      chunkIndex, this.relevant, this.start, this.end := c, relevant, start, end;
      this.reverse, this.readFullRange := reverse, readFullRange;
      ordered, next := None, 0;
    }

    method GetSortTime() returns (t: nat)
      ensures t == SortTime(Look())
    {
      if ordered.Some? && |ordered.value| > 0 && next < |ordered.value| {
        return ordered.value[next].0;
      }
      t := if reverse then chunkIndex.endTime else chunkIndex.startTime;
    }

    method Compare(other: ChunkCursor) returns (diff: int)
      requires reverse == other.reverse
      ensures diff == CompareViews(Look(), other.Look())
    {
      var mine := GetSortTime();
      var theirs := other.GetSortTime();
      diff := mine as int - theirs as int;
      if diff == 0 {
        diff := chunkIndex.chunkOffset as int - other.chunkIndex.chunkOffset as int;
      }
      diff := if reverse then 0 - diff else diff;
    }

    method HasMoreMessages() returns (more: bool)
      requires ordered.Some?
      ensures more <==> next < |ordered.value|
    {
      more := next < |ordered.value|;
    }

    method PopMessage() returns (e: Entry)
      requires ordered.Some? && next < |ordered.value|
      modifies this
      ensures e == old(ordered.value[next]) && Look() == old(Look()).(next := old(next) + 1)
    {
      e := ordered.value[next];
      next := next + 1;
    }

    /** The first message index record that must be read, if there is one. */
    method RelevantStart() returns (from: Option<nat>)
      ensures from.None? ==> forall p :: p in chunkIndex.indexOffsets ==> !IsRelevant(p.0, relevant)
      ensures from.Some? ==> forall p :: p in chunkIndex.indexOffsets && IsRelevant(p.0, relevant) ==> from.value <= p.1
    {
      var offsets := chunkIndex.indexOffsets;
      from := None;
      var i := 0;
      while i < |offsets|
        invariant i <= |offsets|
        invariant from.None? ==> forall k :: 0 <= k < i ==> !IsRelevant(offsets[k].0, relevant)
        invariant from.Some? ==> forall k :: 0 <= k < i && IsRelevant(offsets[k].0, relevant) ==> from.value <= offsets[k].1
      {
        if readFullRange || IsRelevant(offsets[i].0, relevant) {
          if from.None? || offsets[i].1 < from.value {
            from := Some(offsets[i].1);
          }
        }
        i := i + 1;
      }
    }

    /** Loads, sorts, turns and cuts the chunk's message indexes. The check of the first and
        last entry fails only on a chunk index that does not bound its messages. */
    method LoadMessageIndexes(regions: Regions) returns (ok: bool)
      requires Listed(chunkIndex, RegionOf(chunkIndex, regions))
      modifies this
      ensures ok ==> Look() == old(Look()).(loaded := Some(Ordered(chunkIndex, regions, relevant, start, end, reverse)))
      ensures (forall e :: e in EntriesFrom(RegionOf(chunkIndex, regions), relevant, 0) ==>
                 chunkIndex.startTime <= e.0 <= chunkIndex.endTime) ==> ok
    {
      hide Sort, Kept, EntriesFrom, EntryKey, InRange, Ordered, Listed, Sorted;
      var region := RegionOf(chunkIndex, regions);
      var from := RelevantStart();
      if from.None? {
        NothingToRead(chunkIndex, regions, relevant, start, end, reverse);
        ordered := Some([]);
        return true;
      }
      LateStart(chunkIndex, region, relevant, from.value);
      var all := EntriesFrom(region, relevant, from.value);
      var sorted := Sort(all, EntryKey());
      SortSorts(all, EntryKey());
      SortPermutes(all, EntryKey());
      SortedAscends(sorted, reverse);
      RangeOfSorted(all, start, end, reverse);
      OrderedIs(chunkIndex, regions, relevant, start, end, reverse);
      var turned := Turned(sorted, reverse);
      if turned == [] {
        NothingInRange(start, end);
        ordered := Some(turned);
        return true;
      }
      TurnedMembers(all, sorted, reverse);
      if turned[0].0 < chunkIndex.startTime {
        assert turned[0] in all;
        return false;
      }
      if turned[|turned| - 1].0 > chunkIndex.endTime {
        assert turned[|turned| - 1] in all;
        return false;
      }
      var first := if reverse then end else start;
      var last := if reverse then start else end;
      var startIndex, endIndex := 0, |turned|;
      if first.Some? {
        startIndex := SortedIndexBy(turned, first.value, reverse);
      }
      if last.Some? {
        endIndex := SortedLastIndexBy(turned, last.value, reverse);
      }
      RangeIsBetween(turned, start, end, reverse, startIndex, endIndex);
      SliceIsKept(turned, startIndex, endIndex, InRange(start, end));
      ordered := Some(Slice(turned, startIndex, endIndex));
      ok := true;
    }
  }

  lemma TurnedMembers(all: seq<Entry>, s: seq<Entry>, reverse: bool)
    requires multiset(s) == multiset(all)
    ensures forall i :: 0 <= i < |s| ==> Turned(s, reverse)[i] in all
  {
    forall i | 0 <= i < |s| ensures Turned(s, reverse)[i] in all {
      assert Turned(s, reverse)[i] in s;
      assert Turned(s, reverse)[i] in multiset(all);
    }
  }

  lemma NothingInRange(start: Option<int>, end: Option<int>)
    ensures Kept([], InRange(start, end)) == []
  {
  }

  lemma OrderedIs(c: R.ChunkIndexRecord, regions: Regions, relevant: Option<set<nat>>, start: Option<int>, end: Option<int>,
                  reverse: bool)
    ensures Ordered(c, regions, relevant, start, end, reverse) ==
            Turned(Sort(Kept(EntriesFrom(RegionOf(c, regions), relevant, 0), InRange(start, end)), EntryKey()), reverse)
  {
  }

  lemma LateStart(c: R.ChunkIndexRecord, region: seq<IndexRecord>, relevant: Option<set<nat>>, from: nat)
    requires Listed(c, region)
    requires forall p :: p in c.indexOffsets && IsRelevant(p.0, relevant) ==> from <= p.1
    ensures EntriesFrom(region, relevant, from) == EntriesFrom(region, relevant, 0)
  {
    LateStartMissesNothing(region, relevant, from);
  }

  lemma NothingToRead(c: R.ChunkIndexRecord, regions: Regions, relevant: Option<set<nat>>, start: Option<int>, end: Option<int>,
                      reverse: bool)
    requires Listed(c, RegionOf(c, regions))
    requires forall p :: p in c.indexOffsets ==> !IsRelevant(p.0, relevant)
    ensures Ordered(c, regions, relevant, start, end, reverse) == []
  {
    var region := RegionOf(c, regions);
    forall i | 0 <= i < |region| ensures !IsRelevant(region[i].channel, relevant) {
      assert (region[i].channel, region[i].at) in c.indexOffsets;
    }
    NothingRelevant(region, relevant);
  }

  /** The two positions delimit the time range. */
  lemma RangeIsBetween(s: seq<Entry>, start: Option<int>, end: Option<int>, reverse: bool, from: nat, to: nat)
    requires from <= |s| && to <= |s|
    requires var first := if reverse then end else start;
             if first.None? then from == 0
             else (forall i :: 0 <= i < from ==> Sided(s[i].0, reverse) < Sided(first.value, reverse)) &&
                  (forall i :: from <= i < |s| ==> Sided(s[i].0, reverse) >= Sided(first.value, reverse))
    requires var last := if reverse then start else end;
             if last.None? then to == |s|
             else (forall i :: 0 <= i < to ==> Sided(s[i].0, reverse) <= Sided(last.value, reverse)) &&
                  (forall i :: to <= i < |s| ==> Sided(s[i].0, reverse) > Sided(last.value, reverse))
    ensures forall i :: 0 <= i < |s| ==> (InRange(start, end)(s[i]) <==> from <= i < to)
  {
  }
}
