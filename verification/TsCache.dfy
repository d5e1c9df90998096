/** The TypeScript `CachedReadable`: reads are answered from memory when an entry at the same
    offset is long enough, and the memory stays within the limit. */
module TsCache {
  import opened Bytes

  /** The number of bytes really held. */
  ghost function CachedBytes(cache: map<nat, bytes>): nat
    decreases |cache|
  {
    if cache == map[] then 0
    else
      var k :| k in cache;
      |cache[k]| + CachedBytes(cache - {k})
  }

  lemma {:induction false} CachedBytesWithout(cache: map<nat, bytes>, k: nat)
    requires k in cache
    ensures CachedBytes(cache) == |cache[k]| + CachedBytes(cache - {k})
    decreases |cache|
  {
    var j :| j in cache && CachedBytes(cache) == |cache[j]| + CachedBytes(cache - {j});
    if j != k {
      CachedBytesWithout(cache - {j}, k);
      CachedBytesWithout(cache - {k}, j);
      assert cache - {j} - {k} == cache - {k} - {j};
    }
  }

  /** An entry that is new or replaced. */
  lemma CachedBytesWith(cache: map<nat, bytes>, k: nat, data: bytes)
    ensures CachedBytes(cache[k := data]) + (if k in cache then |cache[k]| else 0) == CachedBytes(cache) + |data|
  {
    var t := cache[k := data];
    CachedBytesWithout(t, k);
    if k in cache {
      CachedBytesWithout(cache, k);
      assert t - {k} == cache - {k};
    } else {
      assert t - {k} == cache;
    }
  }

  class CachedReadable {
    const source: bytes
    const maxCacheSize: nat
    var cache: map<nat, bytes>
    var currentCacheSize: nat
    ghost var replaced: nat

    /** Entries are bytes of the source. The counter is what is held plus what was held by
        entries that longer reads have replaced, and it stays within the limit. */
    ghost predicate Valid()
      reads this
    {
      && (forall k :: k in cache ==> k + |cache[k]| <= |source| && cache[k] == source[k..k + |cache[k]|])
      && currentCacheSize == CachedBytes(cache) + replaced
      && currentCacheSize <= maxCacheSize
    }

    constructor (source: bytes, maxCacheSize: nat)
      ensures Valid() && this.source == source && this.maxCacheSize == maxCacheSize && cache == map[]
      ensures currentCacheSize == 0
    {
      this.source, this.maxCacheSize := source, maxCacheSize;
      cache, currentCacheSize, replaced := map[], 0, 0;
    }

    /** The bytes the source would give, from memory if they are there. */
    method Read(offset: nat, size: nat) returns (data: bytes)
      requires Valid() && offset + size <= |source|
      modifies this
      ensures Valid() && data == source[offset..offset + size]
      ensures CachedBytes(cache) <= currentCacheSize <= maxCacheSize
      ensures offset in old(cache) && |old(cache)[offset]| >= size ==>
                cache == old(cache) && currentCacheSize == old(currentCacheSize)
      ensures !(offset in old(cache) && |old(cache)[offset]| >= size) && old(currentCacheSize) + size <= maxCacheSize ==>
                currentCacheSize == old(currentCacheSize) + size
      ensures !(offset in old(cache) && |old(cache)[offset]| >= size) ==>
                cache == if old(currentCacheSize) + size <= maxCacheSize then old(cache)[offset := data] else old(cache)
    {
      if offset in cache && |cache[offset]| >= size {
        var cached := cache[offset];
        data := if |cached| == size then cached else cached[..size];
        return;
      }
      data := source[offset..offset + size];
      if currentCacheSize + |data| <= maxCacheSize {
        CachedBytesWith(cache, offset, data);
        replaced := replaced + if offset in cache then |cache[offset]| else 0;
        cache := cache[offset := data];
        currentCacheSize := currentCacheSize + |data|;
      }
    }
  }

  /** The counter overstates what is held exactly when a longer read has replaced a
      non-empty entry: here two reads at one offset, of which only the second is held. */
  method ReadTwice(source: bytes, limit: nat) returns (held: nat, counted: nat)
    requires |source| >= 2 && limit >= 3
    ensures held == 2 && counted == 3
  {
    var c := new CachedReadable(source, limit);
    var first := c.Read(0, 1);
    var second := c.Read(0, 2);
    CachedBytesWith(map[], 0, first);
    CachedBytesWith(map[0 := first], 0, second);
    held, counted := |c.cache[0]|, c.currentCacheSize;
  }
}
