/** How the Rust writer hands out and checks schema and channel IDs. */
module RustRegistry {
  import opened Format

  /** A map that can be read in both directions. */
  datatype BiMap<T(==)> = BiMap(left: map<T, nat>, right: map<nat, T>) {
    ghost predicate Consistent() {
      && (forall c :: c in left ==> left[c] in right && right[left[c]] == c)
      && (forall id :: id in right ==> right[id] in left && left[right[id]] == id)
    }

    function Insert(c: T, id: nat): BiMap<T> {
      BiMap(left[c := id], right[id := c])
    }
  }

  const LAST_ID: nat := 65535

  /** Content to the first ID it was written with, every written ID to the first ID of its
      content, and where the search for a free ID starts. */
  datatype Registry<T(==)> = Registry(canonical: BiMap<T>, all: map<nat, nat>, next: nat) {
    /** Content and canonical IDs are in bijection, every written ID leads to a canonical
        one, and canonical IDs lead to themselves. */
    ghost predicate Valid() {
      && canonical.Consistent()
      && (forall id :: id in all ==> id <= LAST_ID && all[id] in canonical.right)
      && (forall id :: id in canonical.right ==> id in all && all[id] == id)
      && 1 <= next <= LAST_ID
    }

    /** The content an ID stands for. */
    function Content(id: nat): T
      requires Valid() && id in all
    {
      canonical.right[all[id]]
    }

    predicate Knows(c: T) {
      c in canonical.left
    }

    /** Registers `c` under an ID that is in use by nothing. */
    function Registered(c: T, id: nat): Registry<T> {
      Registry(canonical.Insert(c, id), all[id := id], next)
    }

    /** Registers a further ID for known content. */
    function Aliased(c: T, id: nat): Registry<T>
      requires Knows(c)
    {
      Registry(canonical, all[id := canonical.left[c]], next)
    }
  }

  function Empty<T(==)>(): Registry<T> {
    Registry(BiMap(map[], map[]), map[], 1)
  }

  /** The first ID from `next` on that is free, or the last ID when none is. */
  function NextFree(all: map<nat, nat>, next: nat): (n: nat)
    requires next <= LAST_ID
    ensures next <= n <= LAST_ID
    ensures forall i :: next <= i < n ==> i in all
    ensures n !in all || n == LAST_ID
    decreases LAST_ID - next
  {
    if next in all && next < LAST_ID then NextFree(all, next + 1) else next
  }

  /** The search as the writer runs it. */
  method FindFree(all: map<nat, nat>, next: nat) returns (n: nat)
    requires next <= LAST_ID
    ensures n == NextFree(all, next)
  {
    n := next;
    while n in all && n < LAST_ID
      invariant next <= n <= LAST_ID
      invariant NextFree(all, n) == NextFree(all, next)
      decreases LAST_ID - n
    {
      n := n + 1;
    }
  }

  /** Handing out the last ID overflows the 16-bit counter behind it. */
  predicate Overflows<T(==)>(r: Registry<T>, c: T)
    requires r.next <= LAST_ID
  {
    !r.Knows(c) && NextFree(r.all, r.next) == LAST_ID && LAST_ID !in r.all
  }

  datatype Added<T(==)> = Existing(id: nat) | Fresh(id: nat, registry: Registry<T>) | Full(registry: Registry<T>)

  /** Asking for an ID for some content. */
  function Add<T(==)>(r: Registry<T>, c: T): Added<T>
    requires r.next <= LAST_ID
  {
    if r.Knows(c) then Existing(r.canonical.left[c])
    else
      var n := NextFree(r.all, r.next);
      if n in r.all then Full(r.(next := n)) else Fresh(n, r.Registered(c, n).(next := n + 1))
  }

  datatype Offered<T(==)> = Agreed | Conflicting | Accepted(registry: Registry<T>)

  /** Offering content under an ID of the caller's choice. The writer panics when the ID is
      taken and the content has never been seen. */
  predicate OfferPanics<T(==)>(r: Registry<T>, id: nat, c: T) {
    id in r.all && !r.Knows(c)
  }

  function Offer<T(==)>(r: Registry<T>, id: nat, c: T): Offered<T>
    requires !OfferPanics(r, id, c)
  {
    if id in r.all then (if r.all[id] == r.canonical.left[c] then Agreed else Conflicting)
    else if r.Knows(c) then Accepted(r.Aliased(c, id))
    else Accepted(r.Registered(c, id))
  }

  /** Every ID of `before` is still there with the same content. */
  ghost predicate Keeps<T>(before: Registry<T>, later: Registry<T>)
    requires before.Valid() && later.Valid()
  {
    forall id :: id in before.all ==> id in later.all && later.Content(id) == before.Content(id)
  }

  lemma RegisteredKeeps<T>(r: Registry<T>, c: T, id: nat, next: nat)
    requires r.Valid() && !r.Knows(c) && id !in r.all && id <= LAST_ID && 1 <= next <= LAST_ID
    ensures var t := r.Registered(c, id).(next := next);
            t.Valid() && Keeps(r, t) && id in t.all && t.Content(id) == c
  {
    assert id !in r.canonical.right;
  }

  lemma AliasedKeeps<T>(r: Registry<T>, c: T, id: nat)
    requires r.Valid() && r.Knows(c) && id !in r.all && id <= LAST_ID
    ensures var t := r.Aliased(c, id);
            t.Valid() && Keeps(r, t) && id in t.all && t.Content(id) == c
  {
  }

  /** An ID handed out is free before and stands for the content afterwards; asking again
      gives the same ID; no other ID changes its meaning. Only a registry whose IDs from
      the search position on are all taken refuses. */
  lemma AddIsSound<T>(r: Registry<T>, c: T)
    requires r.Valid() && !Overflows(r, c)
    ensures match Add(r, c) {
      case Existing(id) => id in r.all && r.Content(id) == c
      case Fresh(id, t) => id !in r.all && t.Valid() && Keeps(r, t) && id in t.all && t.Content(id) == c &&
                           Add(t, c) == Existing(id)
      case Full(t) => t.Valid() && Keeps(r, t) && t.all == r.all && !r.Knows(c) &&
                      forall i :: r.next <= i <= LAST_ID ==> i in r.all
    }
  {
    if !r.Knows(c) {
      var n := NextFree(r.all, r.next);
      if n !in r.all {
        RegisteredKeeps(r, c, n, n + 1);
      }
    }
  }

  /** An offer is accepted or agreed to exactly when the ID is free or already stands for the
      same content, and afterwards it does. */
  lemma OfferIsSound<T>(r: Registry<T>, id: nat, c: T)
    requires r.Valid() && id <= LAST_ID && !OfferPanics(r, id, c)
    ensures match Offer(r, id, c) {
      case Agreed => id in r.all && r.Content(id) == c
      case Conflicting => id in r.all && r.Content(id) != c
      case Accepted(t) => id !in r.all && t.Valid() && Keeps(r, t) && id in t.all && t.Content(id) == c
    }
  {
    if id !in r.all {
      if r.Knows(c) {
        AliasedKeeps(r, c, id);
      } else {
        RegisteredKeeps(r, c, id, r.next);
      }
    }
  }

  lemma EmptyIsValid<T>()
    ensures Empty<T>().Valid()
  {
  }

  lemma KeepsTransitive<T>(a: Registry<T>, b: Registry<T>, c: Registry<T>)
    requires a.Valid() && b.Valid() && c.Valid() && Keeps(a, b) && Keeps(b, c)
    ensures Keeps(a, c)
  {
  }
}
