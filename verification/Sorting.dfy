/** Stable sorting by a three-part key, and the facts about it that justify merging lazily:
    what is already sorted stays, and what comes first can be delivered first. */
module Sorting {
  datatype Key = Key(major: int, minor: int, least: int) {
    predicate AtMost(other: Key) {
      major < other.major || (major == other.major &&
        (minor < other.minor || (minor == other.minor && least <= other.least)))
    }
  }

  ghost predicate Sorted<T>(s: seq<T>, key: T -> Key) {
    forall i, j :: 0 <= i < j < |s| ==> key(s[i]).AtMost(key(s[j]))
  }

  /** Every element of `a` may come before every element of `b`. */
  ghost predicate Before<T>(a: seq<T>, b: seq<T>, key: T -> Key) {
    forall i, j :: 0 <= i < |a| && 0 <= j < |b| ==> key(a[i]).AtMost(key(b[j]))
  }

  /** Places `x` behind the last element that may come before it. */
  function Insert<T>(s: seq<T>, x: T, key: T -> Key): (r: seq<T>)
    ensures |r| == |s| + 1
    decreases |s|
  {
    if s == [] then [x]
    else if key(s[|s| - 1]).AtMost(key(x)) then s + [x]
    else Insert(s[..|s| - 1], x, key) + [s[|s| - 1]]
  }

  /** Insertion sort; equal keys keep their order. */
  function Sort<T>(s: seq<T>, key: T -> Key): (r: seq<T>)
    ensures |r| == |s|
    decreases |s|
  {
    if s == [] then [] else Insert(Sort(s[..|s| - 1], key), s[|s| - 1], key)
  }

  lemma {:induction false} InsertPermutes<T>(s: seq<T>, x: T, key: T -> Key)
    ensures multiset(Insert(s, x, key)) == multiset(s) + multiset{x}
    decreases |s|
  {
    if s != [] && !key(s[|s| - 1]).AtMost(key(x)) {
      assert s == s[..|s| - 1] + [s[|s| - 1]];
      InsertPermutes(s[..|s| - 1], x, key);
    }
  }

  lemma {:induction false} SortPermutes<T>(s: seq<T>, key: T -> Key)
    ensures multiset(Sort(s, key)) == multiset(s)
    decreases |s|
  {
    if s != [] {
      assert s == s[..|s| - 1] + [s[|s| - 1]];
      SortPermutes(s[..|s| - 1], key);
      InsertPermutes(Sort(s[..|s| - 1], key), s[|s| - 1], key);
    }
  }

  lemma SortOfNone<T>(key: T -> Key)
    ensures Sort([], key) == []
  {
  }

  lemma SortOfMore<T>(s: seq<T>, x: T, key: T -> Key)
    ensures Sort(s + [x], key) == Insert(Sort(s, key), x, key)
  {
    hide Insert;
    assert (s + [x])[..|s|] == s;
  }

  lemma {:induction false} InsertSorted<T>(s: seq<T>, x: T, key: T -> Key)
    requires Sorted(s, key)
    ensures Sorted(Insert(s, x, key), key)
    decreases |s|
  {
    if s != [] && !key(s[|s| - 1]).AtMost(key(x)) {
      var init, last := s[..|s| - 1], s[|s| - 1];
      InsertSorted(init, x, key);
      InsertPermutes(init, x, key);
      var r := Insert(init, x, key);
      forall i | 0 <= i < |r|
        ensures key(r[i]).AtMost(key(last))
      {
        assert r[i] in multiset(r);
        if r[i] != x {
          assert r[i] in multiset(init);
        }
      }
    }
  }

  lemma {:induction false} SortSorts<T>(s: seq<T>, key: T -> Key)
    ensures Sorted(Sort(s, key), key)
    decreases |s|
  {
    if s != [] {
      SortSorts(s[..|s| - 1], key);
      InsertSorted(Sort(s[..|s| - 1], key), s[|s| - 1], key);
    }
  }

  lemma {:induction false} SortOfSorted<T>(s: seq<T>, key: T -> Key)
    requires Sorted(s, key)
    ensures Sort(s, key) == s
    decreases |s|
  {
    if s != [] {
      SortOfSorted(s[..|s| - 1], key);
      assert s == s[..|s| - 1] + [s[|s| - 1]];
    }
  }

  /** A front part that may come first is delivered first. */
  lemma {:induction false} InsertBehind<T>(front: seq<T>, s: seq<T>, x: T, key: T -> Key)
    requires forall i :: 0 <= i < |front| ==> key(front[i]).AtMost(key(x))
    ensures Insert(front + s, x, key) == front + Insert(s, x, key)
    decreases |s|
  {
    var all := front + s;
    if s == [] {
      assert all == front;
    } else {
      assert all[|all| - 1] == s[|s| - 1];
      assert all[..|all| - 1] == front + s[..|s| - 1];
      InsertBehind(front, s[..|s| - 1], x, key);
    }
  }

  lemma {:induction false} SortBehind<T>(front: seq<T>, s: seq<T>, key: T -> Key)
    requires Sorted(front, key)
    requires Before(front, s, key)
    ensures Sort(front + s, key) == front + Sort(s, key)
    decreases |s|
  {
    hide Sort, Insert;
    if s == [] {
      assert front + s == front;
      SortOfSorted(front, key);
      SortOfNone(key);
    } else {
      var init, last := s[..|s| - 1], s[|s| - 1];
      assert s == init + [last];
      assert front + s == (front + init) + [last];
      SortOfMore(init, last, key);
      SortOfMore(front + init, last, key);
      SortBehind(front, init, key);
      InsertBehind(front, Sort(init, key), last, key);
    }
  }

  /** Sorting a front part early changes nothing. */
  lemma {:induction false} SortOfSortedFront<T>(a: seq<T>, b: seq<T>, key: T -> Key)
    ensures Sort(Sort(a, key) + b, key) == Sort(a + b, key)
    decreases |b|
  {
    hide Sort, Insert;
    if b == [] {
      assert Sort(a, key) + b == Sort(a, key);
      assert a + b == a;
      SortSorts(a, key);
      SortOfSorted(Sort(a, key), key);
    } else {
      var init, last := b[..|b| - 1], b[|b| - 1];
      assert b == init + [last];
      assert a + b == (a + init) + [last];
      assert Sort(a, key) + b == (Sort(a, key) + init) + [last];
      SortOfMore(a + init, last, key);
      SortOfMore(Sort(a, key) + init, last, key);
      SortOfSortedFront(a, init, key);
    }
  }

  lemma SortedParts<T>(a: seq<T>, b: seq<T>, key: T -> Key)
    requires Sorted(a + b, key)
    ensures Sorted(a, key) && Sorted(b, key) && Before(a, b, key)
  {
    var all := a + b;
    forall i, j | 0 <= i < j < |a|
      ensures key(a[i]).AtMost(key(a[j]))
    {
      assert all[i] == a[i] && all[j] == a[j];
    }
    forall i, j | 0 <= i < j < |b|
      ensures key(b[i]).AtMost(key(b[j]))
    {
      assert all[|a| + i] == b[i] && all[|a| + j] == b[j];
    }
    forall i, j | 0 <= i < |a| && 0 <= j < |b|
      ensures key(a[i]).AtMost(key(b[j]))
    {
      assert all[i] == a[i] && all[|a| + j] == b[j];
    }
  }

  lemma BeforeBoth<T>(a: seq<T>, b: seq<T>, c: seq<T>, key: T -> Key)
    requires Before(a, b, key) && Before(a, c, key)
    ensures Before(a, b + c, key)
  {
  }

  /** Delivering a sorted front part, and sorting what is pending together with later
      arrivals, continues the sort of everything. */
  lemma SortContinues<T>(arrived: seq<T>, delivered: seq<T>, pending: seq<T>, more: seq<T>, key: T -> Key)
    requires delivered + pending == Sort(arrived, key)
    requires Before(delivered, more, key)
    ensures delivered + Sort(pending + more, key) == Sort(arrived + more, key)
  {
    hide Sort;
    SortSorts(arrived, key);
    SortedParts(delivered, pending, key);
    BeforeBoth(delivered, pending, more, key);
    hide *;
    SortOfSortedFront(arrived, more, key);
    assert (delivered + pending) + more == delivered + (pending + more);
    SortBehind(delivered, pending + more, key);
  }

  // ---------- what a stable sort is ----------

  /** The elements of `s` with a given key, in order. */
  ghost function WithKey<T>(s: seq<T>, k: Key, key: T -> Key): seq<T>
    decreases |s|
  {
    if s == [] then []
    else if key(s[|s| - 1]) == k then WithKey(s[..|s| - 1], k, key) + [s[|s| - 1]]
    else WithKey(s[..|s| - 1], k, key)
  }

  lemma {:induction false} InsertIsStable<T>(s: seq<T>, x: T, k: Key, key: T -> Key)
    requires Sorted(s, key)
    ensures WithKey(Insert(s, x, key), k, key) == WithKey(s + [x], k, key)
    decreases |s|
  {
    assert (s + [x])[..|s|] == s;
    if s == [] {
    } else if key(s[|s| - 1]).AtMost(key(x)) {
    } else {
      var init, last := s[..|s| - 1], s[|s| - 1];
      InsertIsStable(init, x, k, key);
      assert (init + [x])[..|init|] == init;
      assert (Insert(init, x, key) + [last])[..|s|] == Insert(init, x, key);
      if k == key(x) {
        assert WithKey(init + [x], k, key) == WithKey(init, k, key) + [x];
        assert key(last) != k;
      }
    }
  }

  /** Elements with equal keys keep their order. With SortSorts and the permutation that
      Sort promises, this determines the result. */
  lemma {:induction false} SortIsStable<T>(s: seq<T>, k: Key, key: T -> Key)
    ensures WithKey(Sort(s, key), k, key) == WithKey(s, k, key)
    decreases |s|
  {
    if s != [] {
      var init, last := s[..|s| - 1], s[|s| - 1];
      SortIsStable(init, k, key);
      SortSorts(init, key);
      InsertIsStable(Sort(init, key), last, k, key);
      assert (Sort(init, key) + [last])[..|init|] == Sort(init, key);
    }
  }

  /** The key tells elements apart. */
  ghost predicate KeyIdentifies<T>(s: seq<T>, key: T -> Key) {
    forall i, j :: 0 <= i < |s| && 0 <= j < |s| && key(s[i]) == key(s[j]) ==> s[i] == s[j]
  }

  /** Sorted permutations are equal when the key tells elements apart. */
  lemma {:induction false} SortedIsUnique<T>(a: seq<T>, b: seq<T>, key: T -> Key)
    requires Sorted(a, key) && Sorted(b, key)
    requires multiset(a) == multiset(b)
    requires KeyIdentifies(a, key)
    ensures a == b
    decreases |a|
  {
    assert |multiset(a)| == |a| && |multiset(b)| == |b|;
    if a != [] {
      SameLast(a, b, key);
      WithoutLast(a);
      WithoutLast(b);
      PrefixSorted(a, key);
      PrefixSorted(b, key);
      hide *;
      SortedIsUnique(a[..|a| - 1], b[..|b| - 1], key);
    }
  }

  /** A sorted permutation is the sort. */
  lemma SortedIsSort<T>(a: seq<T>, b: seq<T>, key: T -> Key)
    requires Sorted(a, key) && multiset(a) == multiset(b)
    requires KeyIdentifies(b, key)
    ensures a == Sort(b, key)
  {
    hide Sort;
    SortSorts(b, key);
    SortPermutes(b, key);
    forall i, j | 0 <= i < |a| && 0 <= j < |a| && key(a[i]) == key(a[j])
      ensures a[i] == a[j]
    {
      assert a[i] in multiset(b) && a[j] in multiset(b);
      assert a[i] in b && a[j] in b;
    }
    SortedIsUnique(a, Sort(b, key), key);
  }

  lemma WithoutLast<T>(s: seq<T>)
    requires s != []
    ensures s == s[..|s| - 1] + [s[|s| - 1]]
    ensures multiset(s[..|s| - 1]) == multiset(s) - multiset{s[|s| - 1]}
  {
    assert s == s[..|s| - 1] + [s[|s| - 1]];
  }

  lemma PrefixSorted<T>(s: seq<T>, key: T -> Key)
    requires s != [] && Sorted(s, key)
    ensures Sorted(s[..|s| - 1], key)
    ensures KeyIdentifies(s, key) ==> KeyIdentifies(s[..|s| - 1], key)
  {
  }

  lemma SameLast<T>(a: seq<T>, b: seq<T>, key: T -> Key)
    requires Sorted(a, key) && Sorted(b, key)
    requires a != [] && |a| == |b| && multiset(a) == multiset(b)
    requires KeyIdentifies(a, key)
    ensures a[|a| - 1] == b[|b| - 1]
  {
    var x, y := a[|a| - 1], b[|b| - 1];
    assert x in multiset(b) && y in multiset(a);
    var i :| 0 <= i < |b| && b[i] == x;
    var j :| 0 <= j < |a| && a[j] == y;
    assert key(x).AtMost(key(y)) && key(y).AtMost(key(x));
  }

  // ---------- sorting what stands for something else ----------

  function Mapped<T, U>(s: seq<T>, f: T -> U): (r: seq<U>)
    ensures |r| == |s|
    ensures forall i :: 0 <= i < |s| ==> r[i] == f(s[i])
  {
    seq(|s|, i requires 0 <= i < |s| => f(s[i]))
  }

  lemma MappedConcat<T, U>(a: seq<T>, b: seq<T>, f: T -> U)
    ensures Mapped(a + b, f) == Mapped(a, f) + Mapped(b, f)
  {
  }

  lemma {:induction false} InsertMapped<T, U>(s: seq<T>, x: T, f: T -> U, key: T -> Key, keyOfImage: U -> Key)
    requires forall y :: y in s + [x] ==> key(y) == keyOfImage(f(y))
    ensures Mapped(Insert(s, x, key), f) == Insert(Mapped(s, f), f(x), keyOfImage)
    decreases |s|
  {
    assert x in s + [x];
    if s != [] {
      var init, last := s[..|s| - 1], s[|s| - 1];
      assert last in s + [x];
      assert Mapped(s, f)[..|s| - 1] == Mapped(init, f);
      assert forall y :: y in init + [x] ==> y in s + [x];
      InsertMapped(init, x, f, key, keyOfImage);
    }
  }

  /** Sorting entries sorts what the entries stand for. */
  lemma {:induction false} SortMapped<T, U>(s: seq<T>, f: T -> U, key: T -> Key, keyOfImage: U -> Key)
    requires forall y :: y in s ==> key(y) == keyOfImage(f(y))
    ensures Mapped(Sort(s, key), f) == Sort(Mapped(s, f), keyOfImage)
    decreases |s|
  {
    if s != [] {
      var init, last := s[..|s| - 1], s[|s| - 1];
      assert s == init + [last];
      assert Mapped(s, f) == Mapped(init, f) + [f(last)];
      SortMapped(init, f, key, keyOfImage);
      SortOfMore(init, last, key);
      SortOfMore(Mapped(init, f), f(last), keyOfImage);
      SortPermutes(init, key);
      forall y | y in Sort(init, key) + [last]
        ensures key(y) == keyOfImage(f(y))
      {
        if y in Sort(init, key) {
          assert y in multiset(init);
        }
      }
      hide Sort, Insert;
      InsertMapped(Sort(init, key), last, f, key, keyOfImage);
    }
  }

  function Reverse<T>(s: seq<T>): (r: seq<T>)
    ensures |r| == |s|
    ensures forall i :: 0 <= i < |s| ==> r[i] == s[|s| - 1 - i]
  {
    seq(|s|, i requires 0 <= i < |s| => s[|s| - 1 - i])
  }

  // ---------- sorting a selection ----------

  function Kept<T>(s: seq<T>, p: T -> bool): seq<T>
    decreases |s|
  {
    if s == [] then []
    else if p(s[|s| - 1]) then Kept(s[..|s| - 1], p) + [s[|s| - 1]]
    else Kept(s[..|s| - 1], p)
  }

  lemma KeptMore<T>(s: seq<T>, x: T, p: T -> bool)
    ensures Kept(s + [x], p) == Kept(s, p) + if p(x) then [x] else []
  {
    assert (s + [x])[..|s|] == s;
  }

  lemma {:induction false} KeptConcat<T>(a: seq<T>, b: seq<T>, p: T -> bool)
    ensures Kept(a + b, p) == Kept(a, p) + Kept(b, p)
    decreases |b|
  {
    if b == [] {
      assert a + b == a;
    } else {
      var init, last := b[..|b| - 1], b[|b| - 1];
      assert a + b == (a + init) + [last];
      KeptMore(a + init, last, p);
      KeptConcat(a, init, p);
    }
  }

  lemma {:induction false} KeptMembers<T>(s: seq<T>, p: T -> bool)
    ensures forall x :: x in Kept(s, p) <==> x in s && p(x)
    decreases |s|
  {
    if s != [] {
      KeptMembers(s[..|s| - 1], p);
      assert s == s[..|s| - 1] + [s[|s| - 1]];
    }
  }

  lemma KeptMember<T>(s: seq<T>, p: T -> bool, i: nat)
    requires i < |Kept(s, p)|
    ensures Kept(s, p)[i] in s && p(Kept(s, p)[i])
  {
    KeptMembers(s, p);
    assert Kept(s, p)[i] in Kept(s, p);
  }

  lemma {:induction false} KeptSorted<T>(s: seq<T>, p: T -> bool, key: T -> Key)
    requires Sorted(s, key)
    ensures Sorted(Kept(s, p), key)
    decreases |s|
  {
    if s != [] {
      var init, last := s[..|s| - 1], s[|s| - 1];
      KeptSorted(init, p, key);
      var r := Kept(init, p);
      forall i | 0 <= i < |r|
        ensures key(r[i]).AtMost(key(last))
      {
        KeptMember(init, p, i);
        var j :| 0 <= j < |init| && init[j] == r[i];
        assert s[j] == r[i];
      }
    }
  }

  lemma {:induction false} InsertKept<T>(s: seq<T>, x: T, p: T -> bool, key: T -> Key)
    requires Sorted(s, key)
    ensures Kept(Insert(s, x, key), p) == if p(x) then Insert(Kept(s, p), x, key) else Kept(s, p)
    decreases |s|
  {
    if s == [] {
      KeptMore([], x, p);
      assert [] + [x] == [x];
    } else {
      var init, last := s[..|s| - 1], s[|s| - 1];
      assert s == init + [last];
      KeptMore(init, last, p);
      if key(last).AtMost(key(x)) {
        KeptMore(s, x, p);
        if p(x) {
          InsertAtEnd(Kept(s, p), x, s, p, key);
        }
      } else {
        InsertKept(init, x, p, key);
        KeptMore(Insert(init, x, key), last, p);
        if p(x) && p(last) {
          assert (Kept(init, p) + [last])[..|Kept(init, p)|] == Kept(init, p);
        }
      }
    }
  }

  lemma InsertAtEnd<T>(r: seq<T>, x: T, s: seq<T>, p: T -> bool, key: T -> Key)
    requires s != [] && Sorted(s, key) && key(s[|s| - 1]).AtMost(key(x)) && r == Kept(s, p)
    ensures Insert(r, x, key) == r + [x]
  {
    KeptMembers(s, p);
    if r != [] {
      var last := r[|r| - 1];
      assert last in s;
      var i :| 0 <= i < |s| && s[i] == last;
    }
  }

  /** Sorting a selection is selecting from the sort. */
  lemma {:induction false} SortKept<T>(s: seq<T>, p: T -> bool, key: T -> Key)
    ensures Sort(Kept(s, p), key) == Kept(Sort(s, key), p)
    decreases |s|
  {
    if s != [] {
      var init, last := s[..|s| - 1], s[|s| - 1];
      SortKept(init, p, key);
      SortSorts(init, key);
      InsertKept(Sort(init, key), last, p, key);
      if p(last) {
        SortOfMore(Kept(init, p), last, key);
      }
    }
  }

  // ---------- two keys, one order ----------

  lemma {:induction false} InsertSameOrder<T>(s: seq<T>, x: T, key: T -> Key, other: T -> Key)
    requires forall y :: y in s ==> (key(y).AtMost(key(x)) <==> other(y).AtMost(other(x)))
    ensures Insert(s, x, key) == Insert(s, x, other)
    decreases |s|
  {
    if s != [] {
      assert s[|s| - 1] in s;
      InsertSameOrder(s[..|s| - 1], x, key, other);
    }
  }

  /** Two keys that compare each element with all earlier ones in the same way give the
      same sort. */
  lemma {:induction false} SortSameOrder<T>(s: seq<T>, key: T -> Key, other: T -> Key)
    requires forall i, j :: 0 <= i < j < |s| ==> (key(s[i]).AtMost(key(s[j])) <==> other(s[i]).AtMost(other(s[j])))
    ensures Sort(s, key) == Sort(s, other)
    decreases |s|
  {
    if s != [] {
      var init, last := s[..|s| - 1], s[|s| - 1];
      SortSameOrder(init, key, other);
      SortPermutes(init, key);
      forall y | y in Sort(init, key)
        ensures key(y).AtMost(key(last)) <==> other(y).AtMost(other(last))
      {
        assert y in multiset(init);
        var i :| 0 <= i < |init| && init[i] == y;
        assert s[i] == y;
      }
      InsertSameOrder(Sort(init, key), last, key, other);
    }
  }
}
