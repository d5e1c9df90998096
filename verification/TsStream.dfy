/** The buffer of the TypeScript `McapStreamReader`: new bytes are appended in place, appended
    after moving the unread bytes to the front, or copied to a larger buffer together with
    them. */
module TsStream {
  import opened Bytes

  class StreamBuffer {
    var buffer: array<byte>
    var viewOffset: nat
    var viewLength: nat
    var readerOffset: nat
    ghost var received: bytes
    ghost var taken: bytes

    /** The view lies in the buffer, the reader in the view, and nothing that was received is
        lost, repeated or reordered. */
    ghost predicate Valid()
      reads this, buffer
    {
      && viewOffset + viewLength <= buffer.Length
      && readerOffset <= viewLength
      && received == taken + Unread()
    }

    /** The bytes received but not yet parsed. */
    ghost function Unread(): bytes
      requires viewOffset + viewLength <= buffer.Length && readerOffset <= viewLength
      reads this`buffer, this`viewOffset, this`viewLength, this`readerOffset, buffer
    {
      buffer[viewOffset + readerOffset..viewOffset + viewLength]
    }

    constructor ()
      ensures Valid() && fresh(buffer) && buffer.Length == 16 && received == [] && taken == []
    {
      buffer := new byte[16];
      viewOffset, viewLength, readerOffset := 0, 0, 0;
      received, taken := [], [];
    }

    method BytesRemaining() returns (n: nat)
      requires Valid()
      ensures n == |Unread()|
    {
      n := viewLength - readerOffset;
    }

    /** The parser takes some bytes. */
    method Advance(n: nat)
      requires Valid() && n <= |Unread()|
      modifies this
      ensures Valid() && buffer == old(buffer) && buffer[..] == old(buffer[..])
      ensures Unread() == old(Unread())[n..] && taken == old(taken) + old(Unread())[..n] && received == old(received)
    {
      taken := taken + Unread()[..n];
      readerOffset := readerOffset + n;
    }

    /** All three ways of making room leave the unread bytes followed by the new ones. */
    method AppendOrShift(data: bytes)
      requires Valid()
      modifies this, buffer
      ensures Valid() && Unread() == old(Unread()) + data
      ensures taken == old(taken) && received == old(received) + data
      ensures buffer == old(buffer) || fresh(buffer)
      ensures var needed := |old(Unread())| + |data|;
              (needed <= old(buffer.Length) ==> buffer == old(buffer)) &&
              (needed > old(buffer.Length) ==> buffer.Length == 2 * needed)
    {
      hide InView, Valid, Unread;
      ViewFits();
      UnreadIsInView();
      ghost var was, before := Unread(), received;
      MakeRoom(data, was);
      received := received + data;
      InViewIsUnread(was + data);
      Extends(received, before, taken, was, data);
      IsValid();
    }

    static lemma Extends(received: bytes, before: bytes, taken: bytes, was: bytes, data: bytes)
      requires before == taken + was && received == before + data
      ensures received == taken + (was + data)
    {
    }

    /** The three branches. */
    method MakeRoom(data: bytes, ghost was: bytes)
      requires InView(was)
      modifies this`buffer, this`viewOffset, this`viewLength, this`readerOffset, buffer
      ensures InView(was + data)
      ensures buffer == old(buffer) || fresh(buffer)
      ensures var needed := |was| + |data|;
              (needed <= old(buffer.Length) ==> buffer == old(buffer)) &&
              (needed > old(buffer.Length) ==> buffer.Length == 2 * needed)
    {
      InViewLength(was);
      hide InView;
      var consumed := readerOffset;
      var unconsumed := viewLength - consumed;
      var needed := unconsumed + |data|;
      if needed <= buffer.Length {
        if viewOffset + viewLength + |data| <= buffer.Length {
          AppendInPlace(data, was);
        } else {
          ShiftAndAppend(consumed, unconsumed, data, was);
        }
      } else {
        Reallocate(consumed, unconsumed, data, was);
      }
    }

    lemma InViewLength(s: bytes)
      requires InView(s)
      ensures viewOffset + viewLength <= buffer.Length && readerOffset <= viewLength && |s| == viewLength - readerOffset
    {
    }

    /** The reader stands before `s` in a view that lies in the buffer. */
    ghost predicate InView(s: bytes)
      reads this`buffer, this`viewOffset, this`viewLength, this`readerOffset, buffer
    {
      && viewOffset + viewLength <= buffer.Length && readerOffset <= viewLength
      && buffer[viewOffset + readerOffset..viewOffset + viewLength] == s
    }

    lemma ViewFits()
      requires Valid()
      ensures viewOffset + viewLength <= buffer.Length && readerOffset <= viewLength && received == taken + Unread()
    {
    }

    lemma IsValid()
      requires viewOffset + viewLength <= buffer.Length && readerOffset <= viewLength && received == taken + Unread()
      ensures Valid()
    {
    }

    lemma UnreadIsInView()
      requires Valid()
      ensures InView(Unread())
    {
    }

    lemma InViewIsUnread(s: bytes)
      requires InView(s)
      ensures viewOffset + viewLength <= buffer.Length && readerOffset <= viewLength && Unread() == s
    {
    }

    method AppendInPlace(data: bytes, ghost was: bytes)
      requires InView(was) && viewOffset + viewLength + |data| <= buffer.Length
      modifies this`viewLength, buffer
      ensures InView(was + data)
    {
      ghost var start, end := viewOffset + readerOffset, viewOffset + viewLength;
      Put(buffer, viewOffset + viewLength, data);
      assert buffer[..end][start..] == was;
      assert buffer[start..end + |data|] == buffer[start..end] + buffer[end..end + |data|];
      viewLength := viewLength + |data|;
    }

    method ShiftAndAppend(consumed: nat, unconsumed: nat, data: bytes, ghost was: bytes)
      requires InView(was) && consumed == readerOffset && unconsumed == viewLength - consumed
      requires unconsumed + |data| <= buffer.Length
      modifies this`viewOffset, this`viewLength, this`readerOffset, buffer
      ensures InView(was + data)
    {
      MoveAndPut(buffer, viewOffset + consumed, unconsumed, data);
      viewOffset, viewLength, readerOffset := 0, unconsumed + |data|, 0;
    }

    method Reallocate(consumed: nat, unconsumed: nat, data: bytes, ghost was: bytes)
      requires InView(was) && consumed == readerOffset && unconsumed == viewLength - consumed
      modifies this`buffer, this`viewOffset, this`viewLength, this`readerOffset
      ensures fresh(buffer) && buffer.Length == 2 * (unconsumed + |data|) && InView(was + data)
    {
      buffer := Copied(buffer[viewOffset + consumed..viewOffset + viewLength], data);
      viewOffset, viewLength, readerOffset := 0, unconsumed + |data|, 0;
    }
  }

  /** A buffer of twice the needed size that starts with the given bytes. */
  method Copied(existing: bytes, data: bytes) returns (larger: array<byte>)
    ensures fresh(larger) && larger.Length == 2 * (|existing| + |data|)
    ensures larger[0..|existing| + |data|] == existing + data
  {
    var n := |existing| + |data|;
    larger := new byte[n * 2];
    Put(larger, 0, existing);
    Put(larger, |existing|, data);
    assert larger[0..n] == larger[..|existing|] + larger[|existing|..n];
  }

  /** Bytes of a buffer moved to its front, and new ones behind them. */
  method MoveAndPut(target: array<byte>, from: nat, n: nat, data: bytes)
    requires from + n <= target.Length && n + |data| <= target.Length
    modifies target
    ensures target[0..n + |data|] == old(target[from..from + n]) + data
  {
    Move(target, from, n);
    Put(target, n, data);
    assert target[0..n + |data|] == target[..n] + target[n..n + |data|];
  }

  /** Copies bytes into a buffer. */
  method Put(target: array<byte>, at: nat, data: bytes)
    requires at + |data| <= target.Length
    modifies target
    ensures target[at..at + |data|] == data
    ensures target[..at] == old(target[..at]) && target[at + |data|..] == old(target[at + |data|..])
  {
    var i := 0;
    while i < |data|
      invariant i <= |data|
      invariant target[at..at + i] == data[..i]
      invariant target[..at] == old(target[..at]) && target[at + |data|..] == old(target[at + |data|..])
    {
      target[at + i] := data[i];
      i := i + 1;
    }
  }

  /** Moves bytes of a buffer to its front, where the two ranges may overlap. */
  method Move(target: array<byte>, from: nat, n: nat)
    requires from + n <= target.Length
    modifies target
    ensures target[..n] == old(target[from..from + n])
  {
    var i := 0;
    while i < n
      invariant i <= n
      invariant target[..i] == old(target[from..from + i])
      invariant target[from + i..from + n] == old(target[from + i..from + n])
    {
      ghost var tail := target[from + i..from + n];
      assert tail[1..] == old(target[from + i + 1..from + n]) && target[from + i] == tail[0];
      target[i] := target[from + i];
      assert target[from + i + 1..from + n] == tail[1..];
      i := i + 1;
    }
  }
}
