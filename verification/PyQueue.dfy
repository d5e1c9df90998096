/** The priority queue of the Python reader, which holds chunks that are still to be opened
    next to messages of opened chunks, and the order it keeps them in. */
module PyQueue {
  import opened Bytes
  import R = Records

  datatype Item =
    | ChunkItem(chunk: R.ChunkIndexRecord)
    | MessageItem(schema: Option<R.SchemaRecord>, channel: R.ChannelRecord, message: R.MessageRecord, chunkOffset: nat, index: nat)

  function LogTime(a: Item, reverse: bool): nat {
    match a
    case ChunkItem(c) => if reverse then c.endTime else c.startTime
    case MessageItem(_, _, m, _, _) => m.logTime
  }

  /** Chunk offset, and for messages the number of the record within the chunk. */
  function Position(a: Item, reverse: bool): (nat, Option<nat>) {
    match a
    case ChunkItem(c) => (if reverse then c.chunkOffset + c.chunkLength else c.chunkOffset, None)
    case MessageItem(_, _, _, offset, index) => (offset, Some(index))
  }

  predicate Compare(a: nat, b: nat, reverse: bool) {
    if reverse then a > b else a < b
  }

  predicate PositionLessThan(a: Item, b: Item, reverse: bool) {
    var (thisChunk, thisMessage) := Position(a, reverse);
    var (otherChunk, otherMessage) := Position(b, reverse);
    if thisMessage.None? || otherMessage.None? then Compare(thisChunk, otherChunk, reverse)
    else if thisChunk == otherChunk then Compare(thisMessage.value, otherMessage.value, reverse)
    else Compare(thisChunk, otherChunk, reverse)
  }

  /** The comparison the heap uses. */
  predicate Less(a: Item, b: Item, reverse: bool) {
    if LogTime(a, reverse) == LogTime(b, reverse) then PositionLessThan(a, b, reverse)
    else Compare(LogTime(a, reverse), LogTime(b, reverse), reverse)
  }

  lemma LessIsStrict(a: Item, b: Item, c: Item, reverse: bool)
    ensures !Less(a, a, reverse)
    ensures Less(a, b, reverse) && Less(b, c, reverse) ==> Less(a, c, reverse)
  {
  }

  /** Two items that the comparison cannot tell apart: same time and same chunk position,
      unless both are messages with different numbers. */
  predicate Tied(a: Item, b: Item, reverse: bool) {
    LogTime(a, reverse) == LogTime(b, reverse) && Position(a, reverse).0 == Position(b, reverse).0 &&
    (a.ChunkItem? || b.ChunkItem? || a.index == b.index)
  }

  /** Exactly the ties are incomparable. */
  lemma IncomparableIffTied(a: Item, b: Item, reverse: bool)
    ensures !Less(a, b, reverse) && !Less(b, a, reverse) <==> Tied(a, b, reverse)
  {
  }

  /** A queue without ties is totally ordered, so its least item is well defined. */
  ghost predicate NoTies(q: seq<Item>, reverse: bool) {
    forall i, j :: 0 <= i < j < |q| ==> !Tied(q[i], q[j], reverse)
  }

  /** Items at different places of the file: two chunks at different offsets, a chunk and a
      message of another chunk, or two different messages. */
  predicate Apart(a: Item, b: Item) {
    match (a, b)
    case (ChunkItem(c), ChunkItem(d)) => c.chunkOffset != d.chunkOffset
    case (ChunkItem(c), MessageItem(_, _, _, offset, _)) => c.chunkOffset != offset
    case (MessageItem(_, _, _, offset, _), ChunkItem(c)) => c.chunkOffset != offset
    case (MessageItem(_, _, _, o, i), MessageItem(_, _, _, p, j)) => o != p || i != j
  }

  ghost predicate AllApart(q: seq<Item>) {
    forall i, j :: 0 <= i < j < |q| ==> Apart(q[i], q[j])
  }

  /** Reading forwards, items at different places never tie. */
  lemma ForwardNeverTies(q: seq<Item>)
    requires AllApart(q)
    ensures NoTies(q, false)
  {
  }

  /** Reading backwards they can, because the place of a chunk is then its end, which may be where
      another chunk starts. Exactly when items at different places tie reading backwards: */
  lemma BackwardTies(a: Item, b: Item)
    requires Apart(a, b)
    ensures Tied(a, b, true) <==>
      LogTime(a, true) == LogTime(b, true) &&
      match (a, b)
      case (ChunkItem(c), ChunkItem(d)) => c.chunkOffset + c.chunkLength == d.chunkOffset + d.chunkLength
      case (ChunkItem(c), MessageItem(_, _, _, offset, _)) => c.chunkOffset + c.chunkLength == offset
      case (MessageItem(_, _, _, offset, _), ChunkItem(c)) => c.chunkOffset + c.chunkLength == offset
      case (MessageItem(_, _, _, _, _), MessageItem(_, _, _, _, _)) => false
  {
  }

  /** The heap, as a bag from which the least item is taken. */
  class LogTimeOrderQueue {
    var q: seq<Item>
    const reverse: bool

    constructor (reverse: bool)
      ensures q == [] && this.reverse == reverse
    {
      q, this.reverse := [], reverse;
    }

    method Push(item: Item)
      modifies this
      ensures q == old(q) + [item]
    {
      q := q + [item];
    }

    /** Removes the item that is less than all others. */
    method Pop() returns (item: Item, ghost at: nat)
      requires q != [] && NoTies(q, reverse)
      modifies this
      ensures at < |old(q)| && item == old(q)[at]
      ensures q == old(q)[..at] + old(q)[at + 1..]
      ensures forall i :: 0 <= i < |q| ==> Less(item, q[i], reverse)
    {
      var best := 0;
      for i := 1 to |q|
        invariant 0 <= best < i && q == old(q)
        invariant forall j :: 0 <= j < i ==> j == best || Less(q[best], q[j], reverse)
      {
        IncomparableIffTied(q[best], q[i], reverse);
        if Less(q[i], q[best], reverse) {
          forall j | 0 <= j < i
            ensures Less(q[i], q[j], reverse)
          {
            LessIsStrict(q[i], q[best], q[j], reverse);
          }
          best := i;
        }
      }
      item, at := q[best], best;
      q := q[..best] + q[best + 1..];
    }
  }

  /** The queue that keeps the order in which items were pushed. */
  class InsertOrderQueue {
    var q: seq<Item>

    constructor ()
      ensures q == []
    {
      q := [];
    }

    method Push(item: Item)
      modifies this
      ensures q == old(q) + [item]
    {
      q := q + [item];
    }

    method Pop() returns (item: Item)
      requires q != []
      modifies this
      ensures item == old(q)[0] && q == old(q)[1..]
    {
      item := q[0];
      q := q[1..];
    }
  }
}
