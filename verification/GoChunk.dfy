/** Finding messages in the uncompressed bytes of a chunk, as the Go iterators do. */
module GoChunk {
  import opened Bytes
  import opened Format
  import R = Records

  datatype Message = Message(channelId: nat, sequence: nat, logTime: nat, publishTime: nat, data: bytes)

  /** The message a message record body stands for. */
  function PopulateFrom(body: bytes): Option<Message> {
    var p := R.ReadMessage(body);
    if p.Malformed? then None
    else
      Some(Message(p.value.messageChannel, p.value.sequence, p.value.logTime, p.value.publishTime, p.value.messageData))
  }

  /** Where the record that starts at `offset` ends, if its header and body are there. */
  function RecordEnd(buf: bytes, offset: nat): (end: Option<nat>)
    ensures end.Some? ==> offset + 9 <= end.value <= |buf|
  {
    if |buf| < offset + 9 then None
    else
      var end := offset + 9 + FromLE(buf[offset + 1..offset + 9]);
      if |buf| < end then None else Some(end)
  }

  /** The message record at `offset`. */
  function MessageAt(buf: bytes, offset: nat): Option<Message> {
    var end :- RecordEnd(buf, offset);
    PopulateFrom(buf[offset + 9..end])
  }

  /** Which messages a read asks for. */
  datatype Filter = Filter(channels: set<nat>, start: nat, end: nat) {
    predicate Wants(m: Message) {
      m.channelId in channels && start <= m.logTime < end
    }
  }

  /** A message and the offset of its record. */
  datatype Located = Located(offset: nat, message: Message)

  /** The wanted messages from `offset` on, or None if the bytes are not a sequence of
      records or a message cannot be parsed. */
  function Scan(buf: bytes, offset: nat, filter: Filter): Option<seq<Located>>
    decreases |buf| - offset
  {
    if offset >= |buf| then Some([])
    else
      var end :- RecordEnd(buf, offset);
      if buf[offset] != OP_MESSAGE then Scan(buf, end, filter)
      else
        var m :- PopulateFrom(buf[offset + 9..end]);
        var rest :- Scan(buf, end, filter);
        Some(if filter.Wants(m) then [Located(offset, m)] + rest else rest)
  }

  /** Everything found is wanted, and can be found again at its offset. */
  lemma {:induction false} ScanLocates(buf: bytes, offset: nat, filter: Filter)
    ensures Scan(buf, offset, filter).Some? ==>
              forall l :: l in Scan(buf, offset, filter).value ==>
                MessageAt(buf, l.offset) == Some(l.message) && filter.Wants(l.message)
    decreases |buf| - offset
  {
    hide PopulateFrom;
    if offset < |buf| {
      var end := RecordEnd(buf, offset);
      if end.Some? {
        ScanLocates(buf, end.value, filter);
      }
    }
  }

  /** The messages themselves. */
  function Messages(found: seq<Located>): (r: seq<Message>)
    ensures |r| == |found|
    ensures forall i :: 0 <= i < |found| ==> r[i] == found[i].message
  {
    seq(|found|, i requires 0 <= i < |found| => found[i].message)
  }

  /** The wanted messages of a chunk in the order they were written. */
  function Selected(buf: bytes, filter: Filter): seq<Message> {
    var found := Scan(buf, 0, filter);
    if found.Some? then Messages(found.value) else []
  }

  lemma SelectedAreWanted(buf: bytes, filter: Filter, m: Message)
    requires m in Selected(buf, filter)
    ensures filter.Wants(m)
  {
    ScanLocates(buf, 0, filter);
    var found := Scan(buf, 0, filter).value;
    var i :| 0 <= i < |found| && found[i].message == m;
    assert found[i] in found;
  }
}
