/** The Rust `AttachmentWriter`: the length of an attachment is promised first, its bytes
    come piece by piece, and two checksums run along: the attachment's and the file's. */
module RustAttachment {
  import opened Bytes
  import opened Crc
  import opened Format
  import opened Records
  import opened RustIo
  import opened RustLayout
  import opened RustMachine

  datatype AttachmentWriter = AttachmentWriter(
    recordOffset: nat,
    attachmentOffset: nat,
    length: nat,
    header: AttachmentHeader,
    outer: CountingCrc,
    inner: CountingCrc)

  /** An attachment of the promised length, as far as it has been written. */
  function Partial(h: AttachmentHeader, length: nat, content: bytes): bytes {
    ([OP_ATTACHMENT] + LE(|AttachmentStart(h, length)| + length + 4, 8)) + (AttachmentStart(h, length) + content)
  }

  /** The writer's fields after `content` came in, for an attachment that began when the
      file was `before` and the running checksum covered `hashed`. */
  ghost predicate Tracks(aw: AttachmentWriter, o: Options, h: AttachmentHeader, length: nat, content: bytes, before: bytes,
                         hashed: bytes)
  {
    var start := AttachmentStart(h, length);
    && aw.recordOffset == |before|
    && aw.attachmentOffset == |start|
    && aw.length == length
    && aw.header == h
    && aw.outer == CountingCrc(HashIf(o.attachmentCrcs, start + content), |start| + |content|)
    && aw.inner.hasher == HashIf(o.dataCrc, hashed + Partial(h, length, content))
  }

  method Begin(o: Options, file: Stream, crc: CountingCrc, length: nat, h: AttachmentHeader, ghost hashed: bytes)
    returns (aw: AttachmentWriter)
    requires file.AtEnd() && crc.hasher == HashIf(o.dataCrc, hashed)
    modifies file
    ensures file.AtEnd() && file.data == old(file.data) + Partial(h, length, [])
    ensures Tracks(aw, o, h, length, [], old(file.data), hashed)
  {
    hide AttachmentStart, HashIf, CountingCrc.Wrote, NewCounter, Overwrite, LE;
    var recordOffset := file.pos;
    var start := AttachmentStart(h, length);
    var lead := [OP_ATTACHMENT] + LE(|start| + length + 4, 8);
    file.Write(lead);
    WroteIsHash(o.dataCrc, hashed, crc.count, lead);
    var inner := crc.Wrote(lead);
    NewCounterIsHash(o.attachmentCrcs);
    WroteIsHash(o.attachmentCrcs, [], 0, start);
    WroteIsHash(o.dataCrc, hashed + lead, inner.count, start);
    assert [] + start == start + [] == start;
    JoinAssociates(old(file.data), lead, start);
    JoinAssociates(hashed, lead, start);
    file.Write(start);
    var outer := NewCounter(o.attachmentCrcs).Wrote(start);
    aw := AttachmentWriter(recordOffset, outer.count, length, h, outer, inner.Wrote(start));
  }

  lemma PartialGrows(h: AttachmentHeader, length: nat, content: bytes, buf: bytes)
    ensures Partial(h, length, content) + buf == Partial(h, length, content + buf)
    ensures (AttachmentStart(h, length) + content) + buf == AttachmentStart(h, length) + (content + buf)
  {
    hide AttachmentStart, LE;
  }

  /** Bytes that would exceed the promised length are refused. */
  method PutBytes(aw: AttachmentWriter, o: Options, file: Stream, buf: bytes, ghost h: AttachmentHeader, ghost length: nat,
                  ghost content: bytes, ghost before: bytes, ghost hashed: bytes)
    returns (t: AttachmentWriter, r: Reply)
    requires Tracks(aw, o, h, length, content, before, hashed)
    requires file.AtEnd() && file.data == before + Partial(h, length, content) && |content| <= length
    modifies file
    ensures file.AtEnd()
    ensures |content| + |buf| > length ==>
            (t == aw && file.data == old(file.data) && r == Err(AttachmentTooLarge(|content| + |buf| - length, length)))
    ensures |content| + |buf| <= length ==>
            (Tracks(t, o, h, length, content + buf, before, hashed) && r == Ok &&
             file.data == before + Partial(h, length, content + buf))
  {
    hide AttachmentStart, HashIf, CountingCrc.Wrote, Overwrite, Partial;
    var position := aw.outer.count - aw.attachmentOffset;
    var space := aw.length - position;
    if |buf| > space {
      return aw, Err(AttachmentTooLarge(|buf| - space, aw.length));
    }
    PartialGrows(h, length, content, buf);
    WroteIsHash(o.attachmentCrcs, AttachmentStart(h, length) + content, aw.outer.count, buf);
    WroteIsHash(o.dataCrc, hashed + Partial(h, length, content), aw.inner.count, buf);
    JoinAssociates(before, Partial(h, length, content), buf);
    JoinAssociates(hashed, Partial(h, length, content), buf);
    file.Write(buf);
    t, r := aw.(outer := aw.outer.Wrote(buf), inner := aw.inner.Wrote(buf)), Ok;
  }

  lemma PartialCompletes(o: Options, h: AttachmentHeader, content: bytes)
    ensures Partial(h, |content|, content) + WordBytes(AttachmentCrc(o, h, content)) == AttachmentBytes(o, h, content)
  {
    hide AttachmentStart, LE, WordBytes, AttachmentCrc;
    var start := AttachmentStart(h, |content|);
    var crc := WordBytes(AttachmentCrc(o, h, content));
    var size := LE(|start| + |content| + 4, 8);
    assert |start + content + crc| == |start| + |content| + 4;
    assert ([OP_ATTACHMENT] + size) + (start + content) + crc == [OP_ATTACHMENT] + (size + (start + content + crc));
  }

  /** Completing an attachment of which all bytes have come appends exactly the item it
      stands for and returns its index. */
  method Finish(aw: AttachmentWriter, o: Options, file: Stream, ghost h: AttachmentHeader, ghost content: bytes,
                ghost before: bytes, ghost hashed: bytes)
    returns (crc: CountingCrc, index: Record)
    requires Tracks(aw, o, h, |content|, content, before, hashed)
    requires file.AtEnd() && file.data == before + Partial(h, |content|, content)
    modifies file
    ensures file.AtEnd() && file.data == before + AttachmentBytes(o, h, content)
    ensures crc.hasher == HashIf(o.dataCrc, hashed + AttachmentBytes(o, h, content))
    ensures index == AttachmentIndexFor(o, h, content, |before|)
  {
    hide AttachmentStart, HashIf, CountingCrc.Wrote, Overwrite, Partial, AttachmentBytes, WordBytes, Checksum;
    var stored := Stored(aw.outer.hasher);
    StoredIsChecksum(o.attachmentCrcs, AttachmentStart(h, |content|) + content);
    var tail := WordBytes(stored);
    PartialCompletes(o, h, content);
    WroteIsHash(o.dataCrc, hashed + Partial(h, |content|, content), aw.inner.count, tail);
    JoinAssociates(before, Partial(h, |content|, content), tail);
    JoinAssociates(hashed, Partial(h, |content|, content), tail);
    file.Write(tail);
    crc := aw.inner.Wrote(tail);
    var length := file.pos - aw.recordOffset;
    index := AttachmentIndex(aw.recordOffset, length, aw.header.logTime, aw.header.createTime, aw.length, aw.header.name,
                             aw.header.mediaType);
  }
}
