/** Serialising and deserialising records as the Swift library does: fields are appended
    to a growing buffer, lengths of maps and records are patched in afterwards, and
    dictionaries are enumerated in whatever order they happen to have. */
module SwiftRecords {
  import opened Bytes
  import opened Crc
  import opened Format
  import opened Records

  // ---------- dictionaries ----------

  /** The dictionary that results from assigning the pairs one after the other. */
  function MapOf<K(==), V>(pairs: seq<(K, V)>): map<K, V>
    decreases |pairs|
  {
    if pairs == [] then map[]
    else MapOf(pairs[..|pairs| - 1])[pairs[|pairs| - 1].0 := pairs[|pairs| - 1].1]
  }

  lemma MapOfMore<K, V>(pairs: seq<(K, V)>, p: (K, V))
    ensures MapOf(pairs + [p]) == MapOf(pairs)[p.0 := p.1]
  {
    assert (pairs + [p])[..|pairs|] == pairs;
  }

  /** `order` lists the part of `m` that is not in `rest`. */
  ghost predicate Enumerated<K(!new), V>(m: map<K, V>, rest: map<K, V>, order: seq<(K, V)>) {
    rest.Keys <= m.Keys && (forall k :: k in rest ==> rest[k] == m[k]) &&
    MapOf(order) == m - rest.Keys && |order| + |rest| == |m|
  }

  lemma EnumeratedNone<K(!new), V>(m: map<K, V>)
    ensures Enumerated(m, m, [])
  {
    assert m - m.Keys == map[];
  }

  lemma EnumeratedAll<K(!new), V>(m: map<K, V>, order: seq<(K, V)>)
    requires Enumerated(m, map[], order)
    ensures MapOf(order) == m && |order| == |m|
  {
    assert m - {} == m;
  }

  lemma EnumerateOne<K(!new), V>(m: map<K, V>, rest: map<K, V>, order: seq<(K, V)>, k: K)
    requires Enumerated(m, rest, order) && k in rest
    ensures Enumerated(m, rest - {k}, order + [(k, rest[k])])
  {
    MapOfMore(order, (k, rest[k]));
    Without(rest, k);
    assert m - (rest - {k}).Keys == (m - rest.Keys)[k := rest[k]];
  }

  /** Two records that differ at most in the order in which they list their maps. */
  ghost predicate SameContent(a: Record, b: Record) {
    match a
    case Channel(i, s, t, e, m) => b.Channel? && b == Channel(i, s, t, e, b.channelMetadata) && MapOf(b.channelMetadata) == MapOf(m)
    case Metadata(n, m) => b.Metadata? && b == Metadata(n, b.metadata) && MapOf(b.metadata) == MapOf(m)
    case ChunkIndex(s, e, o, l, m, il, c, cs, us) =>
      b.ChunkIndex? && b == ChunkIndex(s, e, o, l, b.indexOffsets, il, c, cs, us) && MapOf(b.indexOffsets) == MapOf(m)
    case Statistics(mc, sc, cc, ac, mdc, chc, s, e, m) =>
      b.Statistics? && b == Statistics(mc, sc, cc, ac, mdc, chc, s, e, b.channelMessageCounts) &&
      MapOf(b.channelMessageCounts) == MapOf(m)
    case _ => b == a
  }

  // ---------- the growing buffer ----------

  class Data {
    var contents: bytes

    constructor ()
      ensures contents == []
    {
      contents := [];
    }

    method Append(data: bytes)
      modifies this
      ensures contents == old(contents) + data
    {
      contents := contents + data;
    }

    method AppendPrefixedString(s: bytes)
      modifies this
      ensures contents == old(contents) + Str(s)
    {
      Append(LE(|s|, 4));
      Append(s);
      assert old(contents) + LE(|s|, 4) + s == old(contents) + (LE(|s|, 4) + s);
    }

    /** Overwrites bytes that are already in the buffer. */
    method Replace(at: nat, data: bytes)
      requires at + |data| <= |contents|
      modifies this
      ensures contents == old(contents)[..at] + data + old(contents)[at + |data|..]
    {
      contents := contents[..at] + data + contents[at + |data|..];
    }

    /** Appends a dictionary of strings in enumeration order, then patches its length. */
    method AppendStringMap(m: map<bytes, bytes>) returns (ghost order: StringMap)
      modifies this
      ensures MapOf(order) == m && |order| == |m|
      ensures contents == old(contents) + StrMap(order)
    {
      hide LE, Str, MapOf, Enumerated;
      order := [];
      EnumeratedNone(m);
      var sizeOffset := |contents|;
      Append(LE(0, 4));
      var rest := m;
      assert StringPairs([]) == [];
      while rest != map[]
        invariant Enumerated(m, rest, order)
        invariant contents == old(contents) + LE(0, 4) + StringPairs(order)
        decreases |rest|
      {
        assert rest.Keys != {};
        var k :| k in rest.Keys;
        var v := rest[k];
        AppendPrefixedString(k);
        AppendPrefixedString(v);
        StringPairsMore(order, k, v);
        assert old(contents) + LE(0, 4) + StringPairs(order) + Str(k) + Str(v)
            == old(contents) + LE(0, 4) + (StringPairs(order) + (Str(k) + Str(v)));
        EnumerateOne(m, rest, order, k);
        Without(rest, k);
        order, rest := order + [(k, v)], rest - {k};
      }
      EnumeratedAll(m, order);
      var size := |contents| - sizeOffset - 4;
      Replace(sizeOffset, LE(size, 4));
      assert contents == old(contents) + (LE(size, 4) + StringPairs(order));
    }

    /** Appends a dictionary of integers in enumeration order; its length is known before. */
    method AppendIntMap(m: map<nat, nat>, keyWidth: nat) returns (ghost order: IntMap)
      modifies this
      ensures MapOf(order) == m && |order| == |m|
      ensures contents == old(contents) + NumMap(order, keyWidth)
    {
      hide LE, MapOf, Enumerated;
      order := [];
      EnumeratedNone(m);
      var prefix := LE(|m| * (keyWidth + 8), 4);
      Append(prefix);
      var rest := m;
      assert IntPairs([], keyWidth) == [];
      while rest != map[]
        invariant Enumerated(m, rest, order)
        invariant contents == old(contents) + prefix + IntPairs(order, keyWidth)
        decreases |rest|
      {
        assert rest.Keys != {};
        var k :| k in rest.Keys;
        var v := rest[k];
        Append(LE(k, keyWidth));
        Append(LE(v, 8));
        IntPairsMore(order, k, v, keyWidth);
        assert old(contents) + prefix + IntPairs(order, keyWidth) + LE(k, keyWidth) + LE(v, 8)
            == old(contents) + prefix + (IntPairs(order, keyWidth) + (LE(k, keyWidth) + LE(v, 8)));
        EnumerateOne(m, rest, order, k);
        Without(rest, k);
        order, rest := order + [(k, v)], rest - {k};
      }
      EnumeratedAll(m, order);
      IntPairsLength(order, keyWidth);
      assert contents == old(contents) + (prefix + IntPairs(order, keyWidth));
    }

    /** Appends a list of integer pairs. */
    method AppendTupleArray(pairs: IntMap)
      modifies this
      ensures contents == old(contents) + NumMap(pairs, 8)
    {
      hide LE;
      var prefix := LE(|pairs| * 16, 4);
      Append(prefix);
      assert pairs[..0] == [];
      for i := 0 to |pairs|
        invariant contents == old(contents) + prefix + IntPairs(pairs[..i], 8)
      {
        Append(LE(pairs[i].0, 8));
        Append(LE(pairs[i].1, 8));
        IntPairsMore(pairs[..i], pairs[i].0, pairs[i].1, 8);
        assert pairs[..i + 1] == pairs[..i] + [(pairs[i].0, pairs[i].1)];
        assert old(contents) + prefix + IntPairs(pairs[..i], 8) + LE(pairs[i].0, 8) + LE(pairs[i].1, 8)
            == old(contents) + prefix + (IntPairs(pairs[..i], 8) + (LE(pairs[i].0, 8) + LE(pairs[i].1, 8)));
      }
      assert pairs[..|pairs|] == pairs;
      IntPairsLength(pairs, 8);
      assert contents == old(contents) + (prefix + IntPairs(pairs, 8));
    }

    // ---------- the fields of each record type ----------

    method SerializeHeader(r: Record)
      requires r.Header?
      modifies this
      ensures contents == old(contents) + Body(r)
    {
      hide LE, Str, StrMap, NumMap, WordBytes, Checksum, MapOf;
      var Header(profile, library) := r;
      AppendPrefixedString(profile);
      AppendPrefixedString(library);
      Joins2(old(contents), Str(profile), Str(library));
    }

    method SerializeFooter(r: Record)
      requires r.Footer?
      modifies this
      ensures contents == old(contents) + Body(r)
    {
      hide LE, Str, StrMap, NumMap, WordBytes, Checksum, MapOf;
      var Footer(start, offsetStart, crc) := r;
      Append(LE(start, 8));
      Append(LE(offsetStart, 8));
      Append(WordBytes(crc));
      Joins3(old(contents), LE(start, 8), LE(offsetStart, 8), WordBytes(crc));
    }

    method SerializeSchema(r: Record)
      requires r.Schema?
      modifies this
      ensures contents == old(contents) + Body(r)
    {
      hide LE, Str, StrMap, NumMap, WordBytes, Checksum, MapOf;
      var Schema(id, name, encoding, data) := r;
      Append(LE(id, 2));
      AppendPrefixedString(name);
      AppendPrefixedString(encoding);
      AppendPrefixedString(data);
      Joins4(old(contents), LE(id, 2), Str(name), Str(encoding), Str(data));
    }

    method SerializeChannel(r: Record) returns (ghost written: Record)
      requires r.Channel?
      modifies this
      ensures SameContent(r, written) && ListsOnce(written)
      ensures contents == old(contents) + Body(written)
    {
      hide LE, Str, StrMap, NumMap, WordBytes, Checksum, MapOf;
      var Channel(id, schemaId, topic, encoding, metadata) := r;
      Append(LE(id, 2));
      Append(LE(schemaId, 2));
      AppendPrefixedString(topic);
      AppendPrefixedString(encoding);
      ghost var order := AppendStringMap(MapOf(metadata));
      written := Channel(id, schemaId, topic, encoding, order);
      Joins5(old(contents), LE(id, 2), LE(schemaId, 2), Str(topic), Str(encoding), StrMap(order));
    }

    method SerializeMessage(r: Record)
      requires r.Message?
      modifies this
      ensures contents == old(contents) + Body(r)
    {
      hide LE, Str, StrMap, NumMap, WordBytes, Checksum, MapOf;
      var Message(channel, sequence, logTime, publishTime, data) := r;
      Append(LE(channel, 2));
      Append(LE(sequence, 4));
      Append(LE(logTime, 8));
      Append(LE(publishTime, 8));
      Append(data);
      Joins5(old(contents), LE(channel, 2), LE(sequence, 4), LE(logTime, 8), LE(publishTime, 8), data);
    }

    method SerializeChunk(r: Record)
      requires r.Chunk?
      modifies this
      ensures contents == old(contents) + Body(r)
    {
      hide LE, Str, StrMap, NumMap, WordBytes, Checksum, MapOf;
      var Chunk(start, end, size, crc, compression, data) := r;
      Append(LE(start, 8));
      Append(LE(end, 8));
      Append(LE(size, 8));
      Append(WordBytes(crc));
      AppendPrefixedString(compression);
      Append(LE(|data|, 8));
      Append(data);
      Joins7(old(contents), LE(start, 8), LE(end, 8), LE(size, 8), WordBytes(crc), Str(compression), LE(|data|, 8), data);
    }

    method SerializeMessageIndex(r: Record)
      requires r.MessageIndex?
      modifies this
      ensures contents == old(contents) + Body(r)
    {
      hide LE, Str, StrMap, NumMap, WordBytes, Checksum, MapOf;
      var MessageIndex(channel, entries) := r;
      Append(LE(channel, 2));
      AppendTupleArray(entries);
      Joins2(old(contents), LE(channel, 2), NumMap(entries, 8));
    }

    method SerializeChunkIndex(r: Record) returns (ghost written: Record)
      requires r.ChunkIndex?
      modifies this
      ensures SameContent(r, written) && ListsOnce(written)
      ensures contents == old(contents) + Body(written)
    {
      hide LE, Str, StrMap, NumMap, WordBytes, Checksum, MapOf;
      var ChunkIndex(start, end, offset, length, offsets, indexLength, compression, compressed, size) := r;
      Append(LE(start, 8));
      Append(LE(end, 8));
      Append(LE(offset, 8));
      Append(LE(length, 8));
      ghost var order := AppendIntMap(MapOf(offsets), 2);
      Append(LE(indexLength, 8));
      AppendPrefixedString(compression);
      Append(LE(compressed, 8));
      Append(LE(size, 8));
      written := ChunkIndex(start, end, offset, length, order, indexLength, compression, compressed, size);
      Joins9(old(contents), LE(start, 8), LE(end, 8), LE(offset, 8), LE(length, 8), NumMap(order, 2), LE(indexLength, 8), Str(compression), LE(compressed, 8), LE(size, 8));
    }

    method SerializeAttachment(r: Record)
      requires r.Attachment?
      modifies this
      ensures contents == old(contents) + Body(r)
    {
      hide LE, Str, StrMap, NumMap, WordBytes, Checksum, MapOf;
      var Attachment(logTime, createTime, name, mediaType, data) := r;
      var fieldsStartOffset := |contents|;
      Append(LE(logTime, 8));
      Append(LE(createTime, 8));
      AppendPrefixedString(name);
      AppendPrefixedString(mediaType);
      Append(LE(|data|, 8));
      Append(data);
      Joins6(old(contents), LE(logTime, 8), LE(createTime, 8), Str(name), Str(mediaType), LE(|data|, 8), data);
      var fields := contents[fieldsStartOffset..];
      assert fields == AttachmentFields(logTime, createTime, name, mediaType, data);
      Append(WordBytes(Checksum(fields)));
      assert old(contents) + fields + WordBytes(Checksum(fields)) == old(contents) + (fields + WordBytes(Checksum(fields)));
    }

    method SerializeAttachmentIndex(r: Record)
      requires r.AttachmentIndex?
      modifies this
      ensures contents == old(contents) + Body(r)
    {
      hide LE, Str, StrMap, NumMap, WordBytes, Checksum, MapOf;
      var AttachmentIndex(offset, length, logTime, createTime, size, name, mediaType) := r;
      Append(LE(offset, 8));
      Append(LE(length, 8));
      Append(LE(logTime, 8));
      Append(LE(createTime, 8));
      Append(LE(size, 8));
      AppendPrefixedString(name);
      AppendPrefixedString(mediaType);
      Joins7(old(contents), LE(offset, 8), LE(length, 8), LE(logTime, 8), LE(createTime, 8), LE(size, 8), Str(name), Str(mediaType));
    }

    method SerializeStatistics(r: Record) returns (ghost written: Record)
      requires r.Statistics?
      modifies this
      ensures SameContent(r, written) && ListsOnce(written)
      ensures contents == old(contents) + Body(written)
    {
      hide LE, Str, StrMap, NumMap, WordBytes, Checksum, MapOf;
      var Statistics(messages, schemas, channels, attachments, metadata, chunks, start, end, counts) := r;
      Append(LE(messages, 8));
      Append(LE(schemas, 2));
      Append(LE(channels, 4));
      Append(LE(attachments, 4));
      Append(LE(metadata, 4));
      Append(LE(chunks, 4));
      Append(LE(start, 8));
      Append(LE(end, 8));
      ghost var order := AppendIntMap(MapOf(counts), 2);
      written := Statistics(messages, schemas, channels, attachments, metadata, chunks, start, end, order);
      Joins9(old(contents), LE(messages, 8), LE(schemas, 2), LE(channels, 4), LE(attachments, 4), LE(metadata, 4), LE(chunks, 4), LE(start, 8), LE(end, 8), NumMap(order, 2));
    }

    method SerializeMetadata(r: Record) returns (ghost written: Record)
      requires r.Metadata?
      modifies this
      ensures SameContent(r, written) && ListsOnce(written)
      ensures contents == old(contents) + Body(written)
    {
      hide LE, Str, StrMap, NumMap, WordBytes, Checksum, MapOf;
      var Metadata(name, metadata) := r;
      AppendPrefixedString(name);
      ghost var order := AppendStringMap(MapOf(metadata));
      written := Metadata(name, order);
      Joins2(old(contents), Str(name), StrMap(order));
    }

    method SerializeMetadataIndex(r: Record)
      requires r.MetadataIndex?
      modifies this
      ensures contents == old(contents) + Body(r)
    {
      hide LE, Str, StrMap, NumMap, WordBytes, Checksum, MapOf;
      var MetadataIndex(offset, length, name) := r;
      Append(LE(offset, 8));
      Append(LE(length, 8));
      AppendPrefixedString(name);
      Joins3(old(contents), LE(offset, 8), LE(length, 8), Str(name));
    }

    method SerializeSummaryOffset(r: Record)
      requires r.SummaryOffset?
      modifies this
      ensures contents == old(contents) + Body(r)
    {
      hide LE, Str, StrMap, NumMap, WordBytes, Checksum, MapOf;
      var SummaryOffset(opcode, start, length) := r;
      Append([opcode]);
      Append(LE(start, 8));
      Append(LE(length, 8));
      Joins3(old(contents), [opcode], LE(start, 8), LE(length, 8));
    }

    method SerializeDataEnd(r: Record)
      requires r.DataEnd?
      modifies this
      ensures contents == old(contents) + Body(r)
    {
      hide LE, Str, StrMap, NumMap, WordBytes, Checksum, MapOf;
      var DataEnd(crc) := r;
      Append(WordBytes(crc));
    }

    /** Appends the fields of a record. Which order its maps are written in is not
        determined, only that all of their entries are. */
    method SerializeFields(r: Record) returns (ghost written: Record)
      modifies this
      ensures SameContent(r, written) && ListsOnce(written)
      ensures contents == old(contents) + Body(written)
    {
      hide Body, MapOf;
      written := r;
      match r
      case Header(_, _) => SerializeHeader(r);
      case Footer(_, _, _) => SerializeFooter(r);
      case Schema(_, _, _, _) => SerializeSchema(r);
      case Channel(_, _, _, _, _) => written := SerializeChannel(r);
      case Message(_, _, _, _, _) => SerializeMessage(r);
      case Chunk(_, _, _, _, _, _) => SerializeChunk(r);
      case MessageIndex(_, _) => SerializeMessageIndex(r);
      case ChunkIndex(_, _, _, _, _, _, _, _, _) => written := SerializeChunkIndex(r);
      case Attachment(_, _, _, _, _) => SerializeAttachment(r);
      case AttachmentIndex(_, _, _, _, _, _, _) => SerializeAttachmentIndex(r);
      case Statistics(_, _, _, _, _, _, _, _, _) => written := SerializeStatistics(r);
      case Metadata(_, _) => written := SerializeMetadata(r);
      case MetadataIndex(_, _, _) => SerializeMetadataIndex(r);
      case SummaryOffset(_, _, _) => SerializeSummaryOffset(r);
      case DataEnd(_) => SerializeDataEnd(r);
    }

    /** Appends a whole record: the length is written as zero and patched once the fields
        are there. */
    method Serialize(r: Record) returns (ghost written: Record)
      modifies this
      ensures SameContent(r, written) && ListsOnce(written)
      ensures contents == old(contents) + Encode(written)
    {
      hide LE, Body, SameContent;
      Append([r.Opcode()]);
      Append(LE(0, 8));
      var fieldsStartOffset := |contents|;
      written := SerializeFields(r);
      var fieldsLength := |contents| - fieldsStartOffset;
      Replace(fieldsStartOffset - 8, LE(fieldsLength, 8));
      SameOpcode(r, written);
      assert contents == old(contents) + ([r.Opcode()] + (LE(fieldsLength, 8) + Body(written)));
    }
  }

  lemma SameOpcode(a: Record, b: Record)
    requires SameContent(a, b)
    ensures a.Opcode() == b.Opcode()
  {
  }

  // Appending parts one after the other is appending them joined from the right.

  lemma Joins2(o: bytes, a: bytes, b: bytes)
    ensures o + a + b == o + (a + b)
  {
  }

  lemma Joins3(o: bytes, a: bytes, b: bytes, c: bytes)
    ensures o + a + b + c == o + (a + (b + c))
  {
    Joins2(o + a, b, c);
    Joins2(o, a, b + c);
  }

  lemma Joins4(o: bytes, a: bytes, b: bytes, c: bytes, d: bytes)
    ensures o + a + b + c + d == o + (a + (b + (c + d)))
  {
    Joins3(o + a, b, c, d);
    Joins2(o, a, b + (c + d));
  }

  lemma Joins5(o: bytes, a: bytes, b: bytes, c: bytes, d: bytes, e: bytes)
    ensures o + a + b + c + d + e == o + (a + (b + (c + (d + e))))
  {
    Joins4(o + a, b, c, d, e);
    Joins2(o, a, b + (c + (d + e)));
  }

  lemma Joins6(o: bytes, a: bytes, b: bytes, c: bytes, d: bytes, e: bytes, f: bytes)
    ensures o + a + b + c + d + e + f == o + (a + (b + (c + (d + (e + f)))))
  {
    Joins5(o + a, b, c, d, e, f);
    Joins2(o, a, b + (c + (d + (e + f))));
  }

  lemma Joins7(o: bytes, a: bytes, b: bytes, c: bytes, d: bytes, e: bytes, f: bytes, g: bytes)
    ensures o + a + b + c + d + e + f + g == o + (a + (b + (c + (d + (e + (f + g))))))
  {
    Joins6(o + a, b, c, d, e, f, g);
    Joins2(o, a, b + (c + (d + (e + (f + g)))));
  }

  lemma Joins8(o: bytes, a: bytes, b: bytes, c: bytes, d: bytes, e: bytes, f: bytes, g: bytes, h: bytes)
    ensures o + a + b + c + d + e + f + g + h == o + (a + (b + (c + (d + (e + (f + (g + h)))))))
  {
    Joins7(o + a, b, c, d, e, f, g, h);
    Joins2(o, a, b + (c + (d + (e + (f + (g + h))))));
  }

  lemma Joins9(o: bytes, a: bytes, b: bytes, c: bytes, d: bytes, e: bytes, f: bytes, g: bytes, h: bytes, i: bytes)
    ensures o + a + b + c + d + e + f + g + h + i == o + (a + (b + (c + (d + (e + (f + (g + (h + i))))))))
  {
    Joins8(o + a, b, c, d, e, f, g, h, i);
    Joins2(o, a, b + (c + (d + (e + (f + (g + (h + i)))))));
  }

  lemma Without<K, V>(m: map<K, V>, k: K)
    requires k in m
    ensures |m - {k}| == |m| - 1
  {
    assert (m - {k}).Keys == m.Keys - {k};
    assert |m.Keys| == |m| && |(m - {k}).Keys| == |m - {k}|;
  }

  lemma {:induction false} StringPairsMore(m: StringMap, k: bytes, v: bytes)
    ensures StringPairs(m + [(k, v)]) == StringPairs(m) + (Str(k) + Str(v))
    decreases |m|
  {
    hide Str;
    if m == [] {
      assert [(k, v)][1..] == [];
    } else {
      assert (m + [(k, v)])[1..] == m[1..] + [(k, v)];
      StringPairsMore(m[1..], k, v);
    }
  }

  lemma {:induction false} IntPairsMore(m: IntMap, k: nat, v: nat, keyWidth: nat)
    ensures IntPairs(m + [(k, v)], keyWidth) == IntPairs(m, keyWidth) + (LE(k, keyWidth) + LE(v, 8))
    decreases |m|
  {
    hide LE;
    if m == [] {
      assert [(k, v)][1..] == [];
    } else {
      assert (m + [(k, v)])[1..] == m[1..] + [(k, v)];
      IntPairsMore(m[1..], k, v, keyWidth);
    }
  }

  lemma {:induction false} IntPairsLength(m: IntMap, keyWidth: nat)
    ensures |IntPairs(m, keyWidth)| == |m| * (keyWidth + 8)
    decreases |m|
  {
    hide LE;
    if m != [] {
      IntPairsLength(m[1..], keyWidth);
      assert |m| * (keyWidth + 8) == (keyWidth + 8) + (|m| - 1) * (keyWidth + 8);
    }
  }

  // ---------- reading ----------

  /** The loop that fills a dictionary of strings from the bytes it occupies. */
  method ReadStringMap(buf: bytes, start: nat) returns (r: Parsed<map<bytes, bytes>>)
    ensures r.Malformed? <==> ReadStrMap(buf, start).Malformed?
    ensures r.Parsed? ==> r == Parsed(MapOf(ReadStrMap(buf, start).value), ReadStrMap(buf, start).next)
  {
    hide MapOf, ReadPrefixed;
    var range := ReadPrefixed(buf, start, 4);
    if range.Malformed? {
      return Malformed;
    }
    var subrange := range.value;
    var result: map<bytes, bytes> := map[];
    ghost var read: StringMap := [];
    var at := 0;
    MapOfNone<bytes, bytes>();
    while at < |subrange|
      invariant result == MapOf(read)
      invariant ReadStringPairs(subrange, 0).Malformed? <==> ReadStringPairs(subrange, at).Malformed?
      invariant ReadStringPairs(subrange, at).Parsed? ==>
        ReadStringPairs(subrange, 0).value == read + ReadStringPairs(subrange, at).value
      decreases |subrange| - at
    {
      var key := ReadPrefixed(subrange, at, 4);
      if key.Malformed? {
        return Malformed;
      }
      var value := ReadPrefixed(subrange, key.next, 4);
      if value.Malformed? {
        return Malformed;
      }
      MapOfMore(read, (key.value, value.value));
      result := result[key.value := value.value];
      ghost var rest := ReadStringPairs(subrange, value.next);
      if rest.Parsed? {
        assert read + ([(key.value, value.value)] + rest.value) == read + [(key.value, value.value)] + rest.value;
      }
      read := read + [(key.value, value.value)];
      at := value.next;
    }
    assert ReadStringPairs(subrange, at).value == [] && read + [] == read;
    r := Parsed(result, range.next);
  }

  lemma MapOfNone<K, V>()
    ensures MapOf<K, V>([]) == map[]
  {
  }

  /** The loop that fills a dictionary of integers from the bytes it occupies. */
  method ReadIntMap(buf: bytes, start: nat, keyWidth: nat) returns (r: Parsed<map<nat, nat>>)
    ensures r.Malformed? <==> ReadNumMap(buf, start, keyWidth).Malformed?
    ensures r.Parsed? ==> r == Parsed(MapOf(ReadNumMap(buf, start, keyWidth).value), ReadNumMap(buf, start, keyWidth).next)
  {
    hide MapOf, ReadPrefixed, ReadInt;
    var range := ReadPrefixed(buf, start, 4);
    if range.Malformed? {
      return Malformed;
    }
    var subrange := range.value;
    var result: map<nat, nat> := map[];
    ghost var read: IntMap := [];
    var at := 0;
    MapOfNone<nat, nat>();
    while at < |subrange|
      invariant result == MapOf(read)
      invariant ReadIntPairs(subrange, 0, keyWidth).Malformed? <==> ReadIntPairs(subrange, at, keyWidth).Malformed?
      invariant ReadIntPairs(subrange, at, keyWidth).Parsed? ==>
        ReadIntPairs(subrange, 0, keyWidth).value == read + ReadIntPairs(subrange, at, keyWidth).value
      decreases |subrange| - at
    {
      var key := ReadInt(subrange, at, keyWidth);
      if key.Malformed? {
        return Malformed;
      }
      var value := ReadInt(subrange, key.next, 8);
      if value.Malformed? {
        return Malformed;
      }
      MapOfMore(read, (key.value, value.value));
      result := result[key.value := value.value];
      ghost var rest := ReadIntPairs(subrange, value.next, keyWidth);
      if rest.Parsed? {
        assert read + ([(key.value, value.value)] + rest.value) == read + [(key.value, value.value)] + rest.value;
      }
      read := read + [(key.value, value.value)];
      at := value.next;
    }
    assert ReadIntPairs(subrange, at, keyWidth).value == [] && read + [] == read;
    r := Parsed(result, range.next);
  }

  datatype Deserialized = WrongOpcode(actual: byte) | OutOfBounds | Record(record: Records.Record)

  /** Reads one record of an expected type that starts at `at`. */
  function Deserialize(data: bytes, at: nat, expected: byte): Deserialized {
    if at >= |data| then OutOfBounds
    else if data[at] != expected then WrongOpcode(data[at])
    else
      var length := ReadInt(data, at + 1, 8);
      if length.Malformed? || length.next + length.value > |data| then OutOfBounds
      else
        match Decode(expected, data[length.next..length.next + length.value])
        case Known(r) => Record(r)
        case _ => OutOfBounds
  }

  /** A serialised record, wherever it stands, is read back exactly. */
  lemma SerializedReadsBack(before: bytes, r: Records.Record, after: bytes)
    requires r.Fits() && |Body(r)| < U64
    ensures Deserialize(before + Encode(r) + after, |before|, r.Opcode()) == Record(r)
  {
    hide Body, Decode, LE, ReadInt;
    var op, body := r.Opcode(), Body(r);
    var data := before + Encode(r) + after;
    Powers();
    AtBetween(before, Encode(r), after);
    AtSplits(data, |before|, [op], LE(|body|, 8) + body);
    AtSplits(data, |before| + 1, LE(|body|, 8), body);
    ReadIntAt(data, |before| + 1, |body|, 8);
    assert data[|before|..|before| + 1][0] == op;
    DecodesBack(r);
  }

  // ---------- any enumeration order takes the same space ----------

  /** The map a record holds, if it holds one, is listed without repeating a key. */
  ghost predicate ListsOnce(r: Records.Record) {
    match r
    case Channel(_, _, _, _, m) => |MapOf(m)| == |m|
    case Metadata(_, m) => |MapOf(m)| == |m|
    case ChunkIndex(_, _, _, _, m, _, _, _, _) => |MapOf(m)| == |m|
    case Statistics(_, _, _, _, _, _, _, _, m) => |MapOf(m)| == |m|
    case _ => true
  }

  lemma {:induction false} MapOfSize<K, V>(pairs: seq<(K, V)>)
    ensures |MapOf(pairs)| <= |pairs|
    decreases |pairs|
  {
    if pairs != [] {
      var init, last := pairs[..|pairs| - 1], pairs[|pairs| - 1];
      MapOfSize(init);
      var m := MapOf(init);
      assert m[last.0 := last.1].Keys == m.Keys + {last.0};
      assert |m[last.0 := last.1].Keys| <= |m.Keys| + 1;
      assert |m[last.0 := last.1]| == |m[last.0 := last.1].Keys| && |m| == |m.Keys|;
    }
  }

  /** A listing without repeats holds each entry of its dictionary exactly once. */
  lemma {:induction false} ListedOnce<K, V>(pairs: seq<(K, V)>, p: (K, V))
    requires |MapOf(pairs)| == |pairs|
    ensures multiset(pairs)[p] == if p.0 in MapOf(pairs) && MapOf(pairs)[p.0] == p.1 then 1 else 0
    decreases |pairs|
  {
    if pairs != [] {
      var init, last := pairs[..|pairs| - 1], pairs[|pairs| - 1];
      var m := MapOf(init);
      assert pairs == init + [last];
      MapOfSize(init);
      var longer := m[last.0 := last.1];
      assert longer.Keys == m.Keys + {last.0};
      assert |longer| == |longer.Keys| && |m| == |m.Keys|;
      assert last.0 in m.Keys ==> m.Keys + {last.0} == m.Keys;
      ListedOnce(init, p);
    }
  }

  lemma SameEntries<K, V>(a: seq<(K, V)>, b: seq<(K, V)>)
    requires MapOf(a) == MapOf(b) && |MapOf(a)| == |a| == |b|
    ensures multiset(a) == multiset(b)
  {
    forall p: (K, V)
      ensures multiset(a)[p] == multiset(b)[p]
    {
      ListedOnce(a, p);
      ListedOnce(b, p);
    }
  }

  lemma WithoutEntry<T>(s: seq<T>, i: nat)
    requires i < |s|
    ensures multiset(s[..i] + s[i + 1..]) == multiset(s) - multiset{s[i]}
  {
    assert s == s[..i] + ([s[i]] + s[i + 1..]);
    assert multiset(s) == multiset(s[..i]) + (multiset{s[i]} + multiset(s[i + 1..]));
  }

  /** The space a listing takes depends on its entries only. */
  lemma {:induction false} SameSpace(a: StringMap, b: StringMap)
    requires multiset(a) == multiset(b)
    ensures |StringPairs(a)| == |StringPairs(b)|
    decreases |a|
  {
    assert |multiset(a)| == |a| && |multiset(b)| == |b|;
    if a != [] {
      var p := a[0];
      assert p in multiset(b);
      var i :| 0 <= i < |b| && b[i] == p;
      assert a == [p] + a[1..];
      assert b == b[..i] + [p] + b[i + 1..];
      WithoutEntry(a, 0);
      WithoutEntry(b, i);
      assert a[..0] + a[1..] == a[1..];
      SameSpace(a[1..], b[..i] + b[i + 1..]);
      SpaceWithout(b, i);
    }
  }

  lemma {:induction false} SpaceWithout(m: StringMap, i: nat)
    requires i < |m|
    ensures |StringPairs(m)| == |StringPairs(m[..i] + m[i + 1..])| + |Str(m[i].0)| + |Str(m[i].1)|
    decreases i
  {
    if i == 0 {
      assert m[..0] + m[1..] == m[1..];
    } else {
      SpaceWithout(m[1..], i - 1);
      assert m[1..][..i - 1] + m[1..][i..] == (m[..i] + m[i + 1..])[1..];
    }
  }

  lemma SameMapFits(a: StringMap, b: StringMap)
    requires MapOf(a) == MapOf(b) && |MapOf(a)| == |a| == |b| && FitsMap(a)
    ensures FitsMap(b) && |StrMap(b)| == |StrMap(a)|
  {
    hide MapOf;
    SameEntries(a, b);
    SameSpace(a, b);
    forall p | p in b
      ensures |p.0| < U32 && |p.1| < U32
    {
      assert p in multiset(b);
      assert p in multiset(a);
      assert p in a;
    }
  }

  lemma SameIntMapFits(a: IntMap, b: IntMap, keyWidth: nat)
    requires MapOf(a) == MapOf(b) && |MapOf(a)| == |a| == |b| && FitsIntMap(a, keyWidth)
    ensures FitsIntMap(b, keyWidth) && |NumMap(b, keyWidth)| == |NumMap(a, keyWidth)|
  {
    hide MapOf;
    SameEntries(a, b);
    IntPairsLength(a, keyWidth);
    IntPairsLength(b, keyWidth);
    forall p | p in b
      ensures p.0 < Pow256(keyWidth) && p.1 < U64
    {
      assert p in multiset(b);
      assert p in multiset(a);
      assert p in a;
    }
  }

  /** Another listing of the same content fits if one listing does. */
  lemma SameContentFits(a: Records.Record, b: Records.Record)
    requires SameContent(a, b) && ListsOnce(a) && ListsOnce(b) && a.Fits()
    ensures b.Fits() && |Body(b)| == |Body(a)|
  {
    hide MapOf, FitsMap, FitsIntMap, LE, StrMap, NumMap, Str, WordBytes, Checksum;
    match a
    case Channel(_, _, _, _, m) => SameMapFits(m, b.channelMetadata);
    case Metadata(_, m) => SameMapFits(m, b.metadata);
    case ChunkIndex(_, _, _, _, m, _, _, _, _) => SameIntMapFits(m, b.indexOffsets, 2);
    case Statistics(_, _, _, _, _, _, _, _, m) => SameIntMapFits(m, b.channelMessageCounts, 2);
    case _ =>
  }

  /** Serialising a record and reading it back gives a record with the same content,
      whatever surrounds it and in whatever order its maps were enumerated. */
  method RoundTrip(before: bytes, r: Records.Record, after: bytes) returns (result: Deserialized)
    requires ListsOnce(r) && r.Fits() && |Body(r)| < U64
    ensures result.Record? && SameContent(r, result.record)
  {
    hide SameContent, Body, Decode, ReadInt, Encode, Deserialize, ListsOnce;
    var data := new Data();
    data.Append(before);
    ghost var written := data.Serialize(r);
    data.Append(after);
    SameContentFits(r, written);
    SerializedReadsBack(before, written, after);
    SameOpcode(r, written);
    assert [] + before + Encode(written) + after == before + Encode(written) + after;
    result := Deserialize(data.contents, |before|, r.Opcode());
  }
}
