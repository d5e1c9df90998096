/** The end of the files the Rust writer makes: the groups of the summary section, their
    offsets, and what the footer says. */
module RustFooter {
  import opened Bytes
  import opened Crc
  import opened Format
  import opened Records
  import opened RustLayout
  import opened RustRegistry
  import opened RustMachine
  import opened RustSummary
  import opened RustRead
  import opened RustWriter

  // ---------- groups ----------

  /** A group has records, all of its opcode. */
  ghost predicate Homogeneous(g: Group) {
    g.records != [] && forall i :: 0 <= i < |g.records| ==> EntryOp(g.records[i]) == g.opcode
  }

  ghost predicate AllHomogeneous(gs: seq<Group>) {
    forall i :: 0 <= i < |gs| ==> Homogeneous(gs[i])
  }

  /** All records of a list are of one type. */
  ghost predicate AllOf(rs: seq<Record>, op: byte) {
    forall i :: 0 <= i < |rs| ==> rs[i].Opcode() == op
  }

  lemma GroupIfHomogeneous(on: bool, op: byte, records: seq<Entry>)
    requires forall i :: 0 <= i < |records| ==> EntryOp(records[i]) == op
    ensures AllHomogeneous(GroupIf(on, op, records))
  {
  }

  lemma {:induction false} IndexOpcodes(o: Options, items: seq<Item>)
    ensures AllOf(ChunkIndexList(o, items), OP_CHUNK_INDEX)
    ensures AllOf(AttachmentIndexList(o, items), OP_ATTACHMENT_INDEX)
    ensures AllOf(MetadataIndexList(o, items), OP_METADATA_INDEX)
    decreases |items|
  {
    hide Layout, ChunkBytes, AttachmentBytes, EntryBytes, BoundsOf, Raw, IndexOffsets, Trailer, ChunkIndexes;
    if items != [] {
      IndexOpcodes(o, items[..|items| - 1]);
    }
  }

  /** Every group of a summary section is non-empty and holds one record type. */
  lemma GroupsAreHomogeneous(o: Options, s: State, schemaOrder: seq<nat>, channelOrder: seq<nat>)
    requires s.schemas.Valid() && s.channels.Valid()
    requires Visits(schemaOrder, s.schemas.all) && Visits(channelOrder, s.channels.all)
    ensures SummaryOf(o, s).schemas.Keys == s.schemas.all.Keys && SummaryOf(o, s).channels.Keys == s.channels.all.Keys
    ensures AllHomogeneous(Groups(o, SummaryOf(o, s), schemaOrder, channelOrder))
  {
    hide ChunkIndexList, AttachmentIndexList, MetadataIndexList, SchemasOf, ChannelsOf, Registry.Valid, Homogeneous, GroupIf,
         NumAttachments, NumMetadata, Listed, Total, Ascending;
    SummaryKeys(s);
    IndexOpcodes(o, s.items);
    var m := SummaryOf(o, s);
    GroupIfHomogeneous(o.repeatSchemas, OP_SCHEMA, SchemaEntries(m.schemas, schemaOrder));
    GroupIfHomogeneous(o.repeatChannels, OP_CHANNEL, ChannelEntries(m.channels, channelOrder));
    GroupIfHomogeneous(o.emitStatistics, OP_STATISTICS, [Typed(m.stats)]);
    GroupIfHomogeneous(o.emitChunkIndexes, OP_CHUNK_INDEX, TypedAll(m.chunkIndexes));
    GroupIfHomogeneous(o.emitAttachmentIndexes, OP_ATTACHMENT_INDEX, TypedAll(m.attachmentIndexes));
    GroupIfHomogeneous(o.emitMetadataIndexes, OP_METADATA_INDEX, TypedAll(m.metadataIndexes));
  }

  // ---------- tiling ----------

  lemma RawIsNotEmpty(es: seq<Entry>)
    requires es != []
    ensures |Raw(es)| >= 9
  {
    hide EntryBytes;
    EntryBytesLength(es[|es| - 1]);
  }

  lemma {:induction false} GroupBytesEmpty(gs: seq<Group>)
    requires AllHomogeneous(gs)
    ensures |GroupBytes(gs)| > 0 <==> gs != []
  {
    hide Raw;
    if gs != [] {
      RawIsNotEmpty(gs[|gs| - 1].records);
    }
  }

  lemma {:induction false} OffsetsPerGroup(gs: seq<Group>, start: nat)
    ensures |GroupOffsets(gs, start)| == |gs|
    decreases |gs|
  {
    hide GroupBytes, Raw;
    if gs != [] {
      OffsetsPerGroup(gs[..|gs| - 1], start);
    }
  }

  /** The k-th summary offset: the group's opcode, where the groups before it end, and its
      length; the bytes of exactly its records stand there. */
  lemma {:induction false} OffsetDescribesGroup(gs: seq<Group>, start: nat, k: nat)
    requires k < |gs|
    ensures |GroupOffsets(gs, start)| == |gs|
    ensures GroupOffsets(gs, start)[k] ==
            Typed(SummaryOffset(gs[k].opcode, start + |GroupBytes(gs[..k])|, |Raw(gs[k].records)|))
    ensures At(GroupBytes(gs), |GroupBytes(gs[..k])|, Raw(gs[k].records))
    ensures |GroupBytes(gs[..k])| + |Raw(gs[k].records)| == |GroupBytes(gs[..k + 1])|
    decreases |gs|
  {
    hide At, Raw;
    var n := |gs| - 1;
    OffsetsPerGroup(gs, start);
    OffsetsPerGroup(gs[..n], start);
    GroupsMore(gs[..k], gs[k], start);
    assert gs[..k] + [gs[k]] == gs[..k + 1];
    if k < n {
      OffsetDescribesGroup(gs[..n], start, k);
      assert gs[..n][..k] == gs[..k];
      AtPrefix(GroupBytes(gs[..n]), Raw(gs[n].records), |GroupBytes(gs[..k])|, Raw(gs[k].records));
    } else {
      assert gs[..n + 1] == gs;
      AtLast(GroupBytes(gs[..n]), Raw(gs[n].records));
    }
  }

  /** The summary offsets tile the summary section: the first group starts where the section
      starts, each further one where the one before it ends, the last one ends where the
      section ends; and each range holds exactly its group's records. */
  lemma OffsetsTile(o: Options, gs: seq<Group>, before: bytes, k: nat)
    requires k < |gs|
    ensures |GroupOffsets(gs, |before|)| == |gs| && GroupOffsets(gs, |before|)[k].Typed?
    ensures var file, r := before + Ending(o, gs, |before|), GroupOffsets(gs, |before|)[k].record;
            r.SummaryOffset? && r.groupOpcode == gs[k].opcode && r.groupLength == |Raw(gs[k].records)| &&
            (k == 0 ==> r.groupStart == |before|) &&
            (k + 1 < |gs| ==> GroupOffsets(gs, |before|)[k + 1].Typed? &&
                              GroupOffsets(gs, |before|)[k + 1].record.SummaryOffset? &&
                              GroupOffsets(gs, |before|)[k + 1].record.groupStart == r.groupStart + r.groupLength) &&
            (k + 1 == |gs| ==> r.groupStart + r.groupLength == |before| + |GroupBytes(gs)|) &&
            At(file, r.groupStart, Raw(gs[k].records))
  {
    hide At, Raw, GroupBytes, GroupOffsets, WordBytes, FooterHead, OffsetBytes, SummaryCrc;
    NoGroups(|before|);
    OffsetDescribesGroup(gs, |before|, k);
    assert gs[..0] == [] && gs[..|gs|] == gs;
    if k + 1 < |gs| {
      OffsetDescribesGroup(gs, |before|, k + 1);
    }
    var start := |before|;
    var rest := OffsetBytes(o, gs, start) + FooterHead(SummaryStart(gs, start), SummaryOffsetStart(o, gs, start)) +
                WordBytes(SummaryCrc(o, gs, start)) + MAGIC;
    var file := before + Ending(o, gs, start);
    GroupsLead(GroupBytes(gs), OffsetBytes(o, gs, start),
               FooterHead(SummaryStart(gs, start), SummaryOffsetStart(o, gs, start)), WordBytes(SummaryCrc(o, gs, start)));
    assert file == (before + GroupBytes(gs)) + rest;
    AtBehind(before, GroupBytes(gs), |GroupBytes(gs[..k])|, Raw(gs[k].records));
    AtPrefix(before + GroupBytes(gs), rest, |before| + |GroupBytes(gs[..k])|, Raw(gs[k].records));
  }

  lemma GroupsLead(a: bytes, b: bytes, c: bytes, d: bytes)
    ensures a + b + c + d + MAGIC == a + (b + c + d + MAGIC)
  {
  }

  lemma AtBehind(before: bytes, buf: bytes, at: nat, piece: bytes)
    requires At(buf, at, piece)
    ensures At(before + buf, |before| + at, piece)
  {
    assert (before + buf)[|before| + at..|before| + at + |piece|] == buf[at..at + |piece|];
  }

  // ---------- the footer ----------

  /** The 37 last bytes of a file: footer and magic. */
  lemma FooterIsEncoded(summaryStart: nat, offsetStart: nat, crc: bv32)
    ensures FooterHead(summaryStart, offsetStart) + WordBytes(crc) == Encode(Footer(summaryStart, offsetStart, crc))
    ensures |FooterHead(summaryStart, offsetStart)| == 25
  {
    hide LE, WordBytes;
    var a, b, c, d := LE(20, 8), LE(summaryStart, 8), LE(offsetStart, 8), WordBytes(crc);
    assert |b + (c + d)| == 20;
    assert [OP_FOOTER] + a + b + c + d == [OP_FOOTER] + (a + (b + (c + d)));
  }

  /** The file ends in a footer and the magic. The footer names the start of the summary
      section, or zero if the section is empty, and its checksum covers exactly the bytes
      from the start of the section through the footer's own offset fields. */
  lemma FooterIsRight(o: Options, gs: seq<Group>, before: bytes)
    requires AllHomogeneous(gs)
    ensures var file, start := before + Ending(o, gs, |before|), |before|;
            var footer := Footer(if gs == [] then 0 else start, SummaryOffsetStart(o, gs, start), SummaryCrc(o, gs, start));
            |file| >= start + 37 && file[|file| - 8..] == MAGIC &&
            file[|file| - 37..|file| - 8] == Encode(footer) &&
            (o.summaryCrc ==> footer.summaryCrc == Checksum(file[start..|file| - 12]))
  {
    hide GroupBytes, OffsetBytes, FooterHead, Encode, Checksum, WordBytes;
    var start := |before|;
    GroupBytesEmpty(gs);
    var head := FooterHead(SummaryStart(gs, start), SummaryOffsetStart(o, gs, start));
    var crc := WordBytes(SummaryCrc(o, gs, start));
    FooterIsEncoded(SummaryStart(gs, start), SummaryOffsetStart(o, gs, start), SummaryCrc(o, gs, start));
    var body := GroupBytes(gs) + OffsetBytes(o, gs, start);
    var file := before + (body + head + crc + MAGIC);
    assert |file| == start + |body| + 37;
    assert file[|file| - 8..] == MAGIC;
    assert file[|file| - 37..|file| - 8] == head + crc;
    assert file[start..|file| - 12] == body + head;
  }

  /** A reader of the format takes a summary offset start of zero to mean that there are no
      summary offsets. The writer's footer agrees unless summary offsets are on and there is
      nothing to summarise: then it names the footer itself. */
  lemma OffsetStartMeansOffsets(o: Options, gs: seq<Group>, start: nat)
    requires AllHomogeneous(gs) && start > 0
    ensures (SummaryOffsetStart(o, gs, start) == 0 <==> OffsetBytes(o, gs, start) == []) <==>
            (!o.emitSummaryOffsets || gs != [])
  {
    hide GroupBytes, Raw;
    OffsetsPerGroup(gs, start);
    if gs != [] {
      RawIsNotEmpty(GroupOffsets(gs, start));
    } else {
      NoGroups(start);
      RawEmpty();
    }
  }

  /** A finished file without any call, with summary offsets on and statistics off: there are no
      groups and no offsets, but the footer names an offset start. */
  lemma NothingToSummarise(o: Options)
    requires o.emitSummaryOffsets && !o.emitStatistics
    ensures var s, start := Initial(o), |DataSection(o, Initial(o).items)|;
            s.schemas.Valid() && s.channels.Valid() && Visits([], s.schemas.all) && Visits([], s.channels.all) &&
            SummaryOf(o, s).schemas == map[] && SummaryOf(o, s).channels == map[] &&
            var gs := Groups(o, SummaryOf(o, s), [], []);
            gs == [] && OffsetBytes(o, gs, start) == [] && SummaryOffsetStart(o, gs, start) == start && start > 0 &&
            WholeFile(o, s, [], []) == DataSection(o, s.items) + Ending(o, [], start)
  {
    hide Layout, EntryBytes, Ending, DataCrc;
    var s := Initial(o);
    assert s.items[..0] == [];
    NoIndexesAtStart(o);
    NoGroups(|DataSection(o, s.items)|);
    RawEmpty();
    EntryIsNotEmpty(Typed(DataEnd(DataCrc(o, s.items))));
  }

  lemma NoIndexesAtStart(o: Options)
    ensures var b := BooksOf(o, Initial(o).items);
            b.chunkIndexes == [] && b.attachmentIndexes == [] && b.metadataIndexes == []
  {
    hide Layout;
    var items := Initial(o).items;
    assert items[..|items| - 1] == [];
    assert ChunkIndexList(o, []) == [] && AttachmentIndexList(o, []) == [] && MetadataIndexList(o, []) == [];
    assert ChunkIndexList(o, items) == [] && AttachmentIndexList(o, items) == [] && MetadataIndexList(o, items) == [];
  }

  lemma EntryIsNotEmpty(e: Entry)
    ensures EntryBytes(e) != []
  {
  }

  /** Every channel in the summary is repeated as it was written. */
  lemma ChannelsRepeatRecords(s: State, id: nat)
    requires s.schemas.Valid() && s.channels.Valid() && id in s.channels.all
    requires var c := s.channels.Content(id); c.schemaId == 0 || c.schemaId in s.schemas.all
    ensures var c := s.channels.Content(id);
            id in ChannelsOf(s.channels, SchemasOf(s.schemas)) &&
            SummaryChannelEntry(id, ChannelsOf(s.channels, SchemasOf(s.schemas))[id]) == ChannelEntry(id, c)
  {
    hide Registry.Valid, Registry.Content;
  }
}
