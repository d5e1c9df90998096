/** What the Rust writer keeps for the end of the file, and how it writes the summary
    section, the footer and the closing magic. */
module RustSummary {
  import opened Bytes
  import opened Crc
  import opened Format
  import opened Records
  import opened RustIo
  import opened RustLayout
  import opened RustRegistry
  import opened RustMachine

  datatype SummaryChannel = SummaryChannel(topic: bytes, encoding: bytes, metadata: StringMap,
                                           schema: Option<(nat, SchemaContent)>)

  datatype Summary = Summary(
    stats: Record,
    channels: map<nat, SummaryChannel>,
    schemas: map<nat, SchemaContent>,
    chunkIndexes: seq<Record>,
    attachmentIndexes: seq<Record>,
    metadataIndexes: seq<Record>)

  // ---------- statistics ----------

  /** The counts of the listed channels. */
  function Listed(counts: map<nat, nat>, channels: seq<nat>): IntMap
    decreases |channels|
  {
    if channels == [] then []
    else
      var n := |channels| - 1;
      Listed(counts, channels[..n]) + [(channels[n], if channels[n] in counts then counts[channels[n]] else 0)]
  }

  function Total(listed: IntMap): nat
    decreases |listed|
  {
    if listed == [] then 0 else Total(listed[..|listed| - 1]) + listed[|listed| - 1].1
  }

  /** The statistics record; the schema count is cut to 16 bits. */
  function StatisticsOf(s: State, chunks: nat, attachments: nat, metadata: nat): Record {
    var listed := Listed(s.counts, Ascending(s.counts.Keys));
    Statistics(Total(listed), |s.schemas.all| % U16, |s.channels.all|, attachments, metadata, chunks,
               StartTime(s.bounds), EndTime(s.bounds), listed)
  }

  // ---------- the schemas and channels of the summary ----------

  /** Every written schema ID with the content it stands for. */
  ghost function SchemasOf(r: Registry<SchemaContent>): map<nat, SchemaContent>
    requires r.Valid()
  {
    map id | id in r.all :: r.Content(id)
  }

  function SummaryChannelFor(c: ChannelContent, schemas: map<nat, SchemaContent>): SummaryChannel {
    SummaryChannel(c.topic, c.encoding, c.metadata,
                   if c.schemaId in schemas then Some((c.schemaId, schemas[c.schemaId])) else None)
  }

  ghost function ChannelsOf(r: Registry<ChannelContent>, schemas: map<nat, SchemaContent>): map<nat, SummaryChannel>
    requires r.Valid()
  {
    map id | id in r.all :: SummaryChannelFor(r.Content(id), schemas)
  }

  lemma ContentStands<T>(r: Registry<T>, id: nat)
    requires r.Valid() && id in r.all
    ensures id < U16 && r.all[id] in r.canonical.right && r.canonical.right[r.all[id]] == r.Content(id)
  {
  }

  /** Collected by visiting the IDs in ascending order. */
  method TakeSchemas(r: Registry<SchemaContent>) returns (m: map<nat, SchemaContent>)
    requires r.Valid()
    ensures m == SchemasOf(r)
  {
    hide Registry.Valid, Registry.Content, Ascending;
    m := map[];
    var ids := Ascending(r.all.Keys);
    var i := 0;
    while i < |ids|
      invariant i <= |ids|
      invariant forall id :: id in m <==> id in ids[..i]
      invariant forall id :: id in m ==> id in r.all && m[id] == r.Content(id)
    {
      ContentStands(r, ids[i]);
      m := m[ids[i] := r.canonical.right[r.all[ids[i]]]];
      assert ids[..i + 1] == ids[..i] + [ids[i]];
      i := i + 1;
    }
    assert ids[..i] == ids;
    forall id | id in r.all ensures id in m {
      ContentStands(r, id);
    }
  }

  method TakeChannels(r: Registry<ChannelContent>, schemas: map<nat, SchemaContent>) returns (m: map<nat, SummaryChannel>)
    requires r.Valid()
    ensures m == ChannelsOf(r, schemas)
  {
    hide SummaryChannelFor, Registry.Valid, Registry.Content, Ascending;
    m := map[];
    var ids := Ascending(r.all.Keys);
    var i := 0;
    while i < |ids|
      invariant i <= |ids|
      invariant forall id :: id in m <==> id in ids[..i]
      invariant forall id :: id in m ==> id in r.all && m[id] == SummaryChannelFor(r.Content(id), schemas)
    {
      ContentStands(r, ids[i]);
      m := m[ids[i] := SummaryChannelFor(r.canonical.right[r.all[ids[i]]], schemas)];
      assert ids[..i + 1] == ids[..i] + [ids[i]];
      i := i + 1;
    }
    assert ids[..i] == ids;
    forall id | id in r.all ensures id in m {
      ContentStands(r, id);
    }
  }

  // ---------- the groups ----------

  datatype Group = Group(opcode: byte, records: seq<Entry>)

  function SummaryChannelEntry(id: nat, c: SummaryChannel): Entry {
    Typed(Channel(id, if c.schema.Some? then c.schema.value.0 else 0, c.topic, c.encoding, c.metadata))
  }

  function SchemaEntries(m: map<nat, SchemaContent>, order: seq<nat>): (r: seq<Entry>)
    requires forall id :: id in order ==> id in m
  {
    seq(|order|, i requires 0 <= i < |order| => SchemaEntry(order[i], m[order[i]]))
  }

  function ChannelEntries(m: map<nat, SummaryChannel>, order: seq<nat>): (r: seq<Entry>)
    requires forall id :: id in order ==> id in m
  {
    seq(|order|, i requires 0 <= i < |order| => SummaryChannelEntry(order[i], m[order[i]]))
  }

  function TypedAll(rs: seq<Record>): (r: seq<Entry>) {
    seq(|rs|, i requires 0 <= i < |rs| => Typed(rs[i]))
  }

  function GroupIf(on: bool, opcode: byte, records: seq<Entry>): seq<Group> {
    if on && records != [] then [Group(opcode, records)] else []
  }

  /** `order` visits every key of a hash map once. */
  ghost predicate Visits<T>(order: seq<nat>, m: map<nat, T>) {
    && (forall id :: id in order <==> id in m)
    && (forall i, j :: 0 <= i < j < |order| ==> order[i] != order[j])
  }

  /** The groups of the summary section, for one order of visiting its two hash maps. */
  function Groups(o: Options, m: Summary, schemaOrder: seq<nat>, channelOrder: seq<nat>): seq<Group>
    requires forall id :: id in schemaOrder ==> id in m.schemas
    requires forall id :: id in channelOrder ==> id in m.channels
  {
    GroupIf(o.repeatSchemas, OP_SCHEMA, SchemaEntries(m.schemas, schemaOrder)) +
    GroupIf(o.repeatChannels, OP_CHANNEL, ChannelEntries(m.channels, channelOrder)) +
    GroupIf(o.emitStatistics, OP_STATISTICS, [Typed(m.stats)]) +
    GroupIf(o.emitChunkIndexes, OP_CHUNK_INDEX, TypedAll(m.chunkIndexes)) +
    GroupIf(o.emitAttachmentIndexes, OP_ATTACHMENT_INDEX, TypedAll(m.attachmentIndexes)) +
    GroupIf(o.emitMetadataIndexes, OP_METADATA_INDEX, TypedAll(m.metadataIndexes))
  }

  function GroupBytes(gs: seq<Group>): bytes
    decreases |gs|
  {
    if gs == [] then [] else GroupBytes(gs[..|gs| - 1]) + Raw(gs[|gs| - 1].records)
  }

  /** The summary offset of every group, the first one starting at `start`. */
  function GroupOffsets(gs: seq<Group>, start: nat): seq<Entry>
    decreases |gs|
  {
    if gs == [] then []
    else
      var n := |gs| - 1;
      GroupOffsets(gs[..n], start) +
      [Typed(SummaryOffset(gs[n].opcode, start + |GroupBytes(gs[..n])|, |Raw(gs[n].records)|))]
  }

  // ---------- the end of the file ----------

  function OffsetBytes(o: Options, gs: seq<Group>, start: nat): bytes {
    if o.emitSummaryOffsets then Raw(GroupOffsets(gs, start)) else []
  }

  /** The offset fields of the footer. */
  function SummaryStart(gs: seq<Group>, start: nat): nat {
    if |GroupBytes(gs)| > 0 then start else 0
  }

  function SummaryOffsetStart(o: Options, gs: seq<Group>, start: nat): nat {
    if o.emitSummaryOffsets then start + |GroupBytes(gs)| else 0
  }

  /** The footer up to its checksum. */
  function FooterHead(summaryStart: nat, offsetStart: nat): bytes {
    [OP_FOOTER] + LE(20, 8) + LE(summaryStart, 8) + LE(offsetStart, 8)
  }

  /** Everything the summary checksum covers. */
  function Covered(o: Options, gs: seq<Group>, start: nat): bytes {
    GroupBytes(gs) + OffsetBytes(o, gs, start) + FooterHead(SummaryStart(gs, start), SummaryOffsetStart(o, gs, start))
  }

  function SummaryCrc(o: Options, gs: seq<Group>, start: nat): bv32 {
    if o.summaryCrc then Checksum(Covered(o, gs, start)) else 0
  }

  /** The file behind its DataEnd record. */
  function Ending(o: Options, gs: seq<Group>, start: nat): bytes {
    Covered(o, gs, start) + WordBytes(SummaryCrc(o, gs, start)) + MAGIC
  }

  // ---------- writing ----------

  lemma GroupsMore(gs: seq<Group>, g: Group, start: nat)
    ensures GroupBytes(gs + [g]) == GroupBytes(gs) + Raw(g.records)
    ensures GroupOffsets(gs + [g], start) == GroupOffsets(gs, start) +
            [Typed(SummaryOffset(g.opcode, start + |GroupBytes(gs)|, |Raw(g.records)|))]
  {
    hide Raw;
    assert (gs + [g])[..|gs|] == gs;
  }

  lemma RawPrefix(es: seq<Entry>, n: nat)
    requires n < |es|
    ensures Raw(es[..n + 1]) == Raw(es[..n]) + EntryBytes(es[n])
  {
    hide EntryBytes;
    RawMore(es[..n], es[n]);
    assert es[..n] + [es[n]] == es[..n + 1];
  }

  lemma RawOfNothing()
    ensures Raw([]) == []
  {
  }

  /** Writes records one after the other through the summary's counting writer. */
  method WriteAll(output: Stream, crc: CountingCrc, records: seq<Entry>, ghost on: bool, ghost covered: bytes)
    returns (t: CountingCrc)
    requires output.AtEnd() && crc.hasher == HashIf(on, covered)
    modifies output
    ensures output.AtEnd() && output.data == old(output.data) + Raw(records)
    ensures t.hasher == HashIf(on, covered + Raw(records))
  {
    hide HashIf, CountingCrc.Wrote, Overwrite, EntryBytes, Raw;
    t := crc;
    RawOfNothing();
    assert output.data + [] == output.data && covered + [] == covered;
    var i := 0;
    while i < |records|
      invariant i <= |records|
      invariant output.AtEnd() && output.data == old(output.data) + Raw(records[..i])
      invariant t.hasher == HashIf(on, covered + Raw(records[..i]))
    {
      ghost var done := Raw(records[..i]);
      var e := EntryBytes(records[i]);
      RawPrefix(records, i);
      WroteIsHash(on, covered + done, t.count, e);
      JoinAssociates(covered, done, e);
      JoinAssociates(old(output.data), done, e);
      output.Write(e);
      t := t.Wrote(e);
      i := i + 1;
    }
    assert records[..i] == records;
  }

  /** What has been written of the summary section after some groups. */
  datatype Progress = Progress(crc: CountingCrc, end: nat, offsets: seq<Entry>)

  ghost predicate Reached(p: Progress, o: Options, gs: seq<Group>, before: bytes, output: Stream)
    reads output
  {
    && output.AtEnd() && output.data == before + GroupBytes(gs)
    && p.crc.hasher == HashIf(o.summaryCrc, GroupBytes(gs))
    && p.end == |before| + |GroupBytes(gs)|
    && p.offsets == GroupOffsets(gs, |before|)
  }

  /** One optional group: its records, and a summary offset for them. */
  method WriteGroup(output: Stream, o: Options, p: Progress, on: bool, opcode: byte, records: seq<Entry>,
                    ghost gs: seq<Group>, ghost before: bytes)
    returns (t: Progress)
    requires Reached(p, o, gs, before, output)
    modifies output
    ensures Reached(t, o, gs + GroupIf(on, opcode, records), before, output)
  {
    hide HashIf, Raw, GroupBytes, GroupOffsets;
    t := p;
    if on && records != [] {
      var start := p.end;
      var crc := WriteAll(output, p.crc, records, o.summaryCrc, GroupBytes(gs));
      GroupsMore(gs, Group(opcode, records), |before|);
      JoinAssociates(before, GroupBytes(gs), Raw(records));
      var end := output.pos;
      t := Progress(crc, end, p.offsets + [Typed(SummaryOffset(opcode, start, end - start))]);
    } else {
      assert gs + [] == gs;
    }
  }

  lemma NoGroups(start: nat)
    ensures GroupBytes([]) == [] && GroupOffsets([], start) == []
  {
  }

  /** All six groups in their fixed order. */
  method WriteGroups(output: Stream, o: Options, m: Summary, schemaOrder: seq<nat>, channelOrder: seq<nat>)
    returns (p: Progress)
    requires output.AtEnd()
    requires forall id :: id in schemaOrder ==> id in m.schemas
    requires forall id :: id in channelOrder ==> id in m.channels
    modifies output
    ensures Reached(p, o, Groups(o, m, schemaOrder, channelOrder), old(output.data), output)
  {
    hide GroupIf, GroupBytes, GroupOffsets, SchemaEntries, ChannelEntries, TypedAll, HashIf, NewCounter;
    ghost var before := output.data;
    NoGroups(|before|);
    NewCounterIsHash(o.summaryCrc);
    assert before + [] == before;
    p := Progress(NewCounter(o.summaryCrc), output.pos, []);
    assert Reached(p, o, [], before, output);
    hide Reached;
    var schemas := SchemaEntries(m.schemas, schemaOrder);
    var channels := ChannelEntries(m.channels, channelOrder);
    ghost var gs := GroupIf(o.repeatSchemas, OP_SCHEMA, schemas);
    assert [] + gs == gs;
    p := WriteGroup(output, o, p, o.repeatSchemas, OP_SCHEMA, schemas, [], before);
    p := WriteGroup(output, o, p, o.repeatChannels, OP_CHANNEL, channels, gs, before);
    gs := gs + GroupIf(o.repeatChannels, OP_CHANNEL, channels);
    p := WriteGroup(output, o, p, o.emitStatistics, OP_STATISTICS, [Typed(m.stats)], gs, before);
    gs := gs + GroupIf(o.emitStatistics, OP_STATISTICS, [Typed(m.stats)]);
    p := WriteGroup(output, o, p, o.emitChunkIndexes, OP_CHUNK_INDEX, TypedAll(m.chunkIndexes), gs, before);
    gs := gs + GroupIf(o.emitChunkIndexes, OP_CHUNK_INDEX, TypedAll(m.chunkIndexes));
    p := WriteGroup(output, o, p, o.emitAttachmentIndexes, OP_ATTACHMENT_INDEX, TypedAll(m.attachmentIndexes), gs, before);
    gs := gs + GroupIf(o.emitAttachmentIndexes, OP_ATTACHMENT_INDEX, TypedAll(m.attachmentIndexes));
    p := WriteGroup(output, o, p, o.emitMetadataIndexes, OP_METADATA_INDEX, TypedAll(m.metadataIndexes), gs, before);
  }

  /** The summary section, the footer whose checksum covers the section and the footer's own
      offset fields, and the magic. */
  method WriteSummaryAndFooter(output: Stream, o: Options, m: Summary, schemaOrder: seq<nat>, channelOrder: seq<nat>)
    requires output.AtEnd()
    requires forall id :: id in schemaOrder ==> id in m.schemas
    requires forall id :: id in channelOrder ==> id in m.channels
    modifies output
    ensures output.AtEnd()
    ensures output.data == old(output.data) + Ending(o, Groups(o, m, schemaOrder, channelOrder), |old(output.data)|)
  {
    hide GroupBytes, GroupOffsets, HashIf, Groups, Raw, Checksum, CountingCrc.Wrote, LE, WordBytes, Overwrite;
    ghost var before := output.data;
    ghost var gs := Groups(o, m, schemaOrder, channelOrder);
    ghost var body, offs := GroupBytes(gs), OffsetBytes(o, gs, |before|);
    var summaryStart := output.pos;
    var p := WriteGroups(output, o, m, schemaOrder, channelOrder);
    var crc, offsetStart := p.crc, 0;
    if o.emitSummaryOffsets {
      offsetStart := p.end;
      crc := WriteAll(output, crc, p.offsets, o.summaryCrc, body);
      JoinAssociates(before, body, offs);
    } else {
      assert before + body == before + (body + offs) && body + offs == body;
    }
    var start := if p.end > summaryStart then summaryStart else 0;
    var head := FooterHead(start, offsetStart);
    WroteIsHash(o.summaryCrc, body + offs, crc.count, head);
    output.Write(head);
    crc := crc.Wrote(head);
    StoredIsChecksum(o.summaryCrc, body + offs + head);
    var stored := WordBytes(Stored(crc.hasher));
    output.Write(stored);
    output.Write(MAGIC);
    JoinFive(before, body + offs, head, stored);
  }

  lemma JoinFive(a: bytes, b: bytes, c: bytes, d: bytes)
    ensures a + b + c + d + MAGIC == a + (b + c + d + MAGIC)
  {
  }
}
