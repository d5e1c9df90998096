# MCAP readers and writers: a model in Dafny

MCAP is a container for timestamped messages of many channels. Messages stand in chunks, chunks are
indexed by time and channel, and checksums cover chunks, attachments, the data section and the
summary. The repository implements the format several times. This project models the parts in
which the implementations are intricate and proves what they are for. `dafny verify dfyconfig.toml`
checks everything.

* **CRC-32** (`Crc`, `SwiftCrc32`): the bitwise definition of section 8 of RFC 1952, its linearity,
  and the Swift update that consumes sixteen bytes at a time. The same algebra gives
  `Hasher::combine` of the Rust writer its meaning.
* **Records and framing** (`Bytes`, `Format`, `Records`, `SwiftRecords`, `SwiftStream`): the fifteen
  record types with their round trips, the Swift serialisers with back-patched lengths, and the
  streamed reader's independence of how its input is split.
* **Three merge readers** (`Go*`, `Py*`, `Ts*` over `Sorting`): each is proved to yield the stable
  sort or the scan that it speeds up. The reasons why its shortcuts are sound are lemmas of their
  own: skipped sorts, chunks left out, chunks loaded late, a heap that is not rearranged. `RustToTs`
  closes the circle: what the Rust writer has written is what the TypeScript reader yields.
* **The Rust writer** (`Rust*`): `RustMachine` is the writer as a state machine over items,
  `RustLayout` the bytes and indexes a list of items stands for, without cursors, placeholders or
  running hashes. `RustWriter` is the object with its cursor, sink, counters and hashers. Every
  method takes the machine's step and leaves exactly the layout in the output. Whole-run claims
  (IDs, statistics, checksums, indexes, summary) are proved once over the machine and the layout.
  Library, profile, compression and all flags are options; the encoder is any function that only
  appends, with a decoder that undoes it.
* **The ROS 2 CDR codec** (`Cdr*`): printing and parsing by message definition (section 15.3 of
  CORBA 3.0.3), with defaults, padding, cutting and alignment.
* **Buffers** (`TsStream`, `TsCache`): the stream reader's buffer and the cache of index reads.

Exceptions and error returns are results. Panics of the Rust writer are preconditions a caller can
check: an ID counter that would pass 65535, a taken ID offered with content never seen, and any use
of the output after an attachment was finished too early (`RustRuns.Panics`). The order in which
hash maps are visited is a parameter. Tables that library code looks up, chunk contents and message
index regions of the indexed readers are given as maps from file offsets. Floating-point values are
bit patterns, strings are byte strings.

Where code and documentation disagree, the model follows the code:

* The Rust writer updates message counts and time bounds before it knows whether the message can be
  written, and registers IDs before it writes their records. While an attachment is open both go
  wrong. `RustStatistics.StatisticsAreTrue` and `RustAccumulator.LinearReadersAgreeWithSummary` say
  exactly when the file is right.
* The data-section checksum skips chunk data when chunk checksums are off
  (`RustChecksums.RightExactlyWithChunkCrcs`).
* The footer's summary offset start is not zero in a file without anything to summarise
  (`RustFooter.OffsetStartMeansOffsets`).
* `ChunkCursor.compare` is documented to sort cursors without loaded indexes earlier. It does not,
  and does not need to (`TsReader.SortTimeBounds`).
* The Python reader promises file order without time order, but gives summary order
  (`PyOrder.InsertOrderIsFileOrder`), and drops the direction when there are no chunk indexes
  (`PyOrder.FallbackIgnoresReverse`).
* The TypeScript reader refuses chunks without message indexes, which the format allows
  (`TsResults.ReadUnindexed`), and reads out of order where chunks in sequence touch in time and are
  listed against their order in the file (`TsMerge.AloneIsRightExactly`).
* The Swift streamed reader fails on a chunk that ends in a private record or is empty
  (`SwiftStream.ChunkReadsToEnd`).

## Model

| member | source | states |
|---|---|---|
| Crc.FeedSplits | swift/crc/CRC32.swift:48-96 | The register after some data is the sum, over GF(2), of the start register carried over as many zero bytes and the data's own contribution, for every start register and byte string |
| Crc.CombineIsConcat | rust/mcap/src/write.rs:1586-1593 | Combining the checksums of two byte strings, given the length of the second, is the checksum of their concatenation |
| Crc.FeedByteByTable | swift/crc/CRC32.swift:92-94 | One table entry and one shift do what eight bitwise steps do, for every register and byte |
| Crc.OneByteMatters | swift/crc/CRC32.swift:48-96 | Changing any single byte of any data changes its checksum |
| SwiftCrc32.GenerateTables | swift/crc/CRC32.swift:127-141 | Entry i of table k is the register of byte i followed by k zero bytes, for all sixteen tables, each built from the one before |
| SwiftCrc32.EntryFromPrevious | swift/crc/CRC32.swift:135-139 | The recurrence by which a table is built from the previous one appends exactly one zero byte |
| SwiftCrc32.SixteenLookups | swift/crc/CRC32.swift:59-89 | Sixteen lookups combined by exclusive or equal sixteen byte steps of the bitwise definition |
| SwiftCrc32.CRC32.Update16Byte | swift/crc/CRC32.swift:48-96 | For every byte string, start state and alignment prefix, the update by sixteen bytes at a time gives the state of the bitwise CRC-32 of everything consumed so far |
| SwiftCrc32.CRC32.UpdateByte | swift/crc/CRC32.swift:92-94 | The byte-wise loop keeps the state equal to the bitwise register |
| SwiftCrc32.CRC32.Final | swift/crc/CRC32.swift:23-26 | The final value is the CRC-32 of exactly the bytes fed since the last reset |
| SwiftCrc32.CRC32.Reset | swift/crc/CRC32.swift:19-21 | Resetting forgets everything consumed |
| Records.DecodesBack | swift/mcap/Records.swift:52-84 | Reading the fields of any of the fifteen record types gives back the record they were written from, if its lengths fit their prefixes |
| SwiftRecords.Data.Serialize | swift/mcap/Records.swift:52-65 | Opcode, back-patched length and fields are appended; the patched length is the length of the fields; what was in the buffer stays |
| SwiftRecords.Data.SerializeFields | swift/mcap/Records.swift:257-795 | The bytes of every record type's fields, for some enumeration of its maps |
| SwiftRecords.Data.AppendStringMap | swift/mcap/Records.swift:131-143 | A map of strings behind the byte length that is patched in afterwards, whatever order the dictionary is visited in |
| SwiftRecords.Data.AppendIntMap | swift/mcap/Records.swift:145-157 | A map of integers behind its computed byte length, in any order of visiting it |
| SwiftRecords.Data.AppendTupleArray | swift/mcap/Records.swift:159-170 | Pairs of integers behind their byte length, in order |
| SwiftRecords.ReadStringMap | swift/mcap/Records.swift:214-226 | The loop over a string map reads exactly its pairs and stops at its end, or fails where a pair does not fit |
| SwiftRecords.ReadIntMap | swift/mcap/Records.swift:228-253 | The loop over an integer map reads exactly its pairs, or fails |
| SwiftRecords.SerializedReadsBack | swift/mcap/Records.swift:67-84 | A serialised record is read back at any start offset, with the same content for any enumeration order of its maps |
| SwiftRecords.SameContentFits | swift/mcap/Records.swift:90-104 | Whether a record's lengths fit does not depend on the order in which its maps are listed |
| SwiftRecords.RoundTrip | swift/mcap/Records.swift:52-84 | Serialising behind any prefix and deserialising at that offset gives the same record |
| SwiftStream.NextFrameExtends | swift/mcap/RecordReader.swift:41-96 | A record, or a parse error, found in the bytes at hand is found again when more bytes follow |
| SwiftStream.NextExtends | swift/mcap/MCAPStreamedReader.swift:57-88 | One step of the streamed reader with more bytes behind gives the same record or error |
| SwiftStream.SplitDoesNotMatter | swift/mcap/MCAPStreamedReader.swift:48-88 | However the input is split into appends with a full drain after each, the same records come up to the same first error as for one append |
| SwiftStream.DrainedIsQuiet | swift/mcap/MCAPStreamedReader.swift:57-88 | After a full drain another attempt yields nothing until more bytes come |
| SwiftStream.ChunkReadsToEnd | swift/mcap/MCAPStreamedReader.swift:57-88 | A chunk's records are read to the end without an error if and only if the chunk is not empty and its last record has a known type |
| SwiftStream.PrivateRecordEndsChunkWithError | swift/mcap/MCAPStreamedReader.swift:68-84 | A chunk that ends in a private record makes the reader fail although the format allows it |
| SwiftStream.RecordReader.Append | swift/mcap/RecordReader.swift:11-28 | Appending drops what was consumed and keeps the rest in front of the new data |
| SwiftStream.RecordReader.NextRecord | swift/mcap/RecordReader.swift:41-96 | The next known record, skipping unknown ones, with the strict bounds that defer a trailing record without body; the rest of the buffer is what follows it |
| SwiftStream.RecordReader.ReadMagic | swift/mcap/RecordReader.swift:29-39 | The magic is consumed, awaited or refused |
| SwiftStream.MCAPStreamedReader.NextRecord | swift/mcap/MCAPStreamedReader.swift:57-88 | The object takes the step of the specification, switching into and out of chunks |
| SwiftStream.ReadPieces | swift/mcap/MCAPStreamedReader.swift:48-88 | Feeding the object any pieces yields what one append of their concatenation yields |
| Sorting.SortSorts | go/mcap/indexed_message_iterator.go:350-357 | The stable sort used by all readers sorts |
| Sorting.SortIsStable | go/mcap/indexed_message_iterator.go:350-357 | and keeps elements with equal keys in their order |
| Sorting.SortContinues | go/mcap/indexed_message_iterator.go:321-357 | Delivering a sorted front part and sorting what is pending together with later arrivals continues the sort of everything |
| GoSliceMap.SliceMap.Set | go/mcap/slicemap.go:11-19 | After growing and assigning, exactly the one key has its new value |
| GoSliceMap.SliceMap.Get | go/mcap/slicemap.go:21-26 | The value last set for a key, or nothing |
| GoSliceMap.SliceMap.ToMap | go/mcap/slicemap.go:32-44 | The map holds exactly the keys that were set |
| GoIterator.IndexedMessageIterator.ParseSummarySection | go/mcap/indexed_message_iterator.go:89-217 | Schemas, wanted channels and exactly the chunks that may hold wanted messages are collected up to the footer and put into loading order; only the order of chunks at one offset is open |
| GoIterator.IndexedMessageIterator.AddIfWanted | go/mcap/indexed_message_iterator.go:141-183 | A chunk is kept if and only if its time range overlaps and one of its indexes is for a wanted channel, or it has none |
| GoIterator.IndexedMessageIterator.FindSlot | go/mcap/indexed_message_iterator.go:243-260 | The slot chosen for a chunk has no unread message |
| GoIterator.IndexedMessageIterator.IndexChunk | go/mcap/indexed_message_iterator.go:295-341 | Every wanted message of the chunk gets an entry that points at it, and the skip-sort flag says the truth about the order |
| GoIterator.IndexedMessageIterator.LoadChunk | go/mcap/indexed_message_iterator.go:221-375 | The pending messages become the sort of those pending before and the chunk's, across slot reuse, compaction, reversal and skipped sorting, and the unread counts stay right |
| GoIterator.MergeIsSound | go/mcap/indexed_message_iterator.go:321-364 | Sorting and reversing entries never detaches an entry from its message |
| GoIterator.MergedQueue | go/mcap/indexed_message_iterator.go:321-364 | Whichever way the new entries are merged, the queue is the sort of the old one and the arrivals, and every slot's unread count is the number of entries naming it |
| GoIterator.SkippedSort | go/mcap/indexed_message_iterator.go:343-364 | Leaving out the sort is right when the entries came in order, and in file order |
| GoIterator.PendingShrinks | go/mcap/indexed_message_iterator.go:469-485 | Taking an entry keeps the unread count of each slot equal to the entries left for it |
| GoIterator.IndexedMessageIterator.YieldNext | go/mcap/indexed_message_iterator.go:460-494 | The message handed out is the first pending one, read back from its slot |
| GoIterator.IndexedMessageIterator.NextInto | go/mcap/indexed_message_iterator.go:404-496 | Chunks are loaded exactly until no later chunk can hold an earlier message; at the end everything that arrived has been delivered in sorted order |
| GoIterator.DeliveredFirst | go/mcap/indexed_message_iterator.go:440-458 | At any time what was delivered is the front of the sort of all messages, those of unloaded chunks included |
| GoIterator.IndexedMessageIterator.ReadAll | go/mcap/indexed_message_iterator.go:404-496 | A full run in log-time or reverse order yields exactly the stable sort, by log time, of the wanted messages in loading order, each chunk reversed for reverse order |
| GoReading.SkippingDropsNothing | go/mcap/indexed_message_iterator.go:141-183 | Leaving chunks out by time range and by indexed channels drops no wanted message |
| GoReading.UnindexedMessageIterator.NextInto | go/mcap/unindexed_message_iterator.go:25-88 | The simple iterator takes one step of a scan with filtering |
| GoReading.UnindexedMessageIterator.ReadAll | go/mcap/unindexed_message_iterator.go:25-88 | A full run yields what scanning and filtering every token gives |
| GoReading.ScanKeepsWanted | go/mcap/indexed_message_iterator.go:301-341 | Scanning a chunk for wanted channels selects exactly the wanted messages among all its messages, in order |
| GoReading.FileOrderReadsAgree | go/mcap/indexed_message_iterator.go:301-346 | In file order the indexed read equals the unindexed scan, for every topic set and time range |
| GoReading.ReadIndexed | go/mcap/indexed_message_iterator.go:404-496 | A read in any order from summary to end of file, on files whose summary can be relied on |
| GoReading.ReadBothWays | go/mcap/unindexed_message_iterator.go:25-88 | Running both iterators over one file gives the same outcomes, schemas and channels included |
| PyQueue.LessIsStrict | python/mcap/mcap/_message_queue.py:18-35 | The comparison of chunks and messages is irreflexive and transitive where there are no ties |
| PyQueue.IncomparableIffTied | python/mcap/mcap/_message_queue.py:18-35 | Two items are incomparable if and only if they tie in time and place |
| PyQueue.ForwardNeverTies | python/mcap/mcap/_message_queue.py:48-65 | Reading forwards, items at different places of the file never tie, so the least is well defined on every reachable queue |
| PyQueue.BackwardTies | python/mcap/mcap/_message_queue.py:54-57 | Exactly when items at different places tie when reading backwards |
| PyQueue.LogTimeOrderQueue.Pop | python/mcap/mcap/_message_queue.py:99-100 | The least item leaves the queue, the others stay |
| PyQueue.InsertOrderQueue.Pop | python/mcap/mcap/_message_queue.py:113-114 | The item pushed first leaves the queue |
| PyReader.SeekingReader.HasWantedChannel | python/mcap/mcap/reader.py:97-100 | Whether some indexed channel has a wanted topic; fails exactly if an unknown channel is met before one is found |
| PyReader.SeekingReader.ChunksMatchingTopics | python/mcap/mcap/reader.py:77-100 | Exactly the chunks whose time range overlaps and that index a wanted topic, in summary order; fails exactly where a lookup does |
| PyReader.WantedMakesMatch | python/mcap/mcap/reader.py:77-100 | A chunk that holds a wanted message is never left out |
| PyReader.SeekingReader.OpenChunk | python/mcap/mcap/reader.py:307-331 | Opening a chunk gives an item for each of its wanted messages, and fails exactly where a lookup fails |
| PyReader.SeekingReader.IterMessages | python/mcap/mcap/reader.py:298-333 | In time order, forwards or backwards, the sort of all matching messages by time, chunk offset and index, though chunks and messages share one queue; it fails exactly if a lookup fails or a matching chunk cannot be read. Backwards the chunks must not tie |
| PyReader.SeekingReader.IterInInsertOrder | python/mcap/mcap/reader.py:298-333 | Without time order the messages come chunk by chunk in the order of the summary, after all chunks have been opened |
| PyReader.QueueHasNoTies | python/mcap/mcap/_message_queue.py:18-65 | On every queue between two pops the comparison is a total order: always forwards, backwards if the chunks do not tie |
| PyOrder.InsertOrderIsFileOrder | python/mcap/mcap/reader.py:281-282 | That order is the order of the file, as documented, if and only if the summary lists the chunks with wanted messages by ascending offset |
| PyOrder.ReadListedAgainstOffsets | python/mcap/mcap/reader.py:281-282 | A read of two chunks listed against their offsets, whose result is not in file order |
| PyOrder.TiesAreReachedExactly | python/mcap/mcap/_message_queue.py:54-57 | The comparison orders every queue that a reverse read can come to if and only if no two chunks end at one place and time, and no message of a chunk that starts where another ends has that chunk's end time |
| PyOrder.BackwardCanTie | python/mcap/mcap/_message_queue.py:54-57 | A reached queue in which a matching chunk ties with two messages that do not tie with each other |
| PyOrder.IterMessages | python/mcap/mcap/reader.py:286-333 | The whole reader: the linear read without a direction if there is no index, the read through the index otherwise, and refusal of reverse order without time order only there |
| PyOrder.IndexedIsDescending | python/mcap/mcap/reader.py:283-284 | Through the index a reverse read comes in descending time order, as documented |
| PyOrder.FallbackIgnoresReverse | python/mcap/mcap/reader.py:287-296 | Without summary or chunk indexes, what a reverse read gives is in descending order, and is the linear reader's reverse read, if and only if all wanted messages of the stream have one log time |
| PyOrder.ReadReverseWithoutIndex | python/mcap/mcap/reader.py:287-296 | A reverse read of a stream without index that gives the earlier message first |
| PyLinear.NonSeekingReader.IterMessagesInternal | python/mcap/mcap/reader.py:508-540 | The linear scan yields the wanted messages with the schema and channel seen so far, and fails where the scan's definition fails |
| PyLinear.NonSeekingReader.IterMessages | python/mcap/mcap/reader.py:471-506 | and the sorted variant is its stable sort by time |
| PyLinear.MatchingFindsStream | python/mcap/mcap/reader.py:298-333 | The matching chunks hold exactly the wanted messages of the stream |
| PyLinear.SortsAgree | python/mcap/mcap/reader.py:501-506 | Sorting the matching messages by time and place gives the linear reader's stable sort by time |
| PyLinear.ReadForwardBothWays | python/mcap/mcap/reader.py:298-333 | Both readers yield the same sequence for every topic and time filter, on files whose chunks and summary are complete |
| RustIo.CombinedIsHash | rust/mcap/src/write.rs:1586-1593 | `Hasher::combine` on two hashers is the hasher of the concatenated bytes |
| RustIo.UpdatedIsHash | rust/mcap/src/io_utils.rs:53-60 | Updating a hasher continues the checksum of everything fed to it |
| RustIo.WroteIsHash | rust/mcap/src/io_utils.rs:53-60 | A counting writer's count and hasher are those of all bytes that passed through |
| RustIo.Stream.Write | rust/mcap/src/chunk_sink.rs:86-94 | Writing at a position overwrites, at the end it appends, and the cursor moves on |
| RustIo.ChunkSink.Write | rust/mcap/src/chunk_sink.rs:43-49 | A write goes to the buffer if there is one, otherwise to the output, and leaves the other alone |
| RustIo.ChunkSink.Finish | rust/mcap/src/chunk_sink.rs:51-64 | The output ends with the whole chunk in either mode |
| RustLayout.HeaderFillsPlaceholder | rust/mcap/src/write.rs:1423-1443 | The placeholder header is exactly as long as the header that replaces it, and header and data make up the chunk record with the right length field |
| RustChunk.Begin | rust/mcap/src/write.rs:1400-1484 | A new chunk writer has written the placeholder and what the encoder emits at once, behind the bytes there were |
| RustChunk.WriteBytes | rust/mcap/src/write.rs:1486-1489 | A write passes both counting writers and the compressor, and the target receives exactly what the encoder adds |
| RustChunk.WriteMessage | rust/mcap/src/write.rs:1491-1515 | A message widens the chunk's time range, is indexed under its channel by its uncompressed offset, and is written |
| RustChunk.PatchHeader | rust/mcap/src/write.rs:1541-1572 | Seeking back and overwriting leaves the real chunk record in the target, with the cursor at its end |
| RustChunk.CloseData | rust/mcap/src/write.rs:1517-1593 | The chunk record stands in the output and the running checksum covers everything through it, rebuilt from the hash before the chunk, the real header and the combined data hash |
| RustChunk.WriteIndexes | rust/mcap/src/write.rs:1594-1632 | One message index per channel, ascending, and the offset at which each one starts |
| RustChunk.Finish | rust/mcap/src/write.rs:1517-1648 | Closing a chunk appends exactly its record and message indexes and returns its chunk index, in both modes |
| RustAttachment.Begin | rust/mcap/src/write.rs:1660-1699 | Record offset, promised length and header are written, and both checksums start |
| RustAttachment.PutBytes | rust/mcap/src/write.rs:1704-1719 | Bytes within the promised length are appended and enter both checksums; an excess is refused with its size and changes nothing |
| RustAttachment.Finish | rust/mcap/src/write.rs:1723-1755 | A complete attachment gets its checksum and its index, and the running checksum covers it |
| RustWriter.Writer.constructor | rust/mcap/src/write.rs:439-491 | A new file holds the magic and the header and nothing is registered |
| RustWriter.Writer.StartChunk | rust/mcap/src/write.rs:952-995 | A chunk is opened unless one is open; an open attachment refuses |
| RustWriter.Writer.FinishChunk | rust/mcap/src/write.rs:998-1031 | The open chunk becomes an item of the file; an open attachment refuses |
| RustWriter.Writer.AddSchema | rust/mcap/src/write.rs:498-526 | The call takes the state machine's step and the file holds the step's bytes |
| RustWriter.Writer.AddChannel | rust/mcap/src/write.rs:556-597 | The same for channels, with unknown schemas refused |
| RustWriter.Writer.Write | rust/mcap/src/write.rs:611-692 | Schema, channel and message in turn, stopping at the first refusal with what was registered until then |
| RustWriter.Writer.WriteToKnownChannel | rust/mcap/src/write.rs:698-740 | Counted, rolled over to a new chunk when the open one has outgrown its target, and written |
| RustWriter.Writer.WritePrivateRecord | rust/mcap/src/write.rs:746-767 | Reserved opcodes are refused; others go into a chunk or behind it as asked |
| RustWriter.Writer.StartAttachment | rust/mcap/src/write.rs:814-837 | The open chunk is closed and the attachment's start is in the file |
| RustWriter.Writer.PutAttachmentBytes | rust/mcap/src/write.rs:844-852 | Bytes are taken only by an open attachment with room for them |
| RustWriter.Writer.FinishAttachment | rust/mcap/src/write.rs:860-879 | A complete attachment becomes an item with its index; an incomplete one leaves the writer unusable |
| RustWriter.Writer.Attach | rust/mcap/src/write.rs:883-898 | An attachment given at once |
| RustWriter.Writer.WriteMetadata | rust/mcap/src/write.rs:900-922 | The record stands behind the closed chunk and its index has its offset, length and name |
| RustWriter.Writer.Flush | rust/mcap/src/write.rs:936-939 | Flushing closes the open chunk and changes nothing else |
| RustWriter.Writer.Finish | rust/mcap/src/write.rs:1037-1065 | The finished file is items, DataEnd, summary section, footer and magic of the final state |
| RustModes.WriteFile | rust/mcap/src/write.rs:432-1065 | Any calls followed by `finish` produce the file of the state they lead to |
| RustModes.WriteBothWays | rust/mcap/src/chunk_sink.rs:27-64 | The same calls give the same file whether chunk headers are patched by seeking back or in a buffer |
| RustModes.SameLayout | rust/mcap/src/write.rs:1634-1646 | and the same chunk indexes |
| RustRegistry.FindFree | rust/mcap/src/write.rs:507-512 | The search loop finds the first free ID, or stops at the last one when all are taken |
| RustRegistry.AddIsSound | rust/mcap/src/write.rs:498-526 | Known content returns its ID; new content gets an ID that nothing uses and that stands for it from then on; only a registry with no free ID from the search position on refuses |
| RustRegistry.OfferIsSound | rust/mcap/src/write.rs:611-684 | An offered ID is accepted or agreed to if and only if it is free or stands for the same content; otherwise it conflicts |
| RustRuns.StepKeepsSane | rust/mcap/src/write.rs:498-692 | Every call keeps content and canonical IDs in bijection, every written ID mapped to a canonical one, every record's ID registered with the record's content, and every channel's schema registered |
| RustRuns.RunKeepsIds | rust/mcap/src/write.rs:498-692 | Over every run an ID keeps standing for the content it was registered with |
| RustFooter.ChannelsRepeatRecords | rust/mcap/src/write.rs:1099-1117 | The channels of the summary are the channel records as they were written |
| RustSummary.TakeSchemas | rust/mcap/src/write.rs:1083-1098 | The summary gives every registered schema ID its content |
| RustSummary.TakeChannels | rust/mcap/src/write.rs:1099-1117 | The summary gives every registered channel ID its content and schema |
| RustLayout.HashedIsLayout | rust/mcap/src/write.rs:1586-1593 | The running checksum covers the whole file when chunk checksums are calculated or nothing is chunked |
| RustChecksums.DataEndCoversFile | rust/mcap/src/write.rs:1056-1062 | With data-section checksums on, and chunk checksums on or chunks off, the DataEnd record of every run holds the checksum of every byte before it |
| RustChecksums.SameHashOtherBytes | rust/mcap/src/write.rs:1589-1593 | Without chunk checksums, two files that differ in one message byte store the same data-section checksum although their checksums differ |
| RustChecksums.RightExactlyWithChunkCrcs | rust/mcap/src/write.rs:1589-1593 | For uncompressed chunks the stored data-section checksum is right in every run if and only if chunk checksums are on or chunks are off |
| RustRead.SeekMessage | rust/mcap/src/read.rs:744-820 | The loop with its running offset returns the message at the wanted offset, the failure the walk ends in, or that its channel is unknown |
| RustRead.ReadMessageIndexes | rust/mcap/src/read.rs:681-736 | The indexes of the listed channels one after the other, or the first failure |
| RustRead.IndexedIsMessage | rust/mcap/src/write.rs:1491-1515 | Every index entry is the boundary of a message of its channel with its log time |
| RustRead.ChunkIndexPoints | rust/mcap/src/write.rs:1634-1646 | Every chunk index describes a chunk of the file at the offset where the items before it end |
| RustRead.ChunkHasIndex | rust/mcap/src/write.rs:1634-1646 | and every chunk has one |
| RustRead.ChunkIndexResolves | rust/mcap/src/read.rs:752-765 | Offset and length of a chunk index cover exactly one chunk record with the records written into it |
| RustRead.MessageIndexesResolve | rust/mcap/src/read.rs:681-736 | Reading the message indexes of a chunk gives those of its messages, for every channel; it fails if the chunk has no messages or message indexes are off |
| RustRead.SeekFindsMessage | rust/mcap/src/read.rs:744-820 | Seeking an index entry returns the message it was made for |
| RustRead.EveryMessageIsFound | rust/mcap/src/read.rs:744-820 | Every message of a chunk is listed by its channel's index and found by seeking to the listed offset |
| RustRead.AttachmentIndexResolves | rust/mcap/src/read.rs:824-852 | Every attachment index leads to its attachment, with or without checksum |
| RustRead.MetadataIndexResolves | rust/mcap/src/read.rs:855-874 | Every metadata index leads to its metadata |
| RustFiles.ChunkIndexesOfFilesResolve | rust/mcap/src/write.rs:1594-1646 | In every finished file of any run, each chunk index of the summary leads to its chunk, to what reading its message indexes returns, and by seeking to every one of its messages |
| RustToTs.FoundInFile | rust/mcap/src/write.rs:1594-1646 | The message index records and messages that the TypeScript reader is given for a written file are what stands in its bytes at their places |
| RustToTs.FileIsReliable | rust/mcap/src/write.rs:1491-1515 | With message indexes on, every written chunk meets what the TypeScript reader relies on, for any read: bounds hold, indexes list each message once, no two chunks at one offset, no chunk it refuses |
| RustToTs.ReadWhatWasWritten | typescript/core/src/McapIndexedReader.ts:363-480 | Whatever the Rust writer was called with, the TypeScript reader yields exactly the messages written into chunks that are asked for, sorted by time and place |
| RustToTs.RefusedWithoutIndexes | typescript/core/src/ChunkCursor.ts:50-58 | With message indexes off it refuses exactly the written chunks that hold a message of another log time than zero |
| RustFooter.GroupsAreHomogeneous | rust/mcap/src/write.rs:1201-1290 | Every group of the summary section is non-empty and holds one record type |
| RustFooter.OffsetsTile | rust/mcap/src/write.rs:1201-1298 | The summary offsets tile the summary section without gap or overlap, and each range holds exactly its group's records |
| RustFooter.FooterIsRight | rust/mcap/src/write.rs:1300-1322 | The footer names the start of the section, or zero if it is empty, and its checksum covers exactly the section through the footer's offset fields |
| RustFooter.OffsetStartMeansOffsets | rust/mcap/src/write.rs:1291-1299 | The footer's summary offset start is zero exactly when there are no summary offsets, if and only if offsets are off or there is something to summarise |
| RustFooter.NothingToSummarise | rust/mcap/src/write.rs:1291-1299 | A finished file without any call, whose footer names an offset start although there are no summary offsets |
| RustSummary.WriteSummaryAndFooter | rust/mcap/src/write.rs:1154-1322 | Groups, offsets, footer and magic are appended as specified |
| RustStatistics.StatisticsAreTrue | rust/mcap/src/write.rs:1068-1082 | After every run the stored message count is the number of messages in the file plus the messages counted while an attachment was open; it is right if and only if there was no such call, and then the counts per channel and the time range are right too |
| RustStatistics.CountsAreNumbers | rust/mcap/src/write.rs:713-717 | A channel has a counter exactly if it has messages, and it is their number |
| RustStatistics.SpanIsTight | rust/mcap/src/write.rs:710-713 | The stored times are the least and the greatest log time |
| RustStatistics.IndexesCount | rust/mcap/src/write.rs:1074-1082 | Chunks, attachments and metadata records are as many as their indexes |
| RustStatistics.CountWithoutMessage | rust/mcap/src/write.rs:704-717 | A run that claims a message which is not in its file |
| RustAccumulator.ChannelAccumulator.AddSchema | rust/mcap/src/read.rs:302-333 | A schema is accepted exactly if its ID is not zero and it does not contradict an earlier one |
| RustAccumulator.ChannelAccumulator.AddChannel | rust/mcap/src/read.rs:335-373 | A channel is accepted exactly if its schema has been seen and it does not contradict an earlier one |
| RustAccumulator.ChannelAccumulator.Follow | rust/mcap/src/read.rs:425-465 | Following the records of a data section succeeds exactly if no record is refused |
| RustAccumulator.StepReadable | rust/mcap/src/write.rs:498-692 | A call spoils a file for linear readers if and only if it registers something new while an attachment is open, or offers schema ID zero for the first time |
| RustAccumulator.LinearReadersAgreeWithSummary | rust/mcap/src/read.rs:302-373 | For every run, following the data section gives exactly the schemas and channels of the summary if and only if no call spoiled the file |
| RustAccumulator.RegisteredWithoutRecord | rust/mcap/src/write.rs:556-597 | A run after which the summary has a channel that no record declares |
| CdrFormat.NumberStands | python/mcap-ros2-support/mcap_ros2/_cdr.py:422-434 | A padded number of either byte order is read back from the offset where the writer started, whatever follows |
| CdrFormat.BitsReadBack | python/mcap-ros2-support/mcap_ros2/_cdr.py:11-56 | Two's complement bits of every integer type, booleans and float patterns are read back |
| CdrFormat.ScalarStands | python/mcap-ros2-support/mcap_ros2/_cdr.py:159-175 | Scalars and zero-terminated strings are read back and the reader stops where the writer stopped |
| CdrFormat.ScalarsStand | python/mcap-ros2-support/mcap_ros2/_cdr.py:181-229 | and arrays of them |
| CdrFormat.OctetsAreBytes | python/mcap-ros2-support/mcap_ros2/_cdr.py:357-376 | Writing byte values one by one is writing the byte string, and works exactly for values that fit |
| CdrMessage.ArrayStands | python/mcap-ros2-support/mcap_ros2/_dynamic.py:411-511 | An array of any shape is read back as its normal form: fixed ones padded or cut, bounded ones cut, byte arrays as bytes |
| CdrMessage.FieldRoundTrip | python/mcap-ros2-support/mcap_ros2/_dynamic.py:249-336 | Every field is read back from the offset at which it was written, nested messages and arrays included |
| CdrMessage.MessageRoundTrip | python/mcap-ros2-support/mcap_ros2/_dynamic.py:339-522 | Every message, also one without fields, is read back as its normal form |
| CdrMessage.RoundTrip | python/mcap-ros2-support/mcap_ros2/_dynamic.py:197-234 | For every acyclic set of definitions, every value and either byte order, decoding the encoding returns the normalised value and consumes the whole payload |
| CdrCodec.CdrWriter.Align | python/mcap-ros2-support/mcap_ros2/_cdr.py:428-434 | Padding to a multiple of the size counted from behind the header |
| CdrCodec.CdrWriter.Pack | python/mcap-ros2-support/mcap_ros2/_cdr.py:422-426 | The number's bytes behind its padding |
| CdrCodec.CdrWriter.WriteString | python/mcap-ros2-support/mcap_ros2/_cdr.py:349-355 | Length plus one, bytes and a zero byte |
| CdrCodec.CdrWriter.WriteScalar | python/mcap-ros2-support/mcap_ros2/_cdr.py:283-347 | A value in range is written in its type's width; others are refused |
| CdrCodec.CdrWriter.WriteScalars | python/mcap-ros2-support/mcap_ros2/_cdr.py:362-420 | All values in order, or refusal; wide strings always refuse |
| CdrCodec.WriteComplexType | python/mcap-ros2-support/mcap_ros2/_dynamic.py:339-522 | The field loop writes what printing by the definition gives, and refuses exactly where that is undefined |
| CdrCodec.EncodeMessage | python/mcap-ros2-support/mcap_ros2/_dynamic.py:216-234 | Header and message, or refusal |
| CdrCodec.CdrReader.Unpack | python/mcap-ros2-support/mcap_ros2/_cdr.py:253-258 | The number behind its padding, or an error at the end of the data |
| CdrCodec.CdrReader.ReadString | python/mcap-ros2-support/mcap_ros2/_cdr.py:159-175 | Strings with or without a terminating zero when empty |
| CdrCodec.ReadComplexType | python/mcap-ros2-support/mcap_ros2/_dynamic.py:249-336 | The field loop reads what parsing by the definition gives, and fails exactly where that fails |
| CdrCodec.ReadMessage | python/mcap-ros2-support/mcap_ros2/_dynamic.py:197-213 | Definition lookup, byte order from the header, and the message |
| CdrCodec.EncodeAndDecode | python/mcap-ros2-support/mcap_ros2/_dynamic.py:197-234 | Running writer and reader one after the other returns the normalised value |
| CdrCodec.ListDefaultRejects | python/mcap-ros2-support/mcap_ros2/_dynamic.py:423-522 | A primitive field with a list default can be written if and only if it is an array given as raw bytes to a byte type with a length that fits, or an array of which nothing is to be coerced, of any type but wide strings; what is written is then what is written without a default |
| TsCursor.SortedIndexBy | typescript/core/src/sortedIndexBy.ts:5-29 | The binary search finds the first position not before a time, also in a turned list |
| TsCursor.SortedLastIndexBy | typescript/core/src/sortedLastIndex.ts:5-29 | and the first position behind it |
| TsCursor.SliceIsKept | typescript/core/src/ChunkCursor.ts:218-234 | Cutting at the two positions keeps exactly the entries in the closed range |
| TsCursor.LateStartMissesNothing | typescript/core/src/ChunkCursor.ts:126-157 | Reading the index region from the first relevant index on misses no relevant entry |
| TsCursor.ChunkCursor.Create | typescript/core/src/ChunkCursor.ts:42-59 | A cursor on the chunk, refused exactly if the chunk has no message indexes and its times are not both zero |
| TsCursor.ChunkCursor.LoadMessageIndexes | typescript/core/src/ChunkCursor.ts:120-236 | The cursor walks the relevant entries in range sorted by time and offset, reversed for reverse reads; it fails only on a chunk index that does not bound its messages |
| TsCursor.ChunkCursor.Compare | typescript/core/src/ChunkCursor.ts:69-82 | The sign of the comparison by next time, ties by chunk offset, turned for reverse reads |
| TsCursor.ChunkCursor.PopMessage | typescript/core/src/ChunkCursor.ts:99-110 | The next entry, once |
| TsReader.ComparesStrictly | typescript/core/src/ChunkCursor.ts:69-82 | The comparison is a strict order on cursors of different chunks, loaded or not |
| TsReader.SortTimeBounds | typescript/core/src/ChunkCursor.ts:238-250 | No message of a cursor comes before the time it is sorted by, even before its indexes are loaded |
| TsReader.Heap.Rearrange | typescript/core/src/McapIndexedReader.ts:397-397 | The least cursor is brought to the top and the others stay on the heap |
| TsReader.ToppedIsLeast | typescript/core/src/McapIndexedReader.ts:397-397 | Rearranged, the top comes before all other cursors |
| TsReader.FrontIsFirst | typescript/core/src/McapIndexedReader.ts:426-470 | The next message of the least cursor comes before everything any cursor still has to give |
| TsReader.TopStaysAhead | typescript/core/src/McapIndexedReader.ts:471-476 | When chunks follow each other in time, the top cursor stays ahead of all others that hold something, whatever is read from it |
| TsReader.LeastStays | typescript/core/src/McapIndexedReader.ts:471-476 | Rearranging a heap whose top is the least already changes nothing, so skipping it is sound |
| TsMerge.DrainGivesAll | typescript/core/src/McapIndexedReader.ts:425-480 | Whether or not the heap is rearranged after each message, every message comes out once |
| TsMerge.DrainIsSort | typescript/core/src/McapIndexedReader.ts:425-480 | The merge yields the sort of all messages by log time, chunk offset and message offset, rearranged always, or left alone when chunks are in sequence and touching ones are in file order |
| TsMerge.AloneInPieces | typescript/core/src/McapIndexedReader.ts:471-476 | Left alone, the heap gives the messages of each chunk in one piece |
| TsMerge.AloneIsRightExactly | typescript/core/src/McapIndexedReader.ts:471-476 | For chunks in sequence, not rearranging the heap is right for every content of the chunks if and only if chunks that touch in time are listed in file order or are both a single moment |
| TsMessages.McapIndexedReader.constructor | typescript/core/src/McapIndexedReader.ts:80-87 | The default time range holds every chunk |
| TsMessages.McapIndexedReader.PushCursors | typescript/core/src/McapIndexedReader.ts:397-420 | A cursor for each overlapping chunk, and the flag that says whether these chunks are in sequence; fails exactly if one of them has no message indexes and non-zero times |
| TsMessages.McapIndexedReader.LoadTop | typescript/core/src/McapIndexedReader.ts:427-437 | The top cursor is loaded and put back or removed |
| TsMessages.McapIndexedReader.GiveMessage | typescript/core/src/McapIndexedReader.ts:439-480 | The message of the top's next entry, or failure exactly if none of that time can be parsed there; the heap is rearranged, left alone or shrunk |
| TsMessages.McapIndexedReader.Merge | typescript/core/src/McapIndexedReader.ts:425-480 | The loop yields what the merge gives, up to the first message that cannot be parsed; it succeeds exactly if no chunk is refused and all messages it comes to can be parsed, and holds at most one uncompressed chunk when chunks are in sequence |
| TsMessages.McapIndexedReader.ReadMessages | typescript/core/src/McapIndexedReader.ts:363-480 | For every query: exact success condition; the relevant messages in the closed time range sorted by log time, chunk offset and message offset, which with complete message indexes is the sort of a scan of the chunks' messages filtered by channel and time; and the bound on held chunks |
| TsScan.PruningChangesNothing | typescript/core/src/McapIndexedReader.ts:400-413 | Leaving out the chunks that do not overlap the range changes nothing |
| TsScan.GivesTheWanted | typescript/core/src/McapIndexedReader.ts:363-480 | If each channel's message indexes list exactly its messages, what a read gives is each message of the chunks that is asked for, once, whatever order they are scanned in, and all of it can be parsed |
| TsResults.YieldsTheWanted | typescript/core/src/McapIndexedReader.ts:363-480 | A place is yielded, once, if and only if a chunk holds a message there whose channel and time are asked for |
| TsResults.ReverseIsMirror | typescript/core/src/ChunkCursor.ts:189-195 | The reverse read is the exact mirror image of the forward read, ties included |
| TsResults.UnindexedIsBounded | typescript/core/src/ChunkCursor.ts:50-58 | Nothing else is wrong with such a chunk: its bounds hold for every read and there is nothing that could not be parsed |
| TsResults.ReadUnindexed | typescript/core/src/ChunkCursor.ts:50-58 | A chunk with messages and without message indexes, well formed otherwise, makes exactly the reads fail whose range it overlaps |
| TsResults.ReadAgainstFileOrder | typescript/core/src/McapIndexedReader.ts:471-476 | A read that succeeds with all three messages, but not in order: two chunks in sequence that touch in time, listed against their order in the file |
| TsStream.StreamBuffer.AppendOrShift | typescript/core/src/McapStreamReader.ts:103-156 | Appending in place, shifting and reallocating all leave the unread bytes followed by the new data, with the view inside the buffer and nothing lost, repeated or reordered since the start |
| TsStream.StreamBuffer.BytesRemaining | typescript/core/src/McapStreamReader.ts:88-90 | The number of unread bytes |
| TsStream.StreamBuffer.Advance | typescript/core/src/McapStreamReader.ts:193-200 | Parsed bytes leave the front of the unread bytes |
| TsCache.CachedBytesWith | typescript/core/src/CachedReadable.ts:63-66 | What is held after an entry is added or replaced |
| TsCache.CachedReadable.Read | typescript/core/src/CachedReadable.ts:50-69 | The bytes the source would give; the bytes held never exceed the counter, which never exceeds the limit, also when a longer read replaces an entry |
| TsCache.ReadTwice | typescript/core/src/CachedReadable.ts:63-66 | Two reads after which the counter overstates what is held |

## Left out

- I/O failures: the Rust writer's Failed mode is reached only through them; all streams of the model succeed, and the output is empty when the writer starts.
- Compression: zstd, lz4 and bzip2 are an abstract encoder and decoder. What the encoder has put out is taken to depend on the bytes fed to it, not on how they were split into calls.
- Rust moves: a chunk writer or attachment writer is a value that its methods return changed, because a moved value cannot be aliased; the counting writer is the pair of count and hasher, and its owner passes the bytes on.
- Rust integer width: counters, offsets and lengths are unbounded except for the 16-bit IDs and the schema count, which is cut to 16 bits. Overflow of the ID counter panics as in a debug build.
- RustChecksums.RightExactlyWithChunkCrcs: its "only if" half is for uncompressed chunks; for other encoders the checksum's exact coverage is `RustLayout.Hashed`.
- RustRead.SeekMessage: a message stands for itself and its channel ID, which is looked up among the known ones. The sans-IO reader below it is a walk over opcode, length and body; a chunk length below nine, on which slicing panics, is a failure.
- RustRead.ReadMessageIndexes: channels stand for themselves as keys of the result, so the conflict of two equal channels cannot arise.
- RustWriter.Writer.Finish: called once; returning the stored summary from a second call, `into_inner` and `drop` are not modelled.
- Writing after `finish`: panics in the source and is excluded by the object's invariant.
- GoIterator.IndexedMessageIterator.LoadChunk: reading, decompressing and checking a chunk is a lookup in a map of chunk contents; bytes a reused slot keeps behind a shorter chunk, error texts and the iterator's state after a failed load are not modelled.
- GoIterator.SortSlice: `sort.Slice` promises nothing about equal keys, so the loading order is settled only for chunk indexes at different offsets, which `GoReading.ReliableSummary` asks for.
- Go: exact equality of forward and reverse reads, which order equal times differently by design.
- PyQueue.LogTimeOrderQueue.Pop: the heap is a list of which the least item is taken; on queues with ties, which only reverse reads of the chunks described by `PyOrder.TiesAreReachedExactly` come to, the order is left open.
- Python reverse reads: equal log times come in another order than from the linear reader, by design; the index path is proved against its own sort.
- Python: reading of schemas and summaries from bytes, decoders and generators' laziness.
- SwiftStream.MCAPStreamedReader.NextRecord: traps and thrown errors are one kind of error, and lengths near 2^63, whose sum with an offset traps, are added without overflow.
- Swift: the ARM checksum instructions and big-endian hosts.
- CdrMessage.RoundTrip: the conversions `str`, `int`, `float` and `bool` are given as functions that may raise; floats come back from them in the width of their type, so rounding is theirs. UTF-8 validity is not modelled.
- CdrCodec.WriteComplexType: the caller's lists, which the source extends in place when it pads them, are values.
- CDR: cyclic definitions, attributes of values other than messages that happen to have a field's name, and arrays of the `array` module, which act as tuples or byte strings.
- CDR duration fields: seconds are unsigned in the definition the source uses, so negative durations are refused like any value out of range.
- TsReader.Heap.Rearrange: the library heap is a list whose first node is the least as of the last push, pop or replace.
- TsMessages.McapIndexedReader.ReadMessages: parsing of chunk and index records, checksums of chunks and promises are not modelled; message index regions and chunk contents are maps. Chunk indexes must bound the indexed times of the chunks that overlap the range; the source finds only some violations.
- TsCache.CachedReadable.Read: results that share memory with the cache are values.
- TypeScript `Reader.ts` and `parse.ts`, stream parsing behind the buffer, and the writers of the other languages.
- ROS 1 and db3 conversion, definition parsing, command line tools, network and file access: no property of this kind.
