/** The Swift streamed reader: bytes arrive in pieces, records are emitted as soon as they
    are complete, and chunks are opened in place. However the bytes are cut into pieces,
    the same records come out, up to the same first error. */
module SwiftStream {
  import opened Bytes
  import opened Crc
  import opened Format
  import R = Records
  import SwiftCrc32

  datatype Error =
    | InvalidMagic(actual: bytes)
    | BrokenRecord
    | UnsupportedCompression(name: bytes)
    | DecompressionFailed
    | InvalidCrc(expected: bv32, computed: bv32)
    | ExtraneousDataInChunk(length: nat)

  // ---------- framing ----------

  /** What one call for the next record gives, and the bytes it leaves. */
  datatype Framing =
    | Incomplete(rest: bytes)
    | Complete(record: R.Record, rest: bytes)
    | Faulty(rest: bytes)

  /** The first record of known type. A record is only looked at when at least one byte
      beyond its nine header bytes is there, so an empty record at the very end waits. */
  function NextFrame(b: bytes): (f: Framing)
    ensures |f.rest| <= |b|
    ensures !f.Incomplete? ==> |f.rest| < |b|
    decreases |b|
  {
    if |b| <= 9 then Incomplete(b)
    else
      var length := FromLE(b[1..9]);
      if 9 + length > |b| then Incomplete(b)
      else
        var rest := b[9 + length..];
        match R.Decode(b[0], b[9..9 + length])
        case Unknown => NextFrame(rest)
        case Broken => Faulty(rest)
        case Known(record) => Complete(record, rest)
  }

  /** Later bytes do not change what is found in the bytes that are there. */
  lemma {:induction false} NextFrameExtends(b: bytes, more: bytes)
    ensures NextFrame(b).Complete? ==> NextFrame(b + more) == Complete(NextFrame(b).record, NextFrame(b).rest + more)
    ensures NextFrame(b).Faulty? ==> NextFrame(b + more) == Faulty(NextFrame(b).rest + more)
    ensures NextFrame(b).Incomplete? ==> NextFrame(b + more) == NextFrame(NextFrame(b).rest + more)
    decreases |b|
  {
    hide R.Decode, FromLE;
    if |b| > 9 {
      var length := FromLE(b[1..9]);
      if 9 + length <= |b| {
        assert (b + more)[1..9] == b[1..9];
        assert (b + more)[9..9 + length] == b[9..9 + length];
        assert (b + more)[9 + length..] == b[9 + length..] + more;
        if R.Decode(b[0], b[9..9 + length]).Unknown? {
          NextFrameExtends(b[9 + length..], more);
        }
      }
    }
  }

  // ---------- the streamed reader as a function of its state ----------

  datatype Decompressed = Unsupported | Failed | Data(data: bytes)

  type Decompressor = (bytes, bytes, nat) -> Decompressed

  datatype Opened = Opened(data: bytes) | NotOpened(error: Error)

  /** The contents of a chunk, or why it cannot be opened. */
  function Open(c: R.Record, decompress: Decompressor): Opened
    requires c.Chunk?
  {
    var data := if c.compression == [] then Data(c.records) else decompress(c.compression, c.records, c.uncompressedSize);
    match data
    case Unsupported => NotOpened(UnsupportedCompression(c.compression))
    case Failed => NotOpened(DecompressionFailed)
    case Data(d) =>
      if c.uncompressedCrc != 0 && c.uncompressedCrc != Checksum(d) then NotOpened(InvalidCrc(c.uncompressedCrc, Checksum(d)))
      else Opened(d)
  }

  /** Unread bytes, whether the leading magic was read, and the unread part of the open
      chunk. */
  datatype State = State(magicRead: bool, unread: bytes, chunk: Option<bytes>) {
    function With(more: bytes): State {
      this.(unread := unread + more)
    }

    function ChunkSize(): nat {
      if chunk.Some? then |chunk.value| else 0
    }
  }

  datatype Result = Nothing | Emitted(record: R.Record) | Threw(error: Error)

  /** A finished chunk is closed. */
  function Closing(rest: bytes): Option<bytes> {
    if rest == [] then None else Some(rest)
  }

  /** The next record of the open chunk. */
  function NextInChunk(s: State, contents: bytes): (Result, State) {
    var f := NextFrame(contents);
    var s' := s.(chunk := Closing(f.rest));
    match f
    case Complete(record, _) => (Emitted(record), s')
    case Faulty(_) => (Threw(BrokenRecord), s')
    case Incomplete(rest) => (Threw(ExtraneousDataInChunk(|rest|)), s')
  }

  /** The next record once the magic has been read. */
  function NextAfterMagic(s: State, decompress: Decompressor): (Result, State) {
    match s.chunk
    case Some(contents) => NextInChunk(s, contents)
    case None =>
      var f := NextFrame(s.unread);
      var s' := s.(unread := f.rest);
      match f
      case Incomplete(_) => (Nothing, s')
      case Faulty(_) => (Threw(BrokenRecord), s')
      case Complete(record, _) =>
        if !record.Chunk? then (Emitted(record), s')
        else
          match Open(record, decompress)
          case NotOpened(error) => (Threw(error), s')
          case Opened(data) => NextInChunk(s', data)
  }

  /** One call of nextRecord. */
  function Next(s: State, decompress: Decompressor): (Result, State) {
    if s.magicRead then NextAfterMagic(s, decompress)
    else if |s.unread| <= 8 then (Nothing, s)
    else if s.unread[..8] != MAGIC then (Threw(InvalidMagic(s.unread[..8])), s)
    else NextAfterMagic(s.(magicRead := true, unread := s.unread[8..]), decompress)
  }

  lemma NextShrinks(s: State, decompress: Decompressor)
    ensures var (r, s') := Next(s, decompress);
            |s'.unread| <= |s.unread| &&
            (r.Emitted? ==> |s'.unread| < |s.unread| || s'.ChunkSize() < s.ChunkSize())
  {
    hide NextFrame, Open;
  }

  /** Bytes that arrive later do not change what a call gives; a call that gave nothing
      can be repeated as if it had not happened. */
  lemma NextExtends(s: State, more: bytes, decompress: Decompressor)
    ensures var (r, s') := Next(s, decompress);
            (!r.Nothing? ==> Next(s.With(more), decompress) == (r, s'.With(more))) &&
            (r.Nothing? ==> Next(s.With(more), decompress) == Next(s'.With(more), decompress))
  {
    hide NextFrame, Open;
    if s.magicRead {
      NextFrameExtends(s.unread, more);
    } else if |s.unread| > 8 {
      assert (s.unread + more)[..8] == s.unread[..8];
      assert (s.unread + more)[8..] == s.unread[8..] + more;
      NextFrameExtends(s.unread[8..], more);
    }
  }

  // ---------- draining ----------

  /** Everything a loop over nextRecord emits, the error that ended it, if one did, and
      the state it leaves. */
  datatype Drained = Drained(records: seq<R.Record>, error: Option<Error>, state: State)

  function Drain(s: State, decompress: Decompressor): Drained
    decreases |s.unread|, s.ChunkSize()
  {
    NextShrinks(s, decompress);
    var (r, s') := Next(s, decompress);
    match r
    case Nothing => Drained([], None, s')
    case Threw(error) => Drained([], Some(error), s')
    case Emitted(record) =>
      var d := Drain(s', decompress);
      d.(records := [record] + d.records)
  }

  /** The unread bytes arrive in pieces; after each the reader is drained, until an error
      ends the reading. */
  function DrainPieces(s: State, pieces: seq<bytes>, decompress: Decompressor): Drained
    decreases |pieces|
  {
    if pieces == [] then Drained([], None, s)
    else
      var d := Drain(s.With(pieces[0]), decompress);
      if d.error.Some? then d
      else
        var rest := DrainPieces(d.state, pieces[1..], decompress);
        rest.(records := d.records + rest.records)
  }

  function Flatten(pieces: seq<bytes>): bytes
    decreases |pieces|
  {
    if pieces == [] then [] else pieces[0] + Flatten(pieces[1..])
  }

  /** Draining, then more bytes, then draining again, is draining once. */
  lemma {:induction false} DrainExtends(s: State, more: bytes, decompress: Decompressor)
    ensures var first := Drain(s, decompress);
            var all := Drain(s.With(more), decompress);
            if first.error.Some? then all == first.(state := first.state.With(more))
            else
              var second := Drain(first.state.With(more), decompress);
              all == second.(records := first.records + second.records)
    decreases |s.unread|, s.ChunkSize()
  {
    hide Next;
    NextShrinks(s, decompress);
    NextExtends(s, more, decompress);
    var (r, s') := Next(s, decompress);
    match r
    case Nothing =>
      var second := Drain(s'.With(more), decompress);
      assert [] + second.records == second.records;
      DrainDependsOnNext(s.With(more), s'.With(more), decompress);
    case Threw(_) =>
    case Emitted(record) =>
      DrainExtends(s', more, decompress);
      var rest := Drain(s', decompress);
      if rest.error.None? {
        var second := Drain(rest.state.With(more), decompress);
        assert [record] + (rest.records + second.records) == ([record] + rest.records) + second.records;
      }
  }

  lemma DrainDependsOnNext(a: State, b: State, decompress: Decompressor)
    requires Next(a, decompress) == Next(b, decompress)
    ensures Drain(a, decompress) == Drain(b, decompress)
  {
    hide Next;
  }

  /** However a stream is cut, the same records come out, up to the same first error. */
  lemma {:induction false} SplitDoesNotMatter(s: State, pieces: seq<bytes>, decompress: Decompressor)
    requires Next(s, decompress) == (Nothing, s)
    ensures var cut := DrainPieces(s, pieces, decompress);
            var whole := Drain(s.With(Flatten(pieces)), decompress);
            cut.records == whole.records && cut.error == whole.error &&
            (cut.error.None? ==> cut.state == whole.state)
    decreases |pieces|
  {
    hide Next;
    if pieces == [] {
      assert s.With([]) == s by { assert s.unread + [] == s.unread; }
    } else {
      var tail := Flatten(pieces[1..]);
      assert s.With(Flatten(pieces)) == s.With(pieces[0]).With(tail) by {
        assert s.unread + (pieces[0] + tail) == s.unread + pieces[0] + tail;
      }
      DrainExtends(s.With(pieces[0]), tail, decompress);
      var d := Drain(s.With(pieces[0]), decompress);
      if d.error.None? {
        DrainedIsQuiet(s.With(pieces[0]), decompress);
        SplitDoesNotMatter(d.state, pieces[1..], decompress);
      }
    }
  }

  /** After draining without error there is nothing to emit. */
  lemma {:induction false} DrainedIsQuiet(s: State, decompress: Decompressor)
    ensures var d := Drain(s, decompress);
            d.error.None? ==> Next(d.state, decompress) == (Nothing, d.state)
    decreases |s.unread|, s.ChunkSize()
  {
    hide Next;
    NextShrinks(s, decompress);
    var (r, s') := Next(s, decompress);
    if r.Emitted? {
      DrainedIsQuiet(s', decompress);
    } else if r.Nothing? {
      NothingIsStable(s, decompress);
    }
  }

  lemma NothingIsStable(s: State, decompress: Decompressor)
    ensures Next(s, decompress).0.Nothing? ==> Next(Next(s, decompress).1, decompress) == Next(s, decompress)
  {
    NextExtends(s, [], decompress);
    hide NextFrame, NextAfterMagic;
    assert s.With([]) == s by { assert s.unread + [] == s.unread; }
    var s' := Next(s, decompress).1;
    assert s'.With([]) == s' by { assert s'.unread + [] == s'.unread; }
  }

  // ---------- when a chunk is read to its end without an error ----------

  datatype Raw = Raw(op: byte, body: bytes) {
    predicate IsKnown() {
      R.Decode(op, body).Known?
    }

    predicate IsSound() {
      |body| < U64 && !R.Decode(op, body).Broken?
    }
  }

  function Concatenated(raws: seq<Raw>): bytes
    decreases |raws|
  {
    if raws == [] then [] else Framed(raws[0].op, raws[0].body) + Concatenated(raws[1..])
  }

  /** The records of known type. */
  function KnownRecords(raws: seq<Raw>): seq<R.Record>
    decreases |raws|
  {
    if raws == [] then []
    else if raws[0].IsKnown() then [R.Decode(raws[0].op, raws[0].body).record] + KnownRecords(raws[1..])
    else KnownRecords(raws[1..])
  }

  lemma KnownHasBody(raw: Raw)
    requires raw.IsKnown()
    ensures raw.body != []
  {
  }

  lemma NextFrameOfRecord(raw: Raw, rest: bytes)
    requires raw.IsSound()
    ensures raw.IsKnown() ==>
              NextFrame(Framed(raw.op, raw.body) + rest) == Complete(R.Decode(raw.op, raw.body).record, rest)
    ensures !raw.IsKnown() && (raw.body != [] || rest != []) ==>
              NextFrame(Framed(raw.op, raw.body) + rest) == NextFrame(rest)
    ensures !raw.IsKnown() && raw.body == [] && rest == [] ==>
              NextFrame(Framed(raw.op, raw.body) + rest) == Incomplete(Framed(raw.op, raw.body))
  {
    hide LE, FromLE;
    if raw.IsKnown() {
      KnownHasBody(raw);
    }
    hide R.Decode;
    var b := Framed(raw.op, raw.body) + rest;
    assert b[1..9] == LE(|raw.body|, 8);
    assert b[9..9 + |raw.body|] == raw.body;
    assert b[9 + |raw.body|..] == rest;
    Powers();
    FromLEFits(|raw.body|, 8);
    if rest == [] {
      assert b == Framed(raw.op, raw.body);
    }
  }

  /** A chunk of whole, readable records is read without an error exactly if it is not
      empty and its last record is of a known type: a final record of unknown type is
      skipped, nothing is left to return, and the reader reports extraneous data. Its known
      records come out in order either way. */
  lemma {:induction false} ChunkReadsToEnd(raws: seq<Raw>, decompress: Decompressor)
    requires forall raw :: raw in raws ==> raw.IsSound()
    ensures var d := Drain(State(true, [], Some(Concatenated(raws))), decompress);
            d.records == KnownRecords(raws) &&
            (d.error.None? <==> raws != [] && raws[|raws| - 1].IsKnown()) &&
            (d.error.Some? ==> d.error.value.ExtraneousDataInChunk?)
    decreases |raws|
  {
    var s := State(true, [], Some(Concatenated(raws)));
    if raws == [] {
    } else {
      var raw, rest := raws[0], Concatenated(raws[1..]);
      NextFrameOfRecord(raw, rest);
      ConcatenatedIsEmpty(raws[1..]);
      hide R.Decode, NextFrame, Framed;
      if raw.IsKnown() {
        var s' := State(true, [], Closing(rest));
        assert Next(s, decompress) == (Emitted(R.Decode(raw.op, raw.body).record), s');
        if raws[1..] == [] {
          QuietState(decompress);
        } else {
          ChunkReadsToEnd(raws[1..], decompress);
          assert raws[1..][|raws| - 2] == raws[|raws| - 1];
        }
      } else if raws[1..] != [] {
        ChunkReadsToEnd(raws[1..], decompress);
        assert raws[1..][|raws| - 2] == raws[|raws| - 1];
        DrainDependsOnNext(s, State(true, [], Some(rest)), decompress);
      } else {
        NothingKnown(raw);
      }
    }
  }

  lemma ConcatenatedIsEmpty(raws: seq<Raw>)
    ensures Concatenated(raws) == [] <==> raws == []
  {
  }

  lemma NothingKnown(raw: Raw)
    requires raw.IsSound() && !raw.IsKnown()
    ensures KnownRecords([raw]) == []
    ensures NextFrame(Framed(raw.op, raw.body) + []).Incomplete?
  {
    NextFrameOfRecord(raw, []);
    hide R.Decode;
    assert [raw][1..] == [];
  }

  lemma QuietState(decompress: Decompressor)
    ensures Drain(State(true, [], None), decompress) == Drained([], None, State(true, [], None))
  {
  }

  /** For example, a chunk that holds one private record is rejected although the reader
      has consumed all of it. */
  lemma PrivateRecordEndsChunkWithError(decompress: Decompressor)
    ensures Drain(State(true, [], Some(Framed(0x80, [1]))), decompress).error == Some(ExtraneousDataInChunk(0))
  {
    var raw := Raw(0x80, [1]);
    assert Framed(0x80, [1]) + [] == Framed(0x80, [1]);
    NextFrameOfRecord(raw, []);
  }

  // ---------- the reader objects ----------

  datatype MagicResult = MagicRead(found: bool) | BadMagic(prefix: bytes)

  datatype FrameResult = NoRecord | OneRecord(record: R.Record) | ParseError

  class RecordReader {
    var buffer: bytes
    var offset: nat

    ghost predicate Valid()
      reads this
    {
      offset <= |buffer|
    }

    /** The bytes not yet consumed. */
    function Rest(): bytes
      requires Valid()
      reads this
    {
      buffer[offset..]
    }

    constructor (data: bytes)
      ensures Valid() && Rest() == data
    {
      buffer, offset := data, 0;
    }

    method Trim()
      requires Valid()
      modifies this
      ensures Valid() && offset == 0 && Rest() == old(Rest())
    {
      buffer, offset := buffer[offset..], 0;
    }

    method Append(data: bytes)
      requires Valid()
      modifies this
      ensures Valid() && Rest() == old(Rest()) + data
    {
      Trim();
      buffer := buffer + data;
    }

    /** Consumes the magic once more than eight bytes are there. */
    method ReadMagic() returns (r: MagicResult)
      requires Valid()
      modifies this`offset
      ensures Valid()
      ensures r == (if |old(Rest())| <= 8 then MagicRead(false)
                    else if old(Rest())[..8] == MAGIC then MagicRead(true)
                    else BadMagic(old(Rest())[..8]))
      ensures Rest() == if r == MagicRead(true) then old(Rest())[8..] else old(Rest())
    {
      if offset + 8 < |buffer| {
        var prefix := buffer[offset..offset + 8];
        assert prefix == Rest()[..8];
        if prefix != MAGIC {
          return BadMagic(prefix);
        }
        offset := offset + 8;
        return MagicRead(true);
      }
      return MagicRead(false);
    }

    /** Skips records of unknown type and returns the first other one. */
    method NextRecord() returns (r: FrameResult)
      requires Valid()
      modifies this`offset
      ensures Valid()
      ensures NextFrame(old(Rest())) ==
        (match r case NoRecord => Incomplete(Rest())
                 case OneRecord(record) => Complete(record, Rest())
                 case ParseError => Faulty(Rest()))
    {
      hide R.Decode, FromLE;
      while offset + 9 < |buffer|
        invariant offset <= |buffer|
        invariant NextFrame(Rest()) == NextFrame(old(Rest()))
        decreases |buffer| - offset
      {
        ghost var rest := Rest();
        var recordLength := FromLE(buffer[offset + 1..offset + 9]);
        assert rest[1..9] == buffer[offset + 1..offset + 9];
        if offset + 9 + recordLength > |buffer| {
          return NoRecord;
        }
        var start := offset + 9;
        var body := buffer[start..start + recordLength];
        assert rest[9..9 + recordLength] == body;
        var decoded := R.Decode(buffer[offset], body);
        offset := start + recordLength;
        assert rest[9 + recordLength..] == Rest();
        match decoded
        case Unknown =>
        case Broken => return ParseError;
        case Known(record) => return OneRecord(record);
      }
      r := NoRecord;
    }
  }

  class MCAPStreamedReader {
    const recordReader: RecordReader
    var chunkReader: RecordReader?
    var readHeaderMagic: bool
    const decompress: Decompressor

    ghost predicate Valid()
      reads this, recordReader, chunkReader
    {
      recordReader.Valid() && (chunkReader != null ==> chunkReader != recordReader && chunkReader.Valid())
    }

    /** The reader's state, as the functions above see it. */
    ghost function Abs(): State
      requires Valid()
      reads this, recordReader, chunkReader
    {
      State(readHeaderMagic, recordReader.Rest(), if chunkReader == null then None else Some(chunkReader.Rest()))
    }

    constructor (decompress: Decompressor)
      ensures Valid() && fresh(recordReader) && chunkReader == null
      ensures this.decompress == decompress
      ensures Abs() == State(false, [], None)
    {
      recordReader := new RecordReader([]);
      chunkReader, readHeaderMagic, this.decompress := null, false, decompress;
    }

    method Append(data: bytes)
      requires Valid()
      modifies recordReader
      ensures Valid() && Abs() == old(Abs()).With(data)
    {
      recordReader.Append(data);
    }

    /** The contents of a chunk; its checksum is computed by the table-driven CRC32. */
    method Decompress(chunk: R.Record) returns (r: Opened)
      requires chunk.Chunk?
      ensures r == Open(chunk, decompress)
    {
      hide Checksum;
      var data := if chunk.compression == [] then Data(chunk.records)
                  else decompress(chunk.compression, chunk.records, chunk.uncompressedSize);
      match data
      case Unsupported => return NotOpened(UnsupportedCompression(chunk.compression));
      case Failed => return NotOpened(DecompressionFailed);
      case Data(d) =>
        if chunk.uncompressedCrc != 0 {
          var crc := new SwiftCrc32.CRC32();
          crc.Update16Byte(d, 0);
          assert [] + d == d;
          var computed := crc.Final();
          if chunk.uncompressedCrc != computed {
            return NotOpened(InvalidCrc(chunk.uncompressedCrc, computed));
          }
        }
        return Opened(d);
    }

    /** Reads on in the open chunk, closing it when it is used up. */
    method NextRecordInChunk() returns (r: Result)
      requires Valid() && chunkReader != null
      modifies this, chunkReader
      ensures Valid() && (chunkReader == null || chunkReader == old(chunkReader))
      ensures (r, Abs()) == NextInChunk(old(Abs()), old(chunkReader.Rest()))
    {
      hide NextFrame;
      var found := chunkReader.NextRecord();
      var left := |chunkReader.buffer| - chunkReader.offset;
      if left == 0 {
        chunkReader := null;
      }
      match found
      case OneRecord(record) => r := Emitted(record);
      case ParseError => r := Threw(BrokenRecord);
      case NoRecord => r := Threw(ExtraneousDataInChunk(left));
    }

    /** The next record, if enough data is there. */
    method NextRecord() returns (r: Result)
      requires Valid()
      modifies this, recordReader, chunkReader
      ensures Valid() && (chunkReader == null || chunkReader == old(chunkReader) || fresh(chunkReader))
      ensures (r, Abs()) == Next(old(Abs()), decompress)
    {
      hide NextFrame, Open, NextInChunk;
      if !readHeaderMagic {
        var magic := recordReader.ReadMagic();
        if magic.BadMagic? {
          return Threw(InvalidMagic(magic.prefix));
        }
        if !magic.found {
          return Nothing;
        }
        readHeaderMagic := true;
      }
      if chunkReader == null {
        var found := recordReader.NextRecord();
        match found
        case NoRecord => return Nothing;
        case ParseError => return Threw(BrokenRecord);
        case OneRecord(record) =>
          if !record.Chunk? {
            return Emitted(record);
          }
          var chunk := Decompress(record);
          if chunk.NotOpened? {
            return Threw(chunk.error);
          }
          chunkReader := new RecordReader(chunk.data);
          ChunkStateIrrelevant(Abs(), chunk.data);
      }
      r := NextRecordInChunk();
    }
  }

  /** What the state says about an open chunk does not matter while reading in it. */
  lemma ChunkStateIrrelevant(s: State, contents: bytes)
    ensures NextInChunk(s, contents) == NextInChunk(s.(chunk := None), contents)
  {
  }

  /** Reads a stream that arrives in pieces, draining after each. The outcome is the one of
      the whole stream at once. */
  method ReadPieces(pieces: seq<bytes>, decompress: Decompressor) returns (records: seq<R.Record>, error: Option<Error>)
    ensures var whole := Drain(State(false, Flatten(pieces), None), decompress);
            records == whole.records && error == whole.error
  {
    hide Next, Drain;
    var reader := new MCAPStreamedReader(decompress);
    ghost var start := State(false, [], None);
    StartIsQuiet(decompress);
    SplitDoesNotMatter(start, pieces, decompress);
    assert start.With(Flatten(pieces)) == State(false, Flatten(pieces), None) by { assert [] + Flatten(pieces) == Flatten(pieces); }
    records, error := [], None;
    ghost var whole := DrainPieces(start, pieces, decompress);
    for i := 0 to |pieces|
      invariant reader.Valid() && fresh(reader) && fresh(reader.recordReader)
      invariant reader.chunkReader != null ==> fresh(reader.chunkReader)
      invariant reader.decompress == decompress
      invariant var rest := DrainPieces(reader.Abs(), pieces[i..], decompress);
                whole == rest.(records := records + rest.records)
    {
      reader.Append(pieces[i]);
      ghost var before := reader.Abs();
      ghost var drained := Drain(before, decompress);
      assert pieces[i..][0] == pieces[i] && pieces[i..][1..] == pieces[i + 1..];
      var some, failed := DrainReader(reader);
      if failed.Some? {
        return records + some, failed;
      }
      ghost var rest := DrainPieces(reader.Abs(), pieces[i + 1..], decompress);
      assert records + (some + rest.records) == (records + some) + rest.records;
      records := records + some;
    }
    assert pieces[|pieces|..] == [];
  }

  lemma StartIsQuiet(decompress: Decompressor)
    ensures Next(State(false, [], None), decompress) == (Nothing, State(false, [], None))
  {
  }

  /** The loop a caller runs after each piece. */
  method DrainReader(reader: MCAPStreamedReader) returns (records: seq<R.Record>, error: Option<Error>)
    requires reader.Valid()
    modifies reader, reader.recordReader, reader.chunkReader
    ensures reader.Valid()
    ensures reader.chunkReader == null || reader.chunkReader == old(reader.chunkReader) || fresh(reader.chunkReader)
    ensures Drain(old(reader.Abs()), reader.decompress) == Drained(records, error, reader.Abs())
  {
    hide Next;
    records := [];
    ghost var all := Drain(reader.Abs(), reader.decompress);
    while true
      invariant reader.Valid()
      invariant reader.chunkReader == null || reader.chunkReader == old(reader.chunkReader) || fresh(reader.chunkReader)
      invariant var rest := Drain(reader.Abs(), reader.decompress); all == rest.(records := records + rest.records)
      decreases |reader.recordReader.Rest()|, reader.Abs().ChunkSize()
    {
      NextShrinks(reader.Abs(), reader.decompress);
      ghost var rest := Drain(reader.Abs(), reader.decompress);
      var r := reader.NextRecord();
      match r
      case Nothing =>
        assert records + [] == records;
        return records, None;
      case Threw(e) =>
        assert records + [] == records;
        return records, Some(e);
      case Emitted(record) =>
        ghost var later := Drain(reader.Abs(), reader.decompress);
        assert records + ([record] + later.records) == (records + [record]) + later.records;
        records := records + [record];
    }
  }
}
