/** The statistics the Rust writer stores, against the records of the file. */
module RustStatistics {
  import opened Bytes
  import opened Format
  import opened Records
  import opened RustLayout
  import opened RustRegistry
  import opened RustMachine
  import opened RustSummary
  import opened RustRuns
  import opened RustWriter

  /** How many of the messages are on a channel. */
  function NumOn(ms: seq<(nat, nat)>, channel: nat): nat
    decreases |ms|
  {
    if ms == [] then 0
    else NumOn(ms[..|ms| - 1], channel) + (if ms[|ms| - 1].0 == channel then 1 else 0)
  }

  /** The counters count: a channel has one exactly if it has messages, and it is their number. */
  lemma {:induction false} CountsAreNumbers(told: seq<(nat, nat)>, channel: nat)
    ensures channel in CountsOf(told) <==> NumOn(told, channel) > 0
    ensures channel in CountsOf(told) ==> CountsOf(told)[channel] == NumOn(told, channel)
    decreases |told|
  {
    if told != [] {
      CountsAreNumbers(told[..|told| - 1], channel);
    }
  }

  /** The span is the least and the greatest log time. */
  lemma {:induction false} SpanIsTight(told: seq<(nat, nat)>)
    ensures SpanOf(told).None? <==> told == []
    ensures told != [] ==>
              var (lo, hi) := SpanOf(told).value;
              (forall i :: 0 <= i < |told| ==> lo <= told[i].1 <= hi) &&
              (exists i :: 0 <= i < |told| && told[i].1 == lo) && (exists i :: 0 <= i < |told| && told[i].1 == hi)
    decreases |told|
  {
    if told != [] {
      var before, last := told[..|told| - 1], |told| - 1;
      SpanIsTight(before);
      assert told[last].1 == told[last].1;
      if before != [] {
        var (lo, hi) := SpanOf(before).value;
        var i :| 0 <= i < |before| && before[i].1 == lo;
        var j :| 0 <= j < |before| && before[j].1 == hi;
        assert told[i].1 == lo && told[j].1 == hi;
      }
    }
  }

  lemma ListedMore(counts: map<nat, nat>, channels: seq<nat>)
    requires channels != []
    ensures var n := |channels| - 1;
            Total(Listed(counts, channels)) ==
            Total(Listed(counts, channels[..n])) + (if channels[n] in counts then counts[channels[n]] else 0)
  {
    var n := |channels| - 1;
    assert Listed(counts, channels)[..|Listed(counts, channels)| - 1] == Listed(counts, channels[..n]);
  }

  /** One more message on a channel adds one to a total over distinct channels. */
  lemma {:induction false} CountAddsOne(counts: map<nat, nat>, channel: nat, channels: seq<nat>)
    requires forall i, j :: 0 <= i < j < |channels| ==> channels[i] < channels[j]
    ensures Total(Listed(Count(counts, channel), channels)) ==
            Total(Listed(counts, channels)) + (if channel in channels then 1 else 0)
    decreases |channels|
  {
    hide Total, Listed;
    if channels == [] {
      NothingListed(counts);
      NothingListed(Count(counts, channel));
    } else {
      var n := |channels| - 1;
      ListedMore(counts, channels);
      ListedMore(Count(counts, channel), channels);
      CountAddsOne(counts, channel, channels[..n]);
      assert channels == channels[..n] + [channels[n]];
    }
  }

  lemma NothingListed(counts: map<nat, nat>)
    ensures Total(Listed(counts, [])) == 0
  {
  }

  lemma {:induction false} NothingCounted(channels: seq<nat>)
    ensures Total(Listed(map[], channels)) == 0
    decreases |channels|
  {
    if channels != [] {
      ListedMore(map[], channels);
      NothingCounted(channels[..|channels| - 1]);
    }
  }

  /** The total over any ascending list that has all channels is the number of messages. */
  lemma {:induction false} TotalIsLength(told: seq<(nat, nat)>, channels: seq<nat>)
    requires forall i, j :: 0 <= i < j < |channels| ==> channels[i] < channels[j]
    requires forall m :: m in told ==> m.0 in channels
    ensures Total(Listed(CountsOf(told), channels)) == |told|
    decreases |told|
  {
    hide Total, Listed, Count;
    if told == [] {
      NothingCounted(channels);
    } else {
      var before := told[..|told| - 1];
      TotalIsLength(before, channels);
      CountAddsOne(CountsOf(before), told[|told| - 1].0, channels);
    }
  }

  lemma {:induction false} ToldIsCounted(told: seq<(nat, nat)>)
    ensures forall m :: m in told ==> m.0 in CountsOf(told)
    decreases |told|
  {
    if told != [] {
      ToldIsCounted(told[..|told| - 1]);
      assert told == told[..|told| - 1] + [told[|told| - 1]];
    }
  }

  function NumChunks(items: seq<Item>): nat
    decreases |items|
  {
    if items == [] then 0 else NumChunks(items[..|items| - 1]) + (if items[|items| - 1].ChunkOf? then 1 else 0)
  }

  /** The stored chunk count, the number of chunk indexes, is the number of chunks, and every
      attachment and metadata record has its index. */
  lemma {:induction false} IndexesCount(o: Options, items: seq<Item>)
    ensures |ChunkIndexList(o, items)| == NumChunks(items)
    ensures |AttachmentIndexList(o, items)| == NumAttachments(items)
    ensures |MetadataIndexList(o, items)| == NumMetadata(items)
    decreases |items|
  {
    hide Layout, ChunkIndexFor, AttachmentIndexFor, MetadataIndexFor;
    if items != [] {
      IndexesCount(o, items[..|items| - 1]);
    }
  }

  /** A fresh ledger. */
  const NO_MESSAGES: Ledger := Ledger([], 0)

  lemma InitialAccounts(o: Options)
    ensures Accounts(Initial(o), NO_MESSAGES)
  {
    var items := Initial(o).items;
    EntriesMore([], items[0]);
    assert [] + [items[0]] == items;
    var e := Typed(Header(o.profile, o.library));
    assert AllEntries(Initial(o)) == [] + [e];
    MessagesMore([], e);
  }

  /** After any run, the stored message count exceeds the number of messages in the file by
      the calls that counted a message while an attachment was open. So it is right if and
      only if no such call was made, and then the counts per channel and the time range are
      right too. */
  lemma StatisticsAreTrue(o: Options, calls: seq<Call>, chunks: nat, attachments: nat, metadata: nat)
    requires Sane(Initial(o)) && Safe(o, Initial(o), calls)
    ensures var s := Closed(Run(o, Initial(o), calls));
            var lost := LedgerOf(o, Initial(o), calls, NO_MESSAGES).lost;
            var stats := StatisticsOf(s, chunks, attachments, metadata);
            var messages := MessagesIn(EntriesIn(s.items));
            !s.open.Taken? && !s.open.InAttachment? ==>
              (stats.messageCount == |messages| + lost &&
               (stats.messageCount == |messages| <==> lost == 0) &&
               (lost == 0 ==> CountsMatch(s.counts, messages) && s.bounds == SpanOf(messages)))
  {
    hide Safe, Sane, Run, LedgerOf, Total, Listed, CountsOf, SpanOf, MessagesIn, EntriesIn, Ascending, CountsMatch;
    var t := Run(o, Initial(o), calls);
    var l := LedgerOf(o, Initial(o), calls, NO_MESSAGES);
    InitialAccounts(o);
    RunAccounts(o, Initial(o), calls, NO_MESSAGES);
    var s := Closed(t);
    ClosedKeepsEntries(t);
    if !s.open.Taken? && !s.open.InAttachment? {
      assert EntriesIn(s.items) + [] == EntriesIn(s.items);
      ToldIsCounted(l.told);
      TotalIsLength(l.told, Ascending(s.counts.Keys));
      CountsMatchTold(l.told);
    }
  }

  /** Each channel's counter is the number of its messages. */
  ghost predicate CountsMatch(counts: map<nat, nat>, messages: seq<(nat, nat)>) {
    forall ch :: (ch in counts <==> NumOn(messages, ch) > 0) && (ch in counts ==> counts[ch] == NumOn(messages, ch))
  }

  lemma CountsMatchTold(told: seq<(nat, nat)>)
    ensures CountsMatch(CountsOf(told), told)
  {
    hide CountsOf, NumOn;
    forall ch {
      CountsAreNumbers(told, ch);
    }
  }

  /** Adding a channel, opening an attachment, and trying to write one message. */
  function LosingCalls(): seq<Call> {
    [CallAddChannel(ChannelContent(0, [], [], [])), CallStartAttachment(0, AttachmentHeader(0, 0, [], [])),
     CallWriteKnown(1, MessageHeader(0, 5, 0), []), CallFinishAttachment]
  }

  /** A run whose statistics claim a message that is not in the file. */
  lemma CountWithoutMessage(o: Options)
    requires !o.useChunks
    ensures Sane(Initial(o)) && Safe(o, Initial(o), LosingCalls())
    ensures LedgerOf(o, Initial(o), LosingCalls(), NO_MESSAGES).lost == 1
    ensures Run(o, Initial(o), LosingCalls()).open.Idle?
  {
    hide Sane, AllEntries;
    InitialIsSane(o);
    var c := ChannelContent(0, [], [], []);
    var s0 := Initial(o);
    var calls := LosingCalls();
    var s1 := Step(o, s0, calls[0]).0;
    StepKeepsSane(o, s0, calls[0]);
    assert calls[1..] == [calls[1], calls[2], calls[3]];
    assert s1.channels.all == map[1 := 1] && s1.open.Idle?;
    var s2 := Step(o, s1, calls[1]).0;
    StepKeepsSane(o, s1, calls[1]);
    assert calls[1..][1..] == [calls[2], calls[3]];
    assert s2.channels.all == map[1 := 1] && s2.open.InAttachment?;
    var s3 := Step(o, s2, calls[2]).0;
    StepKeepsSane(o, s2, calls[2]);
    assert calls[1..][1..][1..] == [calls[3]];
    assert s3.open == s2.open;
    var s4 := Step(o, s3, calls[3]).0;
    StepKeepsSane(o, s3, calls[3]);
    assert calls[1..][1..][1..][1..] == [];
    assert Safe(o, s4, []);
    assert Safe(o, s3, calls[1..][1..][1..]);
    assert Safe(o, s2, calls[1..][1..]);
    assert Safe(o, s1, calls[1..]);
    assert Safe(o, s0, calls);
  }
}
