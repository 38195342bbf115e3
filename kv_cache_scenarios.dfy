/**
 * The three test scenarios of the key-value cache, replayed on a fresh
 * cache: each method's postconditions are the assertions the scenario
 * makes, proved from the cache's contracts.
 */
module KvCacheScenarios {

  import opened Wrappers
  import opened Decimal
  import opened LogEntries
  import opened ChannelBlocks
  import opened KvCaches

  /** The zero Since cursor. */
  const SinceZero: ChangesOptions := ChangesOptions(SequenceID(0, 0, 0))

  /**
   * Builds the entry for `sequence` with `channelNames` and adds it to the
   * cache: the store gains exactly that entry, every listed channel and the
   * star channel record the sequence, and nothing else changes.
   */
  method AddEntry(cache: KvCache, sequence: Uint64, docId: string, revId: string, channelNames: seq<string>)
    returns (addedTo: seq<string>)
    requires cache.Valid()
    modifies cache
    ensures cache.Valid()
    ensures SeqKey(sequence) in cache.bucket
    ensures cache.bucket == old(cache.bucket)[SeqKey(sequence) := cache.bucket[SeqKey(sequence)]]
    ensures cache.bucket[SeqKey(sequence)].sequence == sequence
    ensures cache.bucket[SeqKey(sequence)].docId == docId && cache.bucket[SeqKey(sequence)].revId == revId
    ensures forall ch :: ch in cache.channelBlocks <==> ch in old(cache.channelBlocks) || ch in channelNames || ch == StarChannel
    ensures forall ch :: (cache.Content(ch) == old(cache.Content(ch)) +
      (if ch in channelNames || ch == StarChannel then {sequence} else {}))
    ensures forall ch :: ch in addedTo <==> ch in channelNames || ch == StarChannel
    ensures forall j, k :: 0 <= j < k < |addedTo| ==> addedTo[j] != addedTo[k]
    ensures ((forall j, k :: 0 <= j < k < |channelNames| ==> channelNames[j] != channelNames[k]) &&
             StarChannel !in channelNames) ==> |addedTo| == |channelNames| + 1
  {
    var e := ChannelEntry(sequence, docId, revId, channelNames);
    ghost var blocks0 := cache.channelBlocks;
    addedTo := cache.AddToCache(e);
    RecordAllContent(blocks0, Targets(e), sequence);
    RecordAllKeys(blocks0, Targets(e), sequence);
    forall ch ensures cache.Content(ch) == ContentOf(blocks0, ch) +
      (if ch in channelNames || ch == StarChannel then {sequence} else {})
    {
      assert ch in Targets(e) <==> ch in channelNames || ch == StarChannel;
    }
    if (forall j, k :: 0 <= j < k < |channelNames| ==> channelNames[j] != channelNames[k]) && StarChannel !in channelNames {
      ListsExactlyLength(channelNames, e.channels.Keys);
    }
  }

  // The basic scenario.

  /** Entry 1 on ABC and CBS is added to three channels, NBC stays unwritten. */
  method AddFirstEntry(cache: KvCache) returns (addedTo: seq<string>)
    requires cache.Valid() && cache.bucket == map[] && cache.channelBlocks == map[]
    modifies cache
    ensures cache.Valid()
    ensures |addedTo| == 3
    ensures cache.Content("ABC") == {1} && "ABC" in cache.channelBlocks && "NBC" !in cache.channelBlocks
    ensures SeqKey(1) in cache.bucket
    ensures cache.bucket[SeqKey(1)].docId == "foo1" && cache.bucket[SeqKey(1)].revId == "1-a"
  {
    addedTo := AddEntry(cache, 1, "foo1", "1-a", ["ABC", "CBS"]);
  }

  /**
   * Entry 1 is stored under `_cache:seq:1` and reads back whole; ABC's block
   * for 1 holds 1 and not 2; NBC has no block.
   */
  method InspectFirstEntry(cache: KvCache) returns (rawPresent: bool, entry: Option<LogEntry>,
                                                    abcBlock: Option<CacheBlock>, nbcBlock: Option<CacheBlock>)
    requires cache.Valid() && cache.Content("ABC") == {1} && "ABC" in cache.channelBlocks && "NBC" !in cache.channelBlocks
    requires SeqKey(1) in cache.bucket
    requires cache.bucket[SeqKey(1)].docId == "foo1" && cache.bucket[SeqKey(1)].revId == "1-a"
    ensures rawPresent
    ensures entry.Some? && entry.value.sequence == 1 && entry.value.docId == "foo1" && entry.value.revId == "1-a"
    ensures abcBlock.Some? && abcBlock.value.HasSequence(1) && !abcBlock.value.HasSequence(2)
    ensures nbcBlock == None
  {
    SeqKeyExamples();
    rawPresent := cache.GetRaw("_cache:seq:1").Some?;
    entry := cache.ReadCacheEntry(1);
    var helper := cache.GetCacheHelper("ABC");
    cache.ContentPresent("ABC", 1);
    cache.ContentPresent("ABC", 2);
    abcBlock := cache.ReadCacheBlockForSequence(helper, 1);
    var nbcHelper := cache.GetCacheHelper("NBC");
    nbcBlock := cache.ReadCacheBlockForSequence(nbcHelper, 1);
  }

  /** Entry 100 on ABC and CBS: ABC gains 100, entry 1 is untouched. */
  method AddSecondEntry(cache: KvCache)
    requires cache.Valid() && cache.Content("ABC") == {1} && SeqKey(1) in cache.bucket
    modifies cache
    ensures cache.Valid()
    ensures cache.Content("ABC") == {1, 100} && "ABC" in cache.channelBlocks
    ensures SeqKey(1) in cache.bucket && cache.bucket[SeqKey(1)] == old(cache.bucket[SeqKey(1)])
  {
    var _ := AddEntry(cache, 100, "foo2", "1-a", ["ABC", "CBS"]);
    assert SeqKey(1) != SeqKey(100) by { SeqKeyInjective(1, 100); }
  }

  /** Entry 500 on CBS only: ABC is unchanged, entry 1 is untouched. */
  method AddThirdEntry(cache: KvCache)
    requires cache.Valid() && cache.Content("ABC") == {1, 100} && "ABC" in cache.channelBlocks && SeqKey(1) in cache.bucket
    modifies cache
    ensures cache.Valid()
    ensures cache.Content("ABC") == {1, 100} && "ABC" in cache.channelBlocks
    ensures SeqKey(1) in cache.bucket && cache.bucket[SeqKey(1)] == old(cache.bucket[SeqKey(1)])
  {
    var _ := AddEntry(cache, 500, "foo3", "1-a", ["CBS"]);
    assert SeqKey(1) != SeqKey(500) by { SeqKeyInjective(1, 500); }
  }

  /**
   * The ABC query from cursor 0 yields 1 then 100, the first being the
   * stored entry 1, and GetChanges gives the same entries.
   */
  method QueryFromZero(cache: KvCache) returns (cached0: seq<LogEntry>, changes0: seq<LogEntry>)
    requires cache.Valid() && cache.Content("ABC") == {1, 100} && "ABC" in cache.channelBlocks
    ensures Sequences(cached0) == [1, 100]
    ensures SeqKey(1) in cache.bucket && cached0[0] == cache.bucket[SeqKey(1)]
    ensures changes0 == cached0
  {
    cache.ContentPresent("ABC", 1);
    cache.ChangesExactly("ABC", 0, 0, [1, 100]);
    cached0 := cache.GetCachedChanges("ABC", SinceZero);
    assert cache.ReadCacheEntry(1) == Some(cached0[0]);
    changes0 := cache.GetChanges("ABC", SinceZero);
    forall k | 0 <= k < |changes0| ensures changes0[k] == cached0[k] {
      assert changes0[k].sequence == cached0[k].sequence;
    }
  }

  /** The ABC query from cursor 50 yields only 100. */
  method QueryFromFifty(cache: KvCache) returns (cached50: seq<LogEntry>)
    requires cache.Valid() && cache.Content("ABC") == {1, 100} && "ABC" in cache.channelBlocks
    ensures Sequences(cached50) == [100]
  {
    cache.ContentPresent("ABC", 1);
    cache.ChangesExactly("ABC", 50, 0, [100]);
    cached50 := cache.GetCachedChanges("ABC", ChangesOptions(SequenceID(50, 0, 0)));
  }

  /**
   * One entry on ABC and CBS lands in three channels, reads back whole, is
   * the only sequence of its ABC block, and is absent from the never-written
   * NBC; after two more entries the ABC query from 0 yields 1 then 100 with
   * entry 1 first, from 50 only 100, and GetChanges agrees with
   * GetCachedChanges.
   */
  method TestKvCache() returns (addedTo: seq<string>, rawPresent: bool, entry: Option<LogEntry>,
                                abcBlock: Option<CacheBlock>, nbcBlock: Option<CacheBlock>,
                                cached0: seq<LogEntry>, cached50: seq<LogEntry>, changes0: seq<LogEntry>)
    ensures |addedTo| == 3
    ensures rawPresent
    ensures entry.Some? && entry.value.sequence == 1 && entry.value.docId == "foo1" && entry.value.revId == "1-a"
    ensures abcBlock.Some? && abcBlock.value.HasSequence(1) && !abcBlock.value.HasSequence(2)
    ensures nbcBlock == None
    ensures Sequences(cached0) == [1, 100]
    ensures cached0[0].docId == "foo1" && cached0[0].revId == "1-a"
    ensures Sequences(cached50) == [100]
    ensures changes0 == cached0
  {
    var cache := new KvCache();
    addedTo := AddFirstEntry(cache);
    rawPresent, entry, abcBlock, nbcBlock := InspectFirstEntry(cache);
    AddSecondEntry(cache);
    AddThirdEntry(cache);
    cached0, changes0 := QueryFromZero(cache);
    cached50 := QueryFromFifty(cache);
  }

  /** The store keys the scenarios read directly. */
  lemma SeqKeyExamples()
    ensures SeqKey(1) == "_cache:seq:1"
    ensures SeqKey(10) == "_cache:seq:10"
    ensures SeqKey(10010) == "_cache:seq:10010"
  {
  }

  // The multi-block scenario.

  /** Adds an entry on ABC alone: it lands in ABC and the star channel. */
  method AddOnAbc(cache: KvCache, sequence: Uint64, docId: string) returns (addedTo: seq<string>)
    requires cache.Valid()
    modifies cache
    ensures cache.Valid()
    ensures |addedTo| == 2
    ensures cache.Content("ABC") == old(cache.Content("ABC")) + {sequence} && "ABC" in cache.channelBlocks
  {
    addedTo := AddEntry(cache, sequence, docId, "1-a", ["ABC"]);
  }

  /** 10 and 10010 are stored, and each is found in its own block, 0 and 1. */
  method InspectTwoBlocks(cache: KvCache) returns (raw10: bool, raw10010: bool,
                                                   block1: Option<CacheBlock>, block10010: Option<CacheBlock>)
    requires cache.Valid() && cache.Content("ABC") == {10, 10010} && "ABC" in cache.channelBlocks
    ensures raw10 && raw10010
    ensures block1.Some? && block1.value.index == 0 && block1.value.HasSequence(10) && !block1.value.HasSequence(10010)
    ensures block10010.Some? && block10010.value.index == 1 && block10010.value.HasSequence(10010)
    ensures !block10010.value.HasSequence(10)
  {
    SeqKeyExamples();
    raw10 := cache.GetRaw("_cache:seq:10").Some?;
    raw10010 := cache.GetRaw("_cache:seq:10010").Some?;
    var helper := cache.GetCacheHelper("ABC");
    cache.ContentPresent("ABC", 10);
    cache.ContentPresent("ABC", 10010);
    block1 := cache.ReadCacheBlockForSequence(helper, 1);
    block10010 := cache.ReadCacheBlockForSequence(helper, 10010);
  }

  /** The border entries 9999 and 10000 are found in blocks 0 and 1. */
  method InspectBorder(cache: KvCache) returns (block9999: Option<CacheBlock>, block10000: Option<CacheBlock>)
    requires cache.Valid() && cache.Content("ABC") == {10, 10010, 9999, 10000} && "ABC" in cache.channelBlocks
    ensures block9999.Some? && block9999.value.index == 0 && block9999.value.HasSequence(9999)
    ensures block10000.Some? && block10000.value.index == 1 && block10000.value.HasSequence(10000)
  {
    var helper := cache.GetCacheHelper("ABC");
    cache.ContentPresent("ABC", 9999);
    cache.ContentPresent("ABC", 10000);
    block9999 := cache.ReadCacheBlockForSequence(helper, 9999);
    block10000 := cache.ReadCacheBlockForSequence(helper, 10000);
  }

  /** The query from cursor 0 crosses from block 0 into block 1. */
  method QueryTwoBlocks(cache: KvCache) returns (cached: seq<LogEntry>)
    requires cache.Valid() && cache.Content("ABC") == {10, 10010, 9999, 10000} && "ABC" in cache.channelBlocks
    ensures Sequences(cached) == [10, 9999, 10000, 10010]
  {
    cache.ContentPresent("ABC", 10);
    cache.ContentPresent("ABC", 10010);
    cache.ChangesExactly("ABC", 0, 1, [10, 9999, 10000, 10010]);
    cached := cache.GetCachedChanges("ABC", SinceZero);
  }

  /**
   * Entries 10 and 10010 on ABC each land in two channels and sit in blocks
   * 0 and 1, as do the border entries 9999 and 10000; the query from 0 walks
   * both blocks and yields all four in ascending order.
   */
  method TestKvCacheMultiBlock() returns (added10: seq<string>, added10010: seq<string>, raw10: bool, raw10010: bool,
                                          block1: Option<CacheBlock>, block10010: Option<CacheBlock>,
                                          block9999: Option<CacheBlock>, block10000: Option<CacheBlock>,
                                          cached: seq<LogEntry>)
    ensures |added10| == 2 && |added10010| == 2
    ensures raw10 && raw10010
    ensures block1.Some? && block1.value.HasSequence(10) && !block1.value.HasSequence(10010)
    ensures block10010.Some? && block10010.value.HasSequence(10010) && !block10010.value.HasSequence(10)
    ensures block9999.Some? && block9999.value.index == 0 && block9999.value.HasSequence(9999)
    ensures block10000.Some? && block10000.value.index == 1 && block10000.value.HasSequence(10000)
    ensures |cached| == 4 && Sequences(cached) == [10, 9999, 10000, 10010]
  {
    var cache := new KvCache();
    added10 := AddOnAbc(cache, 10, "foo1");
    added10010 := AddOnAbc(cache, 10010, "foo1");
    raw10, raw10010, block1, block10010 := InspectTwoBlocks(cache);
    var _ := AddOnAbc(cache, 9999, "foo9999");
    var _ := AddOnAbc(cache, 10000, "foo10000");
    block9999, block10000 := InspectBorder(cache);
    cached := QueryTwoBlocks(cache);
  }

  // The channel-filtering outcome of the distributed-notify scenario.

  /**
   * Writes a one-revision document `doc-<sequence>` on `channelNames` and
   * lets it reach the cache as entry `sequence`.
   */
  method WriteDirect(cache: KvCache, channelNames: seq<string>, sequence: Uint64)
    requires cache.Valid()
    modifies cache
    ensures cache.Valid()
    ensures SeqKey(sequence) in cache.bucket
    ensures cache.bucket == old(cache.bucket)[SeqKey(sequence) := cache.bucket[SeqKey(sequence)]]
    ensures cache.bucket[SeqKey(sequence)].sequence == sequence
    ensures cache.bucket[SeqKey(sequence)].docId == "doc-" + DecimalString(sequence)
    ensures cache.bucket[SeqKey(sequence)].revId == "1-a"
    ensures forall ch :: ch in cache.channelBlocks <==> ch in old(cache.channelBlocks) || ch in channelNames || ch == StarChannel
    ensures forall ch :: (cache.Content(ch) == old(cache.Content(ch)) +
      (if ch in channelNames || ch == StarChannel then {sequence} else {}))
  {
    var _ := AddEntry(cache, sequence, "doc-" + DecimalString(sequence), "1-a", channelNames);
  }

  /** The cursor positions of a list of feed elements, in order. */
  function Positions(changes: seq<ChangeEntry>): seq<nat>
  {
    seq(|changes|, k requires 0 <= k < |changes| => changes[k].cursor.position as nat)
  }

  lemma PositionsAppend(a: seq<ChangeEntry>, b: seq<ChangeEntry>)
    ensures Positions(a + b) == Positions(a) + Positions(b)
  {
  }

  /**
   * One iteration of a continuous changes feed on `ch`: the entries after
   * the cursor, as feed elements in order, and the cursor moved to the last
   * one sent (unchanged when there is none).
   */
  method FeedIteration(cache: KvCache, ch: string, cursor: Uint64) returns (emitted: seq<ChangeEntry>, next: Uint64)
    requires cache.Valid()
    ensures Positions(emitted) == cache.ChangedSequences(ch, cursor)
    ensures forall k :: 0 <= k < |emitted| ==>
      var r := cache.ReadCacheEntry(emitted[k].cursor.position); r.Some? && emitted[k] == ChangeEntryOf(r.value)
    ensures next == if |emitted| == 0 then cursor else Positions(emitted)[|emitted| - 1]
  {
    var results := cache.GetChanges(ch, ChangesOptions(SequenceID(cursor, 0, 0)));
    emitted := seq(|results|, k requires 0 <= k < |results| => ChangeEntryOf(results[k]));
    next := if |results| == 0 then cursor else results[|results| - 1].sequence;
    assert Positions(emitted) == Sequences(results);
  }

  /** Documents 1 and 2 are written to ABC. */
  method WriteFirstTwo(cache: KvCache)
    requires cache.Valid() && cache.bucket == map[] && cache.channelBlocks == map[]
    modifies cache
    ensures cache.Valid()
    ensures cache.Content("ABC") == {1, 2} && "ABC" in cache.channelBlocks
    ensures SeqKey(1) in cache.bucket && cache.bucket[SeqKey(1)].docId == "doc-1" && cache.bucket[SeqKey(1)].revId == "1-a"
  {
    WriteDirect(cache, ["ABC"], 1);
    assert DecimalString(1) == "1";
    WriteDirect(cache, ["ABC"], 2);
    assert SeqKey(1) != SeqKey(2) by { SeqKeyInjective(1, 2); }
  }

  /** The feed from cursor 0 first sends 1 and 2, the first as `doc-1` at revision `1-a`. */
  method PollInitial(cache: KvCache) returns (changes: seq<ChangeEntry>, cursor: Uint64)
    requires cache.Valid() && cache.Content("ABC") == {1, 2} && "ABC" in cache.channelBlocks
    requires SeqKey(1) in cache.bucket && cache.bucket[SeqKey(1)].docId == "doc-1" && cache.bucket[SeqKey(1)].revId == "1-a"
    ensures |changes| == 2 && changes[0] == ChangeEntry(SequenceID(1, 0, 0), "doc-1", [map["rev" := "1-a"]])
    ensures Positions(changes) == [1, 2] && cursor == 2
  {
    cache.ContentPresent("ABC", 1);
    cache.ChangesExactly("ABC", 0, 0, [1, 2]);
    changes, cursor := FeedIteration(cache, "ABC", 0);
    assert changes[0].cursor.position == 1;
  }

  /** Document 3 is written to ABC, the channel the feed follows. */
  method WriteThird(cache: KvCache)
    requires cache.Valid() && cache.Content("ABC") == {1, 2}
    modifies cache
    ensures cache.Valid() && cache.Content("ABC") == {1, 2, 3} && "ABC" in cache.channelBlocks
  {
    WriteDirect(cache, ["ABC"], 3);
  }

  /** Document 4 is written to NBC: ABC's content stays as it was. */
  method WriteFourth(cache: KvCache)
    requires cache.Valid() && cache.Content("ABC") == {1, 2, 3} && "ABC" in cache.channelBlocks
    modifies cache
    ensures cache.Valid() && cache.Content("ABC") == {1, 2, 3} && "ABC" in cache.channelBlocks
  {
    WriteDirect(cache, ["NBC"], 4);
  }

  /** Document 5 is written to ABC. */
  method WriteFifth(cache: KvCache)
    requires cache.Valid() && cache.Content("ABC") == {1, 2, 3}
    modifies cache
    ensures cache.Valid() && cache.Content("ABC") == {1, 2, 3, 5} && "ABC" in cache.channelBlocks
  {
    WriteDirect(cache, ["ABC"], 5);
  }

  lemma ChangesAfterTwo(cache: KvCache)
    requires cache.Valid() && cache.Content("ABC") == {1, 2, 3} && "ABC" in cache.channelBlocks
    ensures cache.ChangedSequences("ABC", 2) == [3]
  {
    cache.ContentPresent("ABC", 1);
    cache.ChangesExactly("ABC", 2, 0, [3]);
  }

  lemma ChangesAfterThree(cache: KvCache)
    requires cache.Valid() && cache.Content("ABC") == {1, 2, 3} && "ABC" in cache.channelBlocks
    ensures cache.ChangedSequences("ABC", 3) == []
  {
    cache.ContentPresent("ABC", 1);
    cache.ChangesExactly("ABC", 3, 0, []);
  }

  lemma ChangesAfterThreeLater(cache: KvCache)
    requires cache.Valid() && cache.Content("ABC") == {1, 2, 3, 5} && "ABC" in cache.channelBlocks
    ensures cache.ChangedSequences("ABC", 3) == [5]
  {
    cache.ContentPresent("ABC", 1);
    cache.ChangesExactly("ABC", 3, 0, [5]);
  }

  /** After the arrival of 3 on ABC the feed sends 3. */
  method PollAfterArrival(cache: KvCache, changes: seq<ChangeEntry>, cursor: Uint64)
    returns (changes': seq<ChangeEntry>, cursor': Uint64)
    requires cache.Valid() && cache.Content("ABC") == {1, 2, 3} && "ABC" in cache.channelBlocks
    requires Positions(changes) == [1, 2] && cursor == 2
    ensures Positions(changes') == [1, 2, 3] && cursor' == 3
  {
    ChangesAfterTwo(cache);
    var emitted;
    emitted, cursor' := FeedIteration(cache, "ABC", cursor);
    assert Positions(emitted) == [3];
    changes' := changes + emitted;
    PositionsAppend(changes, emitted);
    assert [1, 2] + [3] == [1, 2, 3];
  }

  /** After the arrival of 4 on NBC the feed sends nothing. */
  method PollAfterOtherArrival(cache: KvCache, changes: seq<ChangeEntry>, cursor: Uint64)
    returns (changes': seq<ChangeEntry>, cursor': Uint64)
    requires cache.Valid() && cache.Content("ABC") == {1, 2, 3} && "ABC" in cache.channelBlocks
    requires Positions(changes) == [1, 2, 3] && cursor == 3
    ensures Positions(changes') == [1, 2, 3] && cursor' == 3
  {
    ChangesAfterThree(cache);
    var emitted;
    emitted, cursor' := FeedIteration(cache, "ABC", cursor);
    assert Positions(emitted) == [];
    changes' := changes + emitted;
    PositionsAppend(changes, emitted);
    assert [1, 2, 3] + [] == [1, 2, 3];
  }

  /** After the arrival of 5 on ABC the feed sends 5. */
  method PollAfterLaterArrival(cache: KvCache, changes: seq<ChangeEntry>, cursor: Uint64)
    returns (changes': seq<ChangeEntry>, cursor': Uint64)
    requires cache.Valid() && cache.Content("ABC") == {1, 2, 3, 5} && "ABC" in cache.channelBlocks
    requires Positions(changes) == [1, 2, 3] && cursor == 3
    ensures Positions(changes') == [1, 2, 3, 5] && cursor' == 5
  {
    ChangesAfterThreeLater(cache);
    var emitted;
    emitted, cursor' := FeedIteration(cache, "ABC", cursor);
    assert Positions(emitted) == [5];
    changes' := changes + emitted;
    PositionsAppend(changes, emitted);
    assert [1, 2, 3] + [5] == [1, 2, 3, 5];
  }

  /**
   * With documents 1 and 2 on ABC, a feed on ABC from 0 first sends 1 and 2
   * (1 as `doc-1`, revision `1-a`); then 3 on ABC is sent, 4 on NBC is not,
   * and 5 on ABC is: the feed's sequences are 1, 2, 3 and then 1, 2, 3, 5.
   */
  method TestDistributedNotify() returns (initial: seq<ChangeEntry>, after3: seq<nat>, after4: seq<nat>, after5: seq<nat>)
    ensures |initial| == 2 && initial[0] == ChangeEntry(SequenceID(1, 0, 0), "doc-1", [map["rev" := "1-a"]])
    ensures after3 == [1, 2, 3]
    ensures after4 == [1, 2, 3]
    ensures after5 == [1, 2, 3, 5]
  {
    var cache := new KvCache();
    WriteFirstTwo(cache);
    var changes, cursor := PollInitial(cache);
    initial := changes;
    WriteThird(cache);
    changes, cursor := PollAfterArrival(cache, changes, cursor);
    after3 := Positions(changes);
    WriteFourth(cache);
    changes, cursor := PollAfterOtherArrival(cache, changes, cursor);
    after4 := Positions(changes);
    WriteFifth(cache);
    changes, cursor := PollAfterLaterArrival(cache, changes, cursor);
    after5 := Positions(changes);
  }

}
