# Key-value channel cache of Sync Gateway, in Dafny

This project models `kvCache`, the key-value channel cache of Couchbase Sync
Gateway, as its tests in `db/cache_kv_test.go` pin it down. The cache keeps
three things:

- **A raw-entry store.** This is the bucket. It holds one log entry per
  sequence, under the key `_cache:seq:<seq>`, where `<seq>` is the
  sequence's decimal numeral.
- **A block store per channel.** It cuts the sequence space into blocks of
  10000 sequences. Block `i` holds the set of sequences recorded for the
  channel in the range `[i*10000, (i+1)*10000)`. A channel that was never
  written has no block store at all, so it answers nil.
- **An ordered query.** It walks a channel's blocks from the one owning the
  `Since` cursor, and returns the entries above the cursor in ascending
  order, read back from the raw-entry store.

`AddToCache` stores an entry under its key and records its sequence in each
of its channels and in the star channel `*`. It returns the channels it
updated.

The project's files:

- `log_entry.dfy`: the data (`LogEntry`, `SequenceID`, `ChangesOptions`,
  `ChangeEntry`), and `ChannelEntry`, the test helper that builds an entry
  from a list of channel names.
- `decimal.dfy`: the decimal rendering used in the store keys, and the parse
  that undoes it. Together they make keys injective.
- `channel_blocks.dfy`: one channel's blocks. It has the recording function
  and the block walk, with their specification lemmas.
- `kv_cache.dfy`: the cache class `KvCache`, with the two map fields
  `bucket` and `channelBlocks`, and its operations.
- `kv_cache_scenarios.dfy`: the three test scenarios, replayed against a
  fresh cache. Each stage is a method whose postconditions are the
  assertions that stage of the test makes.

The implementation of `kvCache` is not available and is not part of this
model. Its behaviour is taken from what the tests assert, plus these design
choices:

- **The stored value.** A raw entry is stored as the entry itself, not as
  its serialized bytes.
- **Channel order.** `AddToCache` records into the channels one at a time,
  in an unspecified order, as a Go map iteration would.
- **The star channel.** The channel added beyond the entry's own is the star
  channel `*`. It is not listed twice when the entry already names it.
- **Missing blocks.** The block walk stops at the first block that does not
  exist. A sequence in a later block is then not returned: a channel that
  holds only 10010 yields nothing from cursor 0, because block 0 is missing.
  Completeness is proved for a channel whose blocks between the cursor and
  the last recorded sequence all exist.
- **Helpers are handles.** A helper names its channel and holds no blocks.
  Every block read through it is read from the cache at that moment, so a
  helper held across a write sees that write.

## Model

| member | source | states |
|---|---|---|
| LogEntries.ChannelEntry | src/github.com/couchbase/sync_gateway/db/cache_kv_test.go:36-50 | Copies sequence, document and revision unchanged; the channel map's keys are exactly the given names, each mapped to nil (loop with invariants over the names seen so far) |
| Decimal.DecimalString | src/github.com/couchbase/sync_gateway/db/cache_kv_test.go:63 | The numeral in a store key is a non-empty digit string without a leading zero |
| Decimal.ParseDecimalString | src/github.com/couchbase/sync_gateway/db/cache_kv_test.go:63 | Parsing the rendered numeral gives the sequence back (round trip, by induction) |
| Decimal.DecimalStringInjective | src/github.com/couchbase/sync_gateway/db/cache_kv_test.go:63 | Distinct sequences have distinct numerals |
| KvCaches.SeqKey | src/github.com/couchbase/sync_gateway/db/cache_kv_test.go:125-131 | The store key `_cache:seq:<seq>` of a sequence; specified by `SeqKeyFormat` and `SeqKeyInjective` |
| KvCaches.SeqKeyFormat | src/github.com/couchbase/sync_gateway/db/cache_kv_test.go:125-131 | A store key is `_cache:seq:` followed by the digit string of the sequence |
| KvCaches.SeqKeyInjective | src/github.com/couchbase/sync_gateway/db/cache_kv_test.go:63-71 | Two sequences share a store key `_cache:seq:<seq>` if and only if they are equal, so reading a key back yields the entry of that sequence |
| ChannelBlocks.RecordIn | src/github.com/couchbase/sync_gateway/db/cache_kv_test.go:116-122 | Records a sequence in the block seq/10000 of one channel, creating the block when absent; specified by `RecordInSpec` and `RecordInAllSequences` |
| ChannelBlocks.RecordInSpec | src/github.com/couchbase/sync_gateway/db/cache_kv_test.go:116-122 | Recording a sequence keeps every sequence in the block seq/10000, adds exactly that sequence to the present ones, creates only its own block and never shrinks or overwrites another block |
| ChannelBlocks.RecordInAllSequences | src/github.com/couchbase/sync_gateway/db/cache_kv_test.go:141-147 | Recording adds exactly that sequence to the union of a channel's blocks |
| ChannelBlocks.ScanBlock | src/github.com/couchbase/sync_gateway/db/cache_kv_test.go:87-97 | The sequences of one block above Since, by ascending offset; specified by `ScanBlockSpec` |
| ChannelBlocks.Walk | src/github.com/couchbase/sync_gateway/db/cache_kv_test.go:149-153 | The walk over a channel's blocks from a given block until the first missing one; specified by `WalkSpec` |
| ChannelBlocks.ScanBlockSpec | src/github.com/couchbase/sync_gateway/db/cache_kv_test.go:87-97 | Scanning one block yields, in ascending order, exactly its recorded sequences in range that are strictly above Since |
| ChannelBlocks.WalkSpec | src/github.com/couchbase/sync_gateway/db/cache_kv_test.go:149-153 | The walk from the block owning Since crosses block boundaries and yields, in ascending order, exactly the recorded sequences above Since that are reached without a missing block |
| ChannelBlocks.IncreasingUnique | src/github.com/couchbase/sync_gateway/db/cache_kv_test.go:88-93 | Two ascending lists with the same elements are equal, so an ascending query result is fixed by its elements |
| KvCaches.Targets | src/github.com/couchbase/sync_gateway/db/cache_kv_test.go:58-60 | The channels `AddToCache` writes to: the entry's own and the star channel; their recording is specified by `RecordAllRecorded`, `RecordAllContent` and `RecordAllKeys`, and the returned list by `KvCache.AddToCache` |
| KvCaches.RecordAll | src/github.com/couchbase/sync_gateway/db/cache_kv_test.go:84-85 | The channel blocks after recording a sequence in a set of channels; specified by `RecordAllRecorded`, `RecordAllContent` and `RecordAllKeys` |
| KvCaches.ListsExactlyLength | src/github.com/couchbase/sync_gateway/db/cache_kv_test.go:58-60 | A duplicate-free list naming each channel of a set once is as long as the set is large |
| KvCaches.RecordAllRecorded | src/github.com/couchbase/sync_gateway/db/cache_kv_test.go:58-60 | After recording in a set of channels, a channel holds a sequence if and only if it held it before or it is one of those channels and the sequence is the new one |
| KvCaches.RecordAllContent | src/github.com/couchbase/sync_gateway/db/cache_kv_test.go:84-85 | Recording in a set of channels adds the sequence to the content of exactly those channels and leaves every other channel's content as it was |
| KvCaches.RecordAllKeys | src/github.com/couchbase/sync_gateway/db/cache_kv_test.go:80-82 | Recording creates the block stores of the target channels and of no other channel |
| KvCaches.CacheBlock.HasSequence | src/github.com/couchbase/sync_gateway/db/cache_kv_test.go:76-77 | Whether a block holds a sequence; for a block read from the cache, `KvCache.ReadCacheBlockForSequence` states that it holds exactly the recorded sequences of its own range |
| KvCaches.KvCache.constructor | src/github.com/couchbase/sync_gateway/db/cache_kv_test.go:22-34 | A new cache over an empty bucket is consistent and holds no entry and no channel |
| KvCaches.KvCache.GetRaw | src/github.com/couchbase/sync_gateway/db/cache_kv_test.go:62-65 | The raw value under a key is present if and only if the key is stored, and in a consistent cache it is the entry whose own key that is |
| KvCaches.KvCache.GetCacheHelper | src/github.com/couchbase/sync_gateway/db/cache_kv_test.go:73-82 | The helper is nil if and only if the channel was never written; a sequence is recorded in the channel if and only if the block read for it through the helper has it |
| KvCaches.KvCache.ReadCacheBlockForSequence | src/github.com/couchbase/sync_gateway/db/cache_kv_test.go:73-82 | The block for a sequence, read from the cache now, is nil if and only if the helper is nil or the helper's channel has no block seq/10000; otherwise it is that block of that channel, and it has exactly the channel's recorded sequences of its own range |
| KvCaches.KvCache.ReadCacheEntry | src/github.com/couchbase/sync_gateway/db/cache_kv_test.go:67-71 | Reading sequence s succeeds if and only if its key is stored, and yields the stored entry, whose sequence is s |
| KvCaches.KvCache.ChangedSequences | src/github.com/couchbase/sync_gateway/db/cache_kv_test.go:87-97 | The sequences a changes query on a channel from a cursor yields; specified by `ChangedSequencesSpec`, `ChangesComplete` and `ChangesExactly` |
| KvCaches.KvCache.ChangedSequencesSpec | src/github.com/couchbase/sync_gateway/db/cache_kv_test.go:87-97 | A channel's changes since a cursor are ascending and are, both ways, its recorded sequences strictly above the cursor that the block walk reaches; a channel never written has none |
| KvCaches.KvCache.ChangesComplete | src/github.com/couchbase/sync_gateway/db/cache_kv_test.go:149-153 | With no missing block between the cursor and a recorded sequence above it, that sequence is in the changes |
| KvCaches.KvCache.ContentRecorded | src/github.com/couchbase/sync_gateway/db/cache_kv_test.go:73-77 | In a consistent cache a channel's content is exactly the set of sequences it reports as recorded |
| KvCaches.KvCache.ContentPresent | src/github.com/couchbase/sync_gateway/db/cache_kv_test.go:133-147 | A sequence is in a channel's content if and only if its own block exists and holds it |
| KvCaches.KvCache.ChangesExactly | src/github.com/couchbase/sync_gateway/db/cache_kv_test.go:87-97 | When the blocks from the cursor to the last recorded one all exist, the changes are the unique ascending list of the content strictly above the cursor |
| KvCaches.KvCache.RecordSequence | src/github.com/couchbase/sync_gateway/db/cache_kv_test.go:116-122 | Records a sequence in one channel (creating its block store on first use), keeps the cache consistent and changes nothing else |
| KvCaches.KvCache.PutEntry | src/github.com/couchbase/sync_gateway/db/cache_kv_test.go:62-65 | Stores the entry under `_cache:seq:<seq>`, keeps the cache consistent and leaves the channel blocks unchanged |
| KvCaches.KvCache.RecordInChannels | src/github.com/couchbase/sync_gateway/db/cache_kv_test.go:58-60 | Records the sequence in every given channel, one at a time in any order, and returns each of those channels exactly once; the store is unchanged |
| KvCaches.KvCache.AddToCache | src/github.com/couchbase/sync_gateway/db/cache_kv_test.go:58-60 | Stores the entry under its key and records it in its channels and the star channel; afterwards a channel holds a sequence if and only if it did before or it is one of those channels and the sequence is the entry's; the result lists exactly those channels, once each |
| KvCaches.KvCache.ReadBlockEntries | src/github.com/couchbase/sync_gateway/db/cache_kv_test.go:149-153 | Reads one block's entries above the cursor by ascending offset; they are the stored entries of the block scan's sequences, in order (loop with invariants) |
| KvCaches.KvCache.GetCachedChanges | src/github.com/couchbase/sync_gateway/db/cache_kv_test.go:87-97 | Returns the stored entries of the channel's changes since Since, in ascending sequence order: exactly the recorded sequences above Since that the walk reaches, each read back from its own key (loop over blocks with invariants) |
| KvCaches.KvCache.ResolvedInOrder | src/github.com/couchbase/sync_gateway/db/cache_kv_test.go:88-93 | Entries read back from the keys of a block walk carry the walk's sequences, in the walk's order |
| KvCaches.KvCache.GetChanges | src/github.com/couchbase/sync_gateway/db/cache_kv_test.go:99-106 | Yields the same sequences, as the same stored entries, as GetCachedChanges for the same channel and cursor |
| KvCacheScenarios.AddEntry | src/github.com/couchbase/sync_gateway/db/cache_kv_test.go:116-122 | channelEntry followed by AddToCache: the store gains exactly the new entry; the listed channels and the star channel, and no others, gain the sequence; n distinct names other than `*` give n+1 channels |
| KvCacheScenarios.AddFirstEntry | src/github.com/couchbase/sync_gateway/db/cache_kv_test.go:57-60 | Entry 1 on ABC and CBS is added to 3 channels; ABC holds {1}; NBC is never written |
| KvCacheScenarios.InspectFirstEntry | src/github.com/couchbase/sync_gateway/db/cache_kv_test.go:62-82 | `_cache:seq:1` is present; entry 1 reads back as 1 / foo1 / 1-a; ABC's block for 1 has 1 and not 2; NBC's block is nil |
| KvCacheScenarios.AddSecondEntry | src/github.com/couchbase/sync_gateway/db/cache_kv_test.go:84 | Entry 100 on ABC and CBS: ABC holds {1, 100}; entry 1 is untouched |
| KvCacheScenarios.AddThirdEntry | src/github.com/couchbase/sync_gateway/db/cache_kv_test.go:85 | Entry 500 on CBS only: ABC still holds {1, 100}; entry 1 is untouched |
| KvCacheScenarios.QueryFromZero | src/github.com/couchbase/sync_gateway/db/cache_kv_test.go:87-106 | The ABC query from 0 yields sequences [1, 100] (500 excluded), the first being stored entry 1; GetChanges yields the same entries |
| KvCacheScenarios.QueryFromFifty | src/github.com/couchbase/sync_gateway/db/cache_kv_test.go:95-97 | The ABC query from 50 yields [100] only |
| KvCacheScenarios.TestKvCache | src/github.com/couchbase/sync_gateway/db/cache_kv_test.go:52-108 | Every assertion of the basic scenario, on a fresh cache |
| KvCacheScenarios.SeqKeyExamples | src/github.com/couchbase/sync_gateway/db/cache_kv_test.go:125-131 | The keys of sequences 1, 10 and 10010 are `_cache:seq:1`, `_cache:seq:10` and `_cache:seq:10010` |
| KvCacheScenarios.AddOnAbc | src/github.com/couchbase/sync_gateway/db/cache_kv_test.go:116-122 | An entry on ABC alone is added to 2 channels and joins ABC's content |
| KvCacheScenarios.InspectTwoBlocks | src/github.com/couchbase/sync_gateway/db/cache_kv_test.go:124-138 | 10 and 10010 are stored; 10 is found in block 0 and 10010 in block 1, and neither block has the other |
| KvCacheScenarios.InspectBorder | src/github.com/couchbase/sync_gateway/db/cache_kv_test.go:140-147 | The border sequences 9999 and 10000 are found in blocks 0 and 1 |
| KvCacheScenarios.QueryTwoBlocks | src/github.com/couchbase/sync_gateway/db/cache_kv_test.go:149-153 | The query from 0 crosses into block 1 and yields the 4 sequences [10, 9999, 10000, 10010] |
| KvCacheScenarios.TestKvCacheMultiBlock | src/github.com/couchbase/sync_gateway/db/cache_kv_test.go:110-155 | Every assertion of the multi-block scenario, on a fresh cache |
| KvCacheScenarios.WriteDirect | src/github.com/couchbase/sync_gateway/db/cache_kv_test.go:174-175 | A one-revision document `doc-<seq>` at `1-a` reaches the cache on the given channels, which, with the star channel, are the only ones to gain the sequence |
| LogEntries.ChangeEntryOf | src/github.com/couchbase/sync_gateway/db/cache_kv_test.go:214-217 | The feed element of an entry: cursor at its sequence with no trigger or low sequence, its document, and one change naming its revision; `FeedIteration` states that every element sent is this element of a stored entry |
| KvCacheScenarios.Positions | src/github.com/couchbase/sync_gateway/db/cache_kv_test.go:226-227 | The cursor positions of the feed's elements, in order, which the test compares; `PositionsAppend` and `FeedIteration` state what they are |
| KvCacheScenarios.PositionsAppend | src/github.com/couchbase/sync_gateway/db/cache_kv_test.go:191-209 | The positions of an appended feed are the appended positions |
| KvCacheScenarios.FeedIteration | src/github.com/couchbase/sync_gateway/db/cache_kv_test.go:191-209 | One iteration of the continuous feed sends exactly the channel's changes after the cursor, in order, each as the feed element of its stored entry, and moves the cursor to the last one sent |
| KvCacheScenarios.WriteFirstTwo | src/github.com/couchbase/sync_gateway/db/cache_kv_test.go:173-175 | Documents 1 and 2 on ABC: ABC holds {1, 2}; entry 1 is doc-1 at 1-a |
| KvCacheScenarios.PollInitial | src/github.com/couchbase/sync_gateway/db/cache_kv_test.go:211-217 | The feed from 0 first sends 2 elements, at 1 and 2, the first being exactly {Seq 1, doc-1, [rev 1-a]} |
| KvCacheScenarios.WriteThird | src/github.com/couchbase/sync_gateway/db/cache_kv_test.go:220 | Document 3 on ABC joins ABC's content |
| KvCacheScenarios.WriteFourth | src/github.com/couchbase/sync_gateway/db/cache_kv_test.go:230 | Document 4 on NBC leaves ABC's content as it was |
| KvCacheScenarios.WriteFifth | src/github.com/couchbase/sync_gateway/db/cache_kv_test.go:238 | Document 5 on ABC joins ABC's content |
| KvCacheScenarios.ChangesAfterTwo | src/github.com/couchbase/sync_gateway/db/cache_kv_test.go:219-227 | With ABC holding {1, 2, 3}, ABC's changes after 2 are [3] |
| KvCacheScenarios.ChangesAfterThree | src/github.com/couchbase/sync_gateway/db/cache_kv_test.go:229-235 | With ABC holding {1, 2, 3}, ABC's changes after 3 are empty |
| KvCacheScenarios.ChangesAfterThreeLater | src/github.com/couchbase/sync_gateway/db/cache_kv_test.go:237-243 | With ABC holding {1, 2, 3, 5}, ABC's changes after 3 are [5] |
| KvCacheScenarios.PollAfterArrival | src/github.com/couchbase/sync_gateway/db/cache_kv_test.go:219-227 | The arrival of 3 on ABC reaches the feed: it has sent 1, 2, 3 |
| KvCacheScenarios.PollAfterOtherArrival | src/github.com/couchbase/sync_gateway/db/cache_kv_test.go:229-235 | The arrival of 4 on NBC sends nothing: the feed still has 1, 2, 3 |
| KvCacheScenarios.PollAfterLaterArrival | src/github.com/couchbase/sync_gateway/db/cache_kv_test.go:237-243 | The arrival of 5 on ABC reaches the feed: it has sent 1, 2, 3, 5 |
| KvCacheScenarios.TestDistributedNotify | src/github.com/couchbase/sync_gateway/db/cache_kv_test.go:156-246 | The channel-filtering outcome of the notify scenario: 2 initial elements, the first doc-1 at 1-a, then sequences 1, 2, 3, again 1, 2, 3, and finally 1, 2, 3, 5 |

## Left out

- Bucket connection and walrus setup (`ConnectToBucket`, `log.Fatal`, lines 22-34): the bucket is a map field of the cache, and a fresh cache starts empty. `Init`'s initial sequence is not modelled.
- `TimeReceived` (line 47): wall-clock time is not a field of the modelled entry.
- Serialized format of stored entries: a raw value is the entry itself, so "non-empty bytes" becomes "the key is present".
- The key format of channel blocks in the bucket: blocks live in a separate map field keyed by channel and block index.
- CAS-merged concurrent writes to a block, and retries: the model is sequential.
- Removal markers in a channel map are carried but not consulted. An entry is recorded in every channel of its map.
- KvCaches.KvCache.GetCachedChanges: its first result (the validity cursor) is not modelled, because the tests discard it.
- KvCaches.KvCache.GetChanges: its error result is not modelled. The tests discard it, and store failures are out of scope (next line).
- Store failures are not modelled. In the design, a storage error is propagated to the caller, and a channel whose block write fails is left out of the list `AddToCache` returns. In the model every store operation succeeds, so `AddToCache` always returns every target channel.
- ChangesOptions keeps only the Since cursor. `Limit` is not modelled, because the tests never set it, so a query never stops early at a limit. `Wait`, `Continuous` and `Terminator` (lines 184-186) belong to the feed, which is left out as described below.
- Arithmetic: sequences are `uint64` values, but block indexes and block starts are unbounded. Wrap-around near 2^64 is not modelled.
- The changes feed of the notify scenario is not modelled as a concurrent process: the goroutine reader, `time.Sleep`, `ByteCachePollingTime`, `waitForSequence`, the `Terminator` close and the nil marker sent after each iteration. It is modelled as a re-query of the cache from the feed's cursor after each write (`FeedIteration`).
- `WriteDirect`, `MultiChangesFeed` and `setupTestDBWithCacheOptions` are not part of this model. `WriteDirect` is modelled as `channelEntry` with document `doc-<seq>` at revision `1-a`, followed by `AddToCache`. `MultiChangesFeed` on one channel is modelled as that channel's query.
- Authenticator and user setup (lines 169-178): access control is not modelled. The feed follows ABC only.
- Logging (`base.LogKeys`, `log.Println`) is left out.
- KvCacheScenarios.TestDistributedNotify: the test compares the feed's sequences as strings. The model compares the numeric positions, whose decimal renderings are those strings.
