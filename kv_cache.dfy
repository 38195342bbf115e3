/**
 * The key-value channel cache: a raw-entry store keyed `_cache:seq:<seq>`
 * and, per channel, a block store of recorded sequences. Entries are added
 * to every channel they belong to plus the star channel, and queried per
 * channel in ascending sequence order.
 */
module KvCaches {

  import opened Wrappers
  import opened Decimal
  import opened LogEntries
  import opened ChannelBlocks

  /** The channel every entry is also added to. */
  const StarChannel: string := "*"

  const SeqKeyPrefix: string := "_cache:seq:"

  /** The store key of the raw entry for sequence `s`. */
  function SeqKey(s: nat): string
  {
    SeqKeyPrefix + DecimalString(s)
  }

  /** A store key is the prefix followed by the sequence's digits. */
  lemma SeqKeyFormat(s: nat)
    ensures |SeqKey(s)| > |SeqKeyPrefix| && SeqKey(s)[..|SeqKeyPrefix|] == SeqKeyPrefix
    ensures IsDigits(SeqKey(s)[|SeqKeyPrefix|..])
  {
    assert SeqKey(s)[|SeqKeyPrefix|..] == DecimalString(s);
  }

  /** Distinct sequences never share a store key. */
  lemma SeqKeyInjective(a: nat, b: nat)
    ensures SeqKey(a) == SeqKey(b) <==> a == b
  {
    if SeqKey(a) == SeqKey(b) {
      assert DecimalString(a) == SeqKey(a)[|SeqKeyPrefix|..];
      assert DecimalString(b) == SeqKey(b)[|SeqKeyPrefix|..];
      DecimalStringInjective(a, b);
    }
  }

  /** The channels an entry is added to: its own and the star channel. */
  function Targets(e: LogEntry): set<string>
  {
    e.channels.Keys + {StarChannel}
  }

  function BlocksOf(m: map<string, Blocks>, ch: string): Blocks
  {
    if ch in m then m[ch] else map[]
  }

  /** `xs` lists each element of `d` exactly once. */
  ghost predicate ListsExactly(xs: seq<string>, d: set<string>)
  {
    && (forall x :: x in xs <==> x in d)
    && (forall j, k :: 0 <= j < k < |xs| ==> xs[j] != xs[k])
  }

  lemma ListsExactlyAppend(xs: seq<string>, d: set<string>, x: string)
    requires ListsExactly(xs, d) && x !in d
    ensures ListsExactly(xs + [x], d + {x})
  {
  }

  /** A list that names each element of a set once is as long as the set is large. */
  lemma {:induction false} ListsExactlyLength(xs: seq<string>, d: set<string>)
    requires ListsExactly(xs, d)
    ensures |xs| == |d|
    decreases |xs|
  {
    if xs != [] {
      var last := xs[|xs| - 1];
      var init := xs[..|xs| - 1];
      assert xs == init + [last];
      assert last !in init;
      ListsExactlyLength(init, d - {last});
    } else {
      assert forall x :: x !in d;
    }
  }

  /** Channel `ch` of `m` has recorded `s`. */
  predicate RecordedIn(m: map<string, Blocks>, ch: string, s: nat)
  {
    ch in m && Present(m[ch], s)
  }

  /** The channel blocks after recording `s` in every channel of `targets`. */
  function RecordAll(m: map<string, Blocks>, targets: set<string>, s: nat): map<string, Blocks>
  {
    map ch | ch in m.Keys + targets :: if ch in targets then RecordIn(BlocksOf(m, ch), s) else m[ch]
  }

  /** Recording in one more channel updates just that channel. */
  lemma RecordAllStep(m: map<string, Blocks>, done: set<string>, ch: string, s: nat)
    requires ch !in done
    ensures BlocksOf(RecordAll(m, done, s), ch) == BlocksOf(m, ch)
    ensures RecordAll(m, done + {ch}, s) == RecordAll(m, done, s)[ch := RecordIn(BlocksOf(m, ch), s)]
  {
  }

  /**
   * After recording `s` in `targets`, a channel holds a sequence exactly
   * when it held it before or it is a target and the sequence is `s`.
   */
  lemma RecordAllRecorded(m: map<string, Blocks>, targets: set<string>, s: nat)
    ensures forall ch, t :: RecordedIn(RecordAll(m, targets, s), ch, t) <==>
      RecordedIn(m, ch, t) || (ch in targets && t == s)
  {
    forall ch, t ensures RecordedIn(RecordAll(m, targets, s), ch, t) <==>
      RecordedIn(m, ch, t) || (ch in targets && t == s)
    {
      if ch in targets {
        assert RecordAll(m, targets, s)[ch] == RecordIn(BlocksOf(m, ch), s);
        RecordInSpec(BlocksOf(m, ch), s);
      }
    }
  }

  /** Every sequence recorded in channel `ch` of `m`, across all its blocks. */
  ghost function ContentOf(m: map<string, Blocks>, ch: string): set<nat>
  {
    if ch in m then AllSequences(m[ch]) else {}
  }

  /** Recording creates the target channels that did not exist yet and no others. */
  lemma RecordAllKeys(m: map<string, Blocks>, targets: set<string>, s: nat)
    ensures RecordAll(m, targets, s).Keys == m.Keys + targets
  {
  }

  /** Recording `s` in `targets` adds `s` to the content of exactly those channels. */
  lemma RecordAllContent(m: map<string, Blocks>, targets: set<string>, s: nat)
    ensures forall ch :: (ContentOf(RecordAll(m, targets, s), ch) ==
      ContentOf(m, ch) + (if ch in targets then {s} else {}))
  {
    forall ch ensures ContentOf(RecordAll(m, targets, s), ch) == ContentOf(m, ch) + (if ch in targets then {s} else {}) {
      if ch in targets {
        RecordInAllSequences(BlocksOf(m, ch), s);
        assert RecordAll(m, targets, s)[ch] == RecordIn(BlocksOf(m, ch), s);
        if ch !in m {
          assert AllSequences(BlocksOf(m, ch)) == {};
        }
      } else if ch in m {
        assert RecordAll(m, targets, s)[ch] == m[ch];
      }
    }
  }

  /** The block of one channel that owns one range of sequences. */
  datatype CacheBlock = CacheBlock(channel: string, index: nat, present: set<nat>)
  {
    predicate HasSequence(s: nat)
    {
      s in present
    }
  }

  /**
   * A handle on one channel's block store. It holds no blocks of its own:
   * every block read through it is read from the cache at that moment, so
   * a helper held across a write sees that write.
   */
  datatype CacheHelper = CacheHelper(channel: string)

  class KvCache {

    /** The raw-entry store of the bucket: key to stored entry. */
    var bucket: map<string, LogEntry>
    /** Channel name to its blocks; a channel never written has no entry. */
    var channelBlocks: map<string, Blocks>

    ghost predicate Valid()
      reads this
    {
      && (forall k :: k in bucket ==> k == SeqKey(bucket[k].sequence))
      && (forall ch :: ch in channelBlocks ==> WellFormed(channelBlocks[ch]))
      && (forall ch, i, s :: ch in channelBlocks && i in channelBlocks[ch] && s in channelBlocks[ch][i] ==>
            SeqKey(s) in bucket)
    }

    /** A fresh cache over an empty bucket. */
    constructor ()
      ensures Valid()
      ensures bucket == map[] && channelBlocks == map[]
    {
      bucket := map[];
      channelBlocks := map[];
    }

    /** The raw value under `key`, nil when absent; a stored value sits under its own key. */
    function GetRaw(key: string): (r: Option<LogEntry>)
      reads this
      ensures r.Some? <==> key in bucket
      ensures Valid() && r.Some? ==> key == SeqKey(r.value.sequence)
    {
      if key in bucket then Some(bucket[key]) else None
    }

    /** Channel `ch` has recorded sequence `s`. */
    predicate Recorded(ch: string, s: nat)
      reads this
    {
      RecordedIn(channelBlocks, ch, s)
    }

    /** The channel's block store, nil when the channel was never written. */
    function GetCacheHelper(ch: string): (h: Option<CacheHelper>)
      reads this
      requires Valid()
      ensures h.Some? <==> ch in channelBlocks
      ensures h.Some? ==> h.value.channel == ch
      ensures forall s :: Recorded(ch, s) <==>
        var b := ReadCacheBlockForSequence(h, s); b.Some? && b.value.HasSequence(s)
    {
      if ch in channelBlocks then Some(CacheHelper(ch)) else None
    }

    /**
     * The block that owns `s`, read now from the helper's channel: nil when
     * the helper is nil or the block was never written. A block answers
     * HasSequence for exactly the recorded sequences of its own range.
     */
    function ReadCacheBlockForSequence(h: Option<CacheHelper>, s: nat): (r: Option<CacheBlock>)
      reads this
      requires Valid()
      ensures r.Some? <==> h.Some? && h.value.channel in channelBlocks && BlockIndex(s) in channelBlocks[h.value.channel]
      ensures r.Some? ==> r.value.channel == h.value.channel && r.value.index == BlockIndex(s)
      ensures r.Some? ==> forall t :: r.value.HasSequence(t) <==>
        Recorded(h.value.channel, t) && BlockIndex(t) == BlockIndex(s)
    {
      match h
      case None => None
      case Some(helper) =>
        var i := BlockIndex(s);
        if helper.channel in channelBlocks && i in channelBlocks[helper.channel] then
          Some(CacheBlock(helper.channel, i, channelBlocks[helper.channel][i]))
        else None
    }

    /** The stored entry for `s`, read back from its key; nil when absent. */
    function ReadCacheEntry(s: nat): (r: Option<LogEntry>)
      reads this
      requires Valid()
      ensures r.Some? <==> SeqKey(s) in bucket
      ensures r.Some? ==> r.value.sequence == s && r.value == bucket[SeqKey(s)]
    {
      if SeqKey(s) in bucket then
        SeqKeyInjective(s, bucket[SeqKey(s)].sequence);
        Some(bucket[SeqKey(s)])
      else None
    }

    /** The sequences a changes query on `ch` from `since` yields. */
    function ChangedSequences(ch: string, since: nat): seq<nat>
      reads this
    {
      if ch in channelBlocks then Walk(channelBlocks[ch], BlockIndex(since), since) else []
    }

    /** Every block of `ch` from the one owning `since` to the one owning `s` exists. */
    ghost predicate Reached(ch: string, since: nat, s: nat)
      reads this
    {
      ch in channelBlocks && Contiguous(channelBlocks[ch], BlockIndex(since), BlockIndex(s))
    }

    /**
     * A channel's changes since `since` are ascending and are exactly its
     * recorded sequences above `since` that the block walk reaches; a channel
     * never written has none.
     */
    lemma ChangedSequencesSpec(ch: string, since: nat)
      requires Valid()
      ensures Increasing(ChangedSequences(ch, since))
      ensures forall s :: s in ChangedSequences(ch, since) <==> s > since && Recorded(ch, s) && Reached(ch, since, s)
    {
      if ch in channelBlocks {
        WalkSpec(channelBlocks[ch], BlockIndex(since), since);
      }
    }

    /** With no missing block between the cursor and the last recorded one, nothing recorded is skipped. */
    lemma ChangesComplete(ch: string, since: nat, s: nat)
      requires Valid() && Recorded(ch, s) && s > since
      requires forall k :: BlockIndex(since) <= k <= BlockIndex(s) ==> k in channelBlocks[ch]
      ensures s in ChangedSequences(ch, since)
    {
      ChangedSequencesSpec(ch, since);
    }

    /** Every sequence channel `ch` has recorded, across all its blocks. */
    ghost function Content(ch: string): set<nat>
      reads this
    {
      ContentOf(channelBlocks, ch)
    }

    /** In a consistent cache a channel's content is exactly what it has recorded. */
    lemma ContentRecorded(ch: string)
      requires Valid()
      ensures forall s :: s in Content(ch) <==> Recorded(ch, s)
    {
      forall s | s in Content(ch) ensures Recorded(ch, s) {
        var i :| i in channelBlocks[ch] && s in channelBlocks[ch][i];
      }
    }

    /** A sequence in a channel's content sits in its own block of that channel. */
    lemma ContentPresent(ch: string, s: nat)
      requires Valid() && ch in channelBlocks
      ensures s in Content(ch) <==> Present(channelBlocks[ch], s)
    {
      if s in Content(ch) {
        var i :| i in channelBlocks[ch] && s in channelBlocks[ch][i];
      }
    }

    /**
     * When every block from the one owning `since` up to `top` exists and no
     * recorded sequence lies beyond block `top`, the query yields exactly the
     * channel's content above `since`, in ascending order.
     */
    lemma ChangesExactly(ch: string, since: nat, top: nat, expected: seq<nat>)
      requires Valid() && ch in channelBlocks && Increasing(expected)
      requires forall s :: s in expected <==> s in Content(ch) && s > since
      requires forall k :: BlockIndex(since) <= k <= top ==> k in channelBlocks[ch]
      requires forall s :: s in Content(ch) ==> BlockIndex(s) <= top
      ensures ChangedSequences(ch, since) == expected
    {
      ContentRecorded(ch);
      ChangedSequencesSpec(ch, since);
      forall s | s in expected ensures s in ChangedSequences(ch, since) {
        assert Contiguous(channelBlocks[ch], BlockIndex(since), BlockIndex(s));
      }
      IncreasingUnique(ChangedSequences(ch, since), expected);
    }

    /** `results` are the stored entries under the keys of `got`, in order. */
    ghost predicate Resolves(got: seq<nat>, results: seq<LogEntry>)
      reads this
    {
      |results| == |got| &&
      forall k :: 0 <= k < |got| ==> SeqKey(got[k]) in bucket && results[k] == bucket[SeqKey(got[k])]
    }

    /**
     * Every sequence of a block of a consistent cache has its entry stored
     * (the loop of GetCachedChanges takes this as a fact of its own).
     */
    lemma BlockStored(ch: string, i: nat)
      requires Valid() && ch in channelBlocks && i in channelBlocks[ch]
      ensures forall s :: s in channelBlocks[ch][i] ==> SeqKey(s) in bucket
    {
    }

    /** Regrouping of the loop's concatenations, as a fact of its own. */
    lemma AppendAssociative(a: seq<nat>, b: seq<nat>, c: seq<nat>)
      ensures (a + b) + c == a + (b + c)
    {
    }

    lemma ResolvesConcat(g1: seq<nat>, r1: seq<LogEntry>, g2: seq<nat>, r2: seq<LogEntry>)
      requires Resolves(g1, r1) && Resolves(g2, r2)
      ensures Resolves(g1 + g2, r1 + r2)
    {
      forall k | |g1| <= k < |g1| + |g2|
        ensures (g1 + g2)[k] == g2[k - |g1|] && (r1 + r2)[k] == r2[k - |g1|]
      {
      }
    }

    /** Records `s` in channel `ch`, creating the channel's block store on first use. */
    method RecordSequence(ch: string, s: nat)
      requires Valid() && SeqKey(s) in bucket
      modifies this
      ensures Valid()
      ensures bucket == old(bucket)
      ensures channelBlocks == old(channelBlocks)[ch := RecordIn(BlocksOf(old(channelBlocks), ch), s)]
    {
      var blocks := BlocksOf(channelBlocks, ch);
      RecordInSpec(blocks, s);
      channelBlocks := channelBlocks[ch := RecordIn(blocks, s)];
    }

    /** Writes `e` to the raw-entry store under its own key. */
    method PutEntry(e: LogEntry)
      requires Valid()
      modifies this
      ensures Valid()
      ensures bucket == old(bucket)[SeqKey(e.sequence) := e]
      ensures channelBlocks == old(channelBlocks)
    {
      bucket := bucket[SeqKey(e.sequence) := e];
      forall k | k in bucket ensures k == SeqKey(bucket[k].sequence) {
        if k != SeqKey(e.sequence) {
          assert bucket[k] == old(bucket)[k];
        }
      }
    }

    /** Records `s` in every channel of `channels`, one at a time, in any order. */
    method RecordInChannels(channels: set<string>, s: nat) returns (addedTo: seq<string>)
      requires Valid() && SeqKey(s) in bucket
      modifies this
      ensures Valid()
      ensures bucket == old(bucket)
      ensures channelBlocks == RecordAll(old(channelBlocks), channels, s)
      ensures ListsExactly(addedTo, channels)
      ensures |addedTo| == |channels|
    {
      ghost var blocks0 := channelBlocks;
      ghost var done: set<string> := {};
      addedTo := [];
      var remaining := channels;
      assert RecordAll(blocks0, {}, s) == blocks0;
      while remaining != {}
        invariant Valid() && SeqKey(s) in bucket
        invariant bucket == old(bucket)
        invariant done + remaining == channels && done !! remaining
        invariant channelBlocks == RecordAll(blocks0, done, s)
        invariant ListsExactly(addedTo, done)
        decreases remaining
      {
        var ch :| ch in remaining;
        RecordAllStep(blocks0, done, ch, s);
        RecordSequence(ch, s);
        ListsExactlyAppend(addedTo, done, ch);
        addedTo := addedTo + [ch];
        remaining := remaining - {ch};
        done := done + {ch};
      }
      assert done == channels;
      ListsExactlyLength(addedTo, channels);
    }

    /**
     * Stores `e` under its key, records its sequence in each of its channels
     * and in the star channel, and returns the channels updated.
     */
    method AddToCache(e: LogEntry) returns (addedTo: seq<string>)
      requires Valid()
      modifies this
      ensures Valid()
      ensures bucket == old(bucket)[SeqKey(e.sequence) := e]
      ensures channelBlocks == RecordAll(old(channelBlocks), Targets(e), e.sequence)
      ensures forall ch, t :: Recorded(ch, t) <==> old(Recorded(ch, t)) || (ch in Targets(e) && t == e.sequence)
      ensures forall ch :: ch in addedTo <==> ch in Targets(e)
      ensures forall j, k :: 0 <= j < k < |addedTo| ==> addedTo[j] != addedTo[k]
      ensures |addedTo| == |Targets(e)|
    {
      ghost var blocks0 := channelBlocks;
      PutEntry(e);
      addedTo := RecordInChannels(e.channels.Keys, e.sequence);
      if StarChannel !in e.channels {
        RecordAllStep(blocks0, e.channels.Keys, StarChannel, e.sequence);
        RecordSequence(StarChannel, e.sequence);
        ListsExactlyAppend(addedTo, e.channels.Keys, StarChannel);
        addedTo := addedTo + [StarChannel];
      } else {
        assert Targets(e) == e.channels.Keys;
      }
      ListsExactlyLength(addedTo, Targets(e));
      RecordAllRecorded(blocks0, Targets(e), e.sequence);
    }

    /** The entries recorded in one block above `since`, read from the store by ascending offset. */
    method ReadBlockEntries(present: set<nat>, start: nat, since: nat) returns (found: seq<LogEntry>)
      requires forall s :: s in present ==> SeqKey(s) in bucket
      ensures Resolves(ScanBlock(present, start, start + BlockSize, since), found)
    {
      ghost var got: seq<nat> := [];
      found := [];
      for off := 0 to BlockSize
        invariant got == ScanBlock(present, start, start + off, since)
        invariant forall k :: 0 <= k < |got| ==> got[k] in present
        invariant Resolves(got, found)
      {
        var s := start + off;
        if s in present && s > since {
          found := found + [bucket[SeqKey(s)]];
          got := got + [s];
        }
      }
    }

    /**
     * The entries of `ch` after the Since cursor, in ascending order: walks
     * the channel's blocks from the one owning the cursor, block by block,
     * until a block is missing, and reads each entry from the store.
     */
    method GetCachedChanges(ch: string, options: ChangesOptions) returns (results: seq<LogEntry>)
      requires Valid()
      ensures Sequences(results) == ChangedSequences(ch, options.since.position)
      ensures Increasing(Sequences(results))
      ensures forall s :: s in Sequences(results) <==>
        s > options.since.position && Recorded(ch, s) && Reached(ch, options.since.position, s)
      ensures forall k :: 0 <= k < |results| ==> ReadCacheEntry(results[k].sequence) == Some(results[k])
    {
      var since: nat := options.since.position;
      results := [];
      if ch !in channelBlocks {
        return;
      }
      var blocks := channelBlocks[ch];
      var i := BlockIndex(since);
      ghost var target := Walk(blocks, i, since);
      ghost var got: seq<nat> := [];
      while i in blocks
        invariant got + Walk(blocks, i, since) == target
        invariant Resolves(got, results)
        decreases set k | k in blocks && k >= i
      {
        assert i in (set k | k in blocks && k >= i) - (set k | k in blocks && k >= i + 1);
        var start := BlockStart(i);
        assert BlockStart(i + 1) == start + BlockSize;
        ghost var scan := ScanBlock(blocks[i], start, start + BlockSize, since);
        ghost var rest := Walk(blocks, i + 1, since);
        assert Walk(blocks, i, since) == scan + rest;
        AppendAssociative(got, scan, rest);
        BlockStored(ch, i);
        var found := ReadBlockEntries(blocks[i], start, since);
        ResolvesConcat(got, results, scan, found);
        results := results + found;
        got := got + scan;
        i := i + 1;
      }
      ResolvedInOrder(ch, since, got, results);
    }

    /** Entries read back from the keys of a channel walk carry the walk's sequences. */
    lemma ResolvedInOrder(ch: string, since: nat, got: seq<nat>, results: seq<LogEntry>)
      requires Valid() && ch in channelBlocks
      requires got == Walk(channelBlocks[ch], BlockIndex(since), since)
      requires Resolves(got, results)
      ensures Sequences(results) == ChangedSequences(ch, since)
      ensures Increasing(Sequences(results))
      ensures forall s :: s in Sequences(results) <==> s > since && Recorded(ch, s) && Reached(ch, since, s)
      ensures forall k :: 0 <= k < |results| ==> ReadCacheEntry(results[k].sequence) == Some(results[k])
    {
      forall k | 0 <= k < |results| ensures results[k].sequence == got[k] {
        SeqKeyInjective(got[k], results[k].sequence);
      }
      assert Sequences(results) == got;
      ChangedSequencesSpec(ch, since);
    }

    /** The same query as GetCachedChanges, as the entry point of a changes feed. */
    method GetChanges(ch: string, options: ChangesOptions) returns (results: seq<LogEntry>)
      requires Valid()
      ensures Sequences(results) == ChangedSequences(ch, options.since.position)
      ensures forall k :: 0 <= k < |results| ==> ReadCacheEntry(results[k].sequence) == Some(results[k])
    {
      results := GetCachedChanges(ch, options);
    }
  }

}
