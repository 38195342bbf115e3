/**
 * The entries the cache stores and the options and results of a changes
 * query, with the test helper that builds an entry from a list of channel
 * names.
 */
module LogEntries {

  import opened Wrappers

  /** Go's uint64. */
  type Uint64 = x: int | 0 <= x < 0x1_0000_0000_0000_0000

  /** Marks the revision that removed a document from a channel. */
  datatype ChannelRemoval = ChannelRemoval(removedAt: Uint64, revId: string)

  /** Channel name to removal marker; `None` (Go's nil) means "not removed". */
  type ChannelMap = map<string, Option<ChannelRemoval>>

  /** One change of one document; the wall-clock TimeReceived is not modelled. */
  datatype LogEntry = LogEntry(sequence: Uint64, docId: string, revId: string, channels: ChannelMap)

  /** A changes-feed cursor. */
  datatype SequenceID = SequenceID(position: Uint64, triggeredBy: Uint64, lowSeq: Uint64)

  /** Query options, reduced to the Since cursor the cache queries of the tests use. */
  datatype ChangesOptions = ChangesOptions(since: SequenceID)

  /** One element of a changes feed: the cursor, the document and its revisions. */
  datatype ChangeEntry = ChangeEntry(cursor: SequenceID, id: string, changes: seq<map<string, string>>)

  /** The feed element for an entry: its cursor, document and revision. */
  function ChangeEntryOf(e: LogEntry): ChangeEntry
  {
    ChangeEntry(SequenceID(e.sequence, 0, 0), e.docId, [map["rev" := e.revId]])
  }

  /** The sequence numbers of a list of entries, in order. */
  function Sequences(es: seq<LogEntry>): (r: seq<nat>)
    ensures |r| == |es|
    ensures forall k :: 0 <= k < |es| ==> r[k] == es[k].sequence
  {
    seq(|es|, k requires 0 <= k < |es| => es[k].sequence as nat)
  }

  /**
   * Builds the entry for `sequence`, filling the channel map one name at a
   * time; every listed channel maps to nil.
   */
  method ChannelEntry(sequence: Uint64, docId: string, revId: string, channelNames: seq<string>)
    returns (e: LogEntry)
    ensures e.sequence == sequence && e.docId == docId && e.revId == revId
    ensures forall c :: c in e.channels <==> c in channelNames
    ensures forall c :: c in e.channels ==> e.channels[c] == None
  {
    var channelMap: ChannelMap := map[];
    for i := 0 to |channelNames|
      invariant forall c :: c in channelMap <==> c in channelNames[..i]
      invariant forall c :: c in channelMap ==> channelMap[c] == None
    {
      assert channelNames[..i + 1] == channelNames[..i] + [channelNames[i]];
      channelMap := channelMap[channelNames[i] := None];
    }
    assert channelNames[..|channelNames|] == channelNames;
    e := LogEntry(sequence, docId, revId, channelMap);
  }

}
