/**
 * The per-channel block store: the sequence space cut into blocks of
 * BlockSize sequences, each block holding the set of sequences recorded for
 * the channel in its range, and the ordered walk over blocks that answers
 * "what changed since".
 */
module ChannelBlocks {

  /** Default cache block size. */
  const BlockSize: nat := 10000

  function BlockIndex(s: nat): nat
  {
    s / BlockSize
  }

  function BlockStart(i: nat): nat
  {
    i * BlockSize
  }

  /** Block index to the sequences recorded in that block. */
  type Blocks = map<nat, set<nat>>

  /** Every recorded sequence sits in the block that owns it. */
  ghost predicate WellFormed(b: Blocks)
  {
    forall i, s :: i in b && s in b[i] ==> BlockIndex(s) == i
  }

  /** `s` is recorded: its own block exists and holds it. */
  predicate Present(b: Blocks, s: nat)
  {
    BlockIndex(s) in b && s in b[BlockIndex(s)]
  }

  /** Blocks `i` through `j` all exist. */
  ghost predicate Contiguous(b: Blocks, i: nat, j: nat)
  {
    forall k :: i <= k <= j ==> k in b
  }

  predicate Increasing(xs: seq<nat>)
  {
    forall j, k :: 0 <= j < k < |xs| ==> xs[j] < xs[k]
  }

  /**
   * Records `s`: creates its block when absent, otherwise adds `s` to the
   * block's set; no other block changes and nothing is ever removed.
   */
  function RecordIn(b: Blocks, s: nat): Blocks
  {
    var i := BlockIndex(s);
    b[i := (if i in b then b[i] else {}) + {s}]
  }

  /**
   * Recording keeps blocks well formed, adds exactly `s` to the recorded
   * sequences, and only ever grows blocks (a union, never an overwrite).
   */
  lemma RecordInSpec(b: Blocks, s: nat)
    ensures WellFormed(b) ==> WellFormed(RecordIn(b, s))
    ensures forall t :: Present(RecordIn(b, s), t) <==> Present(b, t) || t == s
    ensures RecordIn(b, s).Keys == b.Keys + {BlockIndex(s)}
    ensures forall i :: i in b ==> b[i] <= RecordIn(b, s)[i]
    ensures forall i :: i in b && i != BlockIndex(s) ==> RecordIn(b, s)[i] == b[i]
  {
  }

  /** The union of all blocks. */
  ghost function AllSequences(b: Blocks): set<nat>
  {
    set i, s | i in b && s in b[i] :: s
  }

  /** Recording adds exactly `s` to the union of the blocks. */
  lemma RecordInAllSequences(b: Blocks, s: nat)
    ensures AllSequences(RecordIn(b, s)) == AllSequences(b) + {s}
  {
    var r := RecordIn(b, s);
    assert s in r[BlockIndex(s)];
    forall x | x in AllSequences(r) ensures x in AllSequences(b) + {s} {
      var i :| i in r && x in r[i];
      if x != s {
        assert i in b && x in b[i];
      }
    }
    forall x | x in AllSequences(b) ensures x in AllSequences(r) {
      var i :| i in b && x in b[i];
      assert x in r[i];
    }
  }

  /** The recorded sequences in `[lo, hi)` above `since`, by ascending offset. */
  function ScanBlock(p: set<nat>, lo: nat, hi: nat, since: nat): seq<nat>
    decreases hi - lo
  {
    if hi <= lo then []
    else ScanBlock(p, lo, hi - 1, since) + (if hi - 1 in p && hi - 1 > since then [hi - 1] else [])
  }

  /**
   * Walks blocks `i`, `i+1`, ... collecting the sequences above `since`;
   * stops at the first block that does not exist.
   */
  function Walk(b: Blocks, i: nat, since: nat): seq<nat>
    decreases set k | k in b && k >= i
  {
    if i !in b then []
    else
      assert i in (set k | k in b && k >= i) - (set k | k in b && k >= i + 1);
      ScanBlock(b[i], BlockStart(i), BlockStart(i + 1), since) + Walk(b, i + 1, since)
  }

  lemma IncreasingConcat(a: seq<nat>, c: seq<nat>)
    requires Increasing(a) && Increasing(c)
    requires forall x, y :: x in a && y in c ==> x < y
    ensures Increasing(a + c)
  {
    forall j, k | 0 <= j < k < |a + c| ensures (a + c)[j] < (a + c)[k] {
      if k >= |a| && j < |a| {
        assert (a + c)[j] in a && (a + c)[k] in c;
      }
    }
  }

  /** A block scan is ascending and holds exactly the recorded sequences above `since` in range. */
  lemma {:induction false} ScanBlockSpec(p: set<nat>, lo: nat, hi: nat, since: nat)
    ensures Increasing(ScanBlock(p, lo, hi, since))
    ensures forall x :: x in ScanBlock(p, lo, hi, since) <==> lo <= x < hi && x in p && x > since
    decreases hi - lo
  {
    if lo < hi {
      ScanBlockSpec(p, lo, hi - 1, since);
      var last: seq<nat> := if hi - 1 in p && hi - 1 > since then [hi - 1] else [];
      IncreasingConcat(ScanBlock(p, lo, hi - 1, since), last);
    }
  }

  /**
   * The walk from block `i` is ascending and yields exactly the recorded
   * sequences above `since` whose block is reached from `i` without a gap.
   */
  lemma {:induction false} WalkSpec(b: Blocks, i: nat, since: nat)
    requires WellFormed(b)
    ensures Increasing(Walk(b, i, since))
    ensures forall x :: x in Walk(b, i, since) <==>
      x > since && Present(b, x) && i <= BlockIndex(x) && Contiguous(b, i, BlockIndex(x))
    decreases set k | k in b && k >= i
  {
    if i in b {
      assert i in (set k | k in b && k >= i) - (set k | k in b && k >= i + 1);
      var head := ScanBlock(b[i], BlockStart(i), BlockStart(i + 1), since);
      var rest := Walk(b, i + 1, since);
      ScanBlockSpec(b[i], BlockStart(i), BlockStart(i + 1), since);
      WalkSpec(b, i + 1, since);
      forall x | x in head ensures Present(b, x) && BlockIndex(x) == i {
      }
      forall x | x in rest ensures x >= BlockStart(i + 1) {
      }
      IncreasingConcat(head, rest);
      forall x ensures x in Walk(b, i, since) <==>
        x > since && Present(b, x) && i <= BlockIndex(x) && Contiguous(b, i, BlockIndex(x))
      {
        if x > since && Present(b, x) && i <= BlockIndex(x) && Contiguous(b, i, BlockIndex(x)) {
          if BlockIndex(x) == i {
            assert x in head;
          } else {
            assert Contiguous(b, i + 1, BlockIndex(x));
            assert x in rest;
          }
        }
      }
    }
  }

  /** Two ascending lists with the same elements are the same list. */
  lemma {:induction false} IncreasingUnique(a: seq<nat>, c: seq<nat>)
    requires Increasing(a) && Increasing(c)
    requires forall x :: x in a <==> x in c
    ensures a == c
    decreases |a|
  {
    assert a != [] ==> a[0] in c;
    assert c != [] ==> c[0] in a;
    if a != [] {
      assert c != [];
      assert a[0] == c[0];
      forall x ensures x in a[1..] <==> x in c[1..] {
        if x in a[1..] {
          assert x in c && x != c[0];
        }
        if x in c[1..] {
          assert x in a && x != a[0];
        }
      }
      IncreasingUnique(a[1..], c[1..]);
      assert a == [a[0]] + a[1..] && c == [c[0]] + c[1..];
    }
  }

}
