/** BlockReceptionTracker: the latest reception record per block id, a
    chronological history capped at 10 000 entries, a received-count counter and
    an exponentially smoothed average of the processing time.

    The mutex around every operation is modelled by making each method one
    atomic step.  The node id and the IP address of a record are opaque text:
    the callers in the listener head pass strings for both. */
module ReceptionTracking {
  import opened Common

  const MaxHistorySize: nat := 10000
  /** The smoothing coefficient of update_stats. */
  const Alpha: real := 0.1

  datatype ReceptionStats = ReceptionStats(
    blockId: BlockId,
    sourceNode: string,
    receivedAt: int,
    messageSize: nat,
    sourceAddr: string,
    processingTime: real)

  /** BlockReceptionStats{}: a default block id, zero time and size, empty node and address. */
  const DefaultStats: ReceptionStats := ReceptionStats(DefaultBlockId, "", 0, 0, "", 0.0)

  /** The tracker's whole state as a value. */
  datatype TrackerState = TrackerState(
    recentBlocks: map<BlockId, ReceptionStats>,
    history: seq<ReceptionStats>,
    blocksReceived: nat,
    avgProcessingTime: real)

  const EmptyTracker: TrackerState := TrackerState(map[], [], 0, 0.0)

  function Smooth(avg: real, sample: real): real
  {
    Alpha * sample + (1.0 - Alpha) * avg
  }

  /** One track_block_received: index the record, append it, count it, fold its
      processing time into the average, then drop the oldest history entry if
      the history has grown past the cap.  The index is left alone by the drop. */
  function Track(st: TrackerState, s: ReceptionStats): TrackerState
  {
    var h := st.history + [s];
    TrackerState(
      st.recentBlocks[s.blockId := s],
      if |h| > MaxHistorySize then h[1..] else h,
      st.blocksReceived + 1,
      Smooth(st.avgProcessingTime, s.processingTime))
  }

  /** get_block_stats: the indexed record, or the default-constructed one. */
  function Lookup(st: TrackerState, id: BlockId): ReceptionStats
  {
    if id in st.recentBlocks then st.recentBlocks[id] else DefaultStats
  }

  /** A run of track calls, oldest first. */
  function TrackAll(st: TrackerState, recs: seq<ReceptionStats>): TrackerState
    decreases |recs|
  {
    if recs == [] then st else Track(TrackAll(st, recs[..|recs| - 1]), recs[|recs| - 1])
  }

  /** The history entries clear_old_blocks keeps, in their order. */
  function Kept(h: seq<ReceptionStats>, olderThan: int): seq<ReceptionStats>
    decreases |h|
  {
    if h == [] then []
    else Kept(h[..|h| - 1], olderThan) + (if h[|h| - 1].receivedAt >= olderThan then [h[|h| - 1]] else [])
  }

  /** The index keys clear_old_blocks erases: the ids of the entries it drops. */
  function EvictedIds(h: seq<ReceptionStats>, olderThan: int): set<BlockId>
    decreases |h|
  {
    if h == [] then {}
    else EvictedIds(h[..|h| - 1], olderThan) + (if h[|h| - 1].receivedAt < olderThan then {h[|h| - 1].blockId} else {})
  }

  function ClearOld(st: TrackerState, olderThan: int): TrackerState
  {
    TrackerState(st.recentBlocks - EvictedIds(st.history, olderThan), Kept(st.history, olderThan),
                 st.blocksReceived, st.avgProcessingTime)
  }

  /** get_recent_blocks_stats: the `limit` newest history entries, newest first. */
  function NewestFirst(h: seq<ReceptionStats>, limit: int): seq<ReceptionStats>
  {
    var n := if limit <= 0 then 0 else if limit < |h| then limit else |h|;
    Reverse(h)[..n]
  }

  /** The query returns min(limit, size) entries (none for a non-positive
      limit), the i-th being the i-th newest. */
  lemma NewestFirstSpec(h: seq<ReceptionStats>, limit: int)
    ensures |NewestFirst(h, limit)| == if limit <= 0 then 0 else if limit < |h| then limit else |h|
    ensures forall i :: 0 <= i < |NewestFirst(h, limit)| ==> NewestFirst(h, limit)[i] == h[|h| - 1 - i]
    ensures limit >= |h| ==> NewestFirst(h, limit) == Reverse(h)
  {
    forall i | 0 <= i < |NewestFirst(h, limit)|
      ensures NewestFirst(h, limit)[i] == h[|h| - 1 - i]
    {
      ReverseAt(h, i);
    }
  }

  // ----- properties of one track call

  /** The history bound is kept, the counter rises by exactly one, and the
      record just tracked is what a lookup of its id answers, whatever was there before. */
  lemma TrackStep(st: TrackerState, s: ReceptionStats)
    ensures |st.history| <= MaxHistorySize ==> |Track(st, s).history| <= MaxHistorySize
    ensures Track(st, s).blocksReceived == st.blocksReceived + 1
    ensures Lookup(Track(st, s), s.blockId) == s
    ensures forall id :: id != s.blockId ==> Lookup(Track(st, s), id) == Lookup(st, id)
    ensures Track(st, s).history[|Track(st, s).history| - 1] == s
  {
  }

  /** Capacity eviction drops only the oldest history entry and never touches
      the index: the evicted record can still be looked up. */
  lemma EvictionSparesIndex(st: TrackerState, s: ReceptionStats)
    requires |st.history| == MaxHistorySize
    ensures Track(st, s).history == st.history[1..] + [s]
    ensures Track(st, s).recentBlocks.Keys == st.recentBlocks.Keys + {s.blockId}
    ensures var old0 := st.history[0];
            old0.blockId != s.blockId ==> Lookup(Track(st, s), old0.blockId) == Lookup(st, old0.blockId)
  {
    var h := st.history + [s];
    assert h[1..] == st.history[1..] + [s];
  }

  /** Exponential smoothing: each record moves the average a tenth of the way
      to its processing time; on a fresh tracker one record gives a tenth of it. */
  lemma TrackSmoothsAverage(st: TrackerState, s: ReceptionStats)
    ensures Track(st, s).avgProcessingTime == 0.1 * s.processingTime + 0.9 * st.avgProcessingTime
    ensures Track(EmptyTracker, s).avgProcessingTime == 0.1 * s.processingTime
  {
  }

  // ----- properties of runs of track calls

  /** Over any run the counter rises by the number of calls and the history stays capped. */
  lemma {:induction false} TrackAllCounts(st: TrackerState, recs: seq<ReceptionStats>)
    ensures TrackAll(st, recs).blocksReceived == st.blocksReceived + |recs|
    ensures |st.history| <= MaxHistorySize ==> |TrackAll(st, recs).history| <= MaxHistorySize
    decreases |recs|
  {
    if recs != [] {
      TrackAllCounts(st, recs[..|recs| - 1]);
    }
  }

  /** An id that no call of the run carried is answered with the default record. */
  lemma {:induction false} LookupNeverTracked(recs: seq<ReceptionStats>, id: BlockId)
    requires forall i :: 0 <= i < |recs| ==> recs[i].blockId != id
    ensures Lookup(TrackAll(EmptyTracker, recs), id) == DefaultStats
    decreases |recs|
  {
    if recs != [] {
      LookupNeverTracked(recs[..|recs| - 1], id);
    }
  }

  ghost predicate DistinctIds(recs: seq<ReceptionStats>)
  {
    forall i, j :: 0 <= i < j < |recs| ==> recs[i].blockId != recs[j].blockId
  }

  /** With pairwise distinct ids the index holds one entry per call: it grows
      without bound while the history stays capped. */
  lemma {:induction false} IndexGrowsWithDistinctIds(recs: seq<ReceptionStats>)
    requires DistinctIds(recs)
    ensures |TrackAll(EmptyTracker, recs).recentBlocks| == |recs|
    ensures forall i :: 0 <= i < |recs| ==> recs[i].blockId in TrackAll(EmptyTracker, recs).recentBlocks
    decreases |recs|
  {
    if recs != [] {
      var init := recs[..|recs| - 1];
      assert DistinctIds(init);
      IndexGrowsWithDistinctIds(init);
      var prev := TrackAll(EmptyTracker, init);
      var last := recs[|recs| - 1];
      if last.blockId in prev.recentBlocks {
        LookupIsTracked(init, last.blockId);
        assert false;
      }
      assert TrackAll(EmptyTracker, recs).recentBlocks.Keys == prev.recentBlocks.Keys + {last.blockId};
    }
  }

  /** Every index key of a run from an empty tracker was carried by some call. */
  lemma {:induction false} LookupIsTracked(recs: seq<ReceptionStats>, id: BlockId)
    requires id in TrackAll(EmptyTracker, recs).recentBlocks
    ensures exists j :: 0 <= j < |recs| && recs[j].blockId == id
    decreases |recs|
  {
    var last := recs[|recs| - 1];
    if last.blockId != id {
      LookupIsTracked(recs[..|recs| - 1], id);
      var j :| 0 <= j < |recs| - 1 && recs[..|recs| - 1][j].blockId == id;
      assert recs[j].blockId == id;
    }
  }

  /** 10 001 distinct blocks leave 10 001 index entries next to a 10 000-entry history. */
  lemma IndexExceedsCap(recs: seq<ReceptionStats>)
    requires DistinctIds(recs) && |recs| == MaxHistorySize + 1
    ensures |TrackAll(EmptyTracker, recs).recentBlocks| > MaxHistorySize
    ensures |TrackAll(EmptyTracker, recs).history| <= MaxHistorySize
  {
    IndexGrowsWithDistinctIds(recs);
    TrackAllCounts(EmptyTracker, recs);
  }

  // ----- a capped index: what the history bound evidently intends

  function Ids(h: seq<ReceptionStats>): set<BlockId>
  {
    set i | 0 <= i < |h| :: h[i].blockId
  }

  /** Track, except that the eviction also erases the evicted id from the index
      unless a newer history entry still carries it. */
  function TrackEvictingIndex(st: TrackerState, s: ReceptionStats): TrackerState
  {
    var h := st.history + [s];
    var m := st.recentBlocks[s.blockId := s];
    if |h| > MaxHistorySize then
      var gone := h[0].blockId;
      TrackerState(if gone in Ids(h[1..]) then m else m - {gone}, h[1..],
                   st.blocksReceived + 1, Smooth(st.avgProcessingTime, s.processingTime))
    else
      TrackerState(m, h, st.blocksReceived + 1, Smooth(st.avgProcessingTime, s.processingTime))
  }

  ghost predicate IndexMatchesHistory(st: TrackerState)
  {
    st.recentBlocks.Keys == Ids(st.history) && |st.history| <= MaxHistorySize
  }

  lemma {:induction false} IdsBound(h: seq<ReceptionStats>)
    ensures |Ids(h)| <= |h|
    decreases |h|
  {
    if h != [] {
      var init := h[..|h| - 1];
      IdsBound(init);
      assert Ids(h) == Ids(init) + {h[|h| - 1].blockId} by {
        forall id | id in Ids(h) ensures id in Ids(init) + {h[|h| - 1].blockId} {
          var i :| 0 <= i < |h| && h[i].blockId == id;
          if i < |h| - 1 { assert init[i].blockId == id; }
        }
        forall id | id in Ids(init) ensures id in Ids(h) {
          var i :| 0 <= i < |init| && init[i].blockId == id;
          assert h[i].blockId == id;
        }
      }
    }
  }

  lemma IdsAppend(h: seq<ReceptionStats>, s: ReceptionStats)
    ensures Ids(h + [s]) == Ids(h) + {s.blockId}
  {
    var h' := h + [s];
    assert h'[|h|].blockId == s.blockId;
    forall id | id in Ids(h') ensures id in Ids(h) + {s.blockId} {
      var i :| 0 <= i < |h'| && h'[i].blockId == id;
      if i < |h| { assert h[i].blockId == id; }
    }
    forall id | id in Ids(h) ensures id in Ids(h') {
      var i :| 0 <= i < |h| && h[i].blockId == id;
      assert h'[i].blockId == id;
    }
  }

  lemma IdsDropFront(h: seq<ReceptionStats>)
    requires h != []
    ensures Ids(h) == Ids(h[1..]) + {h[0].blockId}
  {
    forall id | id in Ids(h) ensures id in Ids(h[1..]) + {h[0].blockId} {
      var i :| 0 <= i < |h| && h[i].blockId == id;
      if i > 0 { assert h[1..][i - 1].blockId == id; }
    }
    forall id | id in Ids(h[1..]) ensures id in Ids(h) {
      var i :| 0 <= i < |h[1..]| && h[1..][i].blockId == id;
      assert h[i + 1].blockId == id;
    }
  }

  /** The corrected tracker keeps its index keys equal to the ids in its history,
      so the index is bounded by the cap too. */
  lemma TrackEvictingIndexBounded(st: TrackerState, s: ReceptionStats)
    requires IndexMatchesHistory(st)
    ensures IndexMatchesHistory(TrackEvictingIndex(st, s))
    ensures |TrackEvictingIndex(st, s).recentBlocks| <= MaxHistorySize
    ensures Lookup(TrackEvictingIndex(st, s), s.blockId) == s
  {
    var h := st.history + [s];
    IdsAppend(st.history, s);
    var r := TrackEvictingIndex(st, s);
    if |h| > MaxHistorySize {
      IdsDropFront(h);
      assert h[1..][|h| - 2] == s;
      assert r.recentBlocks.Keys == Ids(h[1..]);
    }
    IdsBound(r.history);
    assert |r.recentBlocks| == |r.recentBlocks.Keys|;
  }

  // ----- clear_old_blocks

  lemma {:induction false} KeptConcat(a: seq<ReceptionStats>, b: seq<ReceptionStats>, olderThan: int)
    ensures Kept(a + b, olderThan) == Kept(a, olderThan) + Kept(b, olderThan)
    decreases |b|
  {
    if b != [] {
      var b' := b[..|b| - 1];
      assert (a + b)[..|a + b| - 1] == a + b';
      KeptConcat(a, b', olderThan);
    } else {
      assert a + b == a;
    }
  }

  /** clear_old_blocks keeps exactly the entries received at or after the
      threshold, never more than there were, and all of them when none is older. */
  lemma {:induction false} KeptExactly(h: seq<ReceptionStats>, olderThan: int)
    ensures |Kept(h, olderThan)| <= |h|
    ensures forall e :: e in Kept(h, olderThan) <==> e in h && e.receivedAt >= olderThan
    ensures (forall i :: 0 <= i < |h| ==> h[i].receivedAt >= olderThan) ==> Kept(h, olderThan) == h
    decreases |h|
  {
    if h != [] {
      var init := h[..|h| - 1];
      KeptExactly(init, olderThan);
      assert h == init + [h[|h| - 1]];
      forall e ensures e in h <==> e in init || e == h[|h| - 1] {
      }
    }
  }

  /** The erased index keys are exactly the ids of the dropped entries. */
  lemma {:induction false} EvictedIdsExactly(h: seq<ReceptionStats>, olderThan: int, id: BlockId)
    ensures id in EvictedIds(h, olderThan) <==>
            exists i :: 0 <= i < |h| && h[i].receivedAt < olderThan && h[i].blockId == id
    decreases |h|
  {
    if h != [] {
      var init := h[..|h| - 1];
      EvictedIdsExactly(init, olderThan, id);
      if id in EvictedIds(init, olderThan) {
        var i :| 0 <= i < |init| && init[i].receivedAt < olderThan && init[i].blockId == id;
        assert h[i] == init[i];
      }
      if exists i :: 0 <= i < |h| && h[i].receivedAt < olderThan && h[i].blockId == id {
        var i :| 0 <= i < |h| && h[i].receivedAt < olderThan && h[i].blockId == id;
        if i < |h| - 1 {
          assert init[i] == h[i];
        }
      }
    }
  }

  /** Purging never lowers the counter nor changes the average, and the history stays capped. */
  lemma ClearOldKeepsAggregates(st: TrackerState, olderThan: int)
    ensures ClearOld(st, olderThan).blocksReceived == st.blocksReceived
    ensures ClearOld(st, olderThan).avgProcessingTime == st.avgProcessingTime
    ensures |ClearOld(st, olderThan).history| <= |st.history|
  {
    KeptExactly(st.history, olderThan);
  }

  // ----- the tracker object

  /** Kept and EvictedIds over one more entry of a prefix. */
  lemma ClearPrefixSnoc(h0: seq<ReceptionStats>, k: nat, olderThan: int)
    requires k < |h0|
    ensures Kept(h0[..k + 1], olderThan) == Kept(h0[..k], olderThan) + (if h0[k].receivedAt >= olderThan then [h0[k]] else [])
    ensures EvictedIds(h0[..k + 1], olderThan) ==
            EvictedIds(h0[..k], olderThan) + (if h0[k].receivedAt < olderThan then {h0[k].blockId} else {})
  {
    assert h0[..k + 1][..k] == h0[..k];
  }

  /** Two equal suffixes stay equal one element further on. */
  lemma SuffixStep<T>(s: seq<T>, i: nat, t: seq<T>, k: nat)
    requires i < |s| && k <= |t| && s[i..] == t[k..]
    ensures k < |t| && s[i] == t[k] && s[i + 1..] == t[k + 1..]
  {
    assert s[i..][0] == s[i];
    assert s[i + 1..] == s[i..][1..];
    assert t[k + 1..] == t[k..][1..];
  }

  /** Erasing position i keeps the prefix before it and shifts the rest down. */
  lemma EraseAt<T>(s: seq<T>, i: nat)
    requires i < |s|
    ensures (s[..i] + s[i + 1..])[..i] == s[..i]
    ensures (s[..i] + s[i + 1..])[i..] == s[i + 1..]
  {
  }

  /** One step of the erase-while-iterating loop of clear_old_blocks: erasing
      position i or stepping over it keeps the kept prefix and the unvisited
      suffix in step with the original history. */
  lemma ClearStep(hist: seq<ReceptionStats>, i: nat, h0: seq<ReceptionStats>, k: nat, olderThan: int)
    requires i < |hist| && k <= |h0|
    requires hist[..i] == Kept(h0[..k], olderThan)
    requires hist[i..] == h0[k..]
    ensures k < |h0| && hist[i] == h0[k]
    ensures EvictedIds(h0[..k + 1], olderThan) ==
            EvictedIds(h0[..k], olderThan) + (if hist[i].receivedAt < olderThan then {hist[i].blockId} else {})
    ensures hist[i].receivedAt < olderThan ==>
              var t := hist[..i] + hist[i + 1..];
              t[..i] == Kept(h0[..k + 1], olderThan) && t[i..] == h0[k + 1..]
    ensures hist[i].receivedAt >= olderThan ==>
              hist[..i + 1] == Kept(h0[..k + 1], olderThan) && hist[i + 1..] == h0[k + 1..]
  {
    SuffixStep(hist, i, h0, k);
    ClearPrefixSnoc(h0, k, olderThan);
    EraseAt(hist, i);
    assert hist[..i + 1] == hist[..i] + [hist[i]];
  }

  class BlockReceptionTracker {
    var recentBlocks: map<BlockId, ReceptionStats>
    var history: seq<ReceptionStats>
    var blocksReceived: nat
    var avgProcessingTime: real

    function State(): TrackerState
      reads this
    {
      TrackerState(recentBlocks, history, blocksReceived, avgProcessingTime)
    }

    constructor ()
      ensures State() == EmptyTracker
    {
      recentBlocks := map[];
      history := [];
      blocksReceived := 0;
      avgProcessingTime := 0.0;
    }

    method TrackBlockReceived(blockId: BlockId, sourceNode: string, receivedAt: int, messageSize: nat,
                              sourceAddr: string, processingTime: real)
      modifies this
      ensures State() == Track(old(State()), ReceptionStats(blockId, sourceNode, receivedAt, messageSize,
                                                            sourceAddr, processingTime))
      ensures old(|history|) <= MaxHistorySize ==> |history| <= MaxHistorySize
      ensures blocksReceived == old(blocksReceived) + 1
    {
      var stats := ReceptionStats(blockId, sourceNode, receivedAt, messageSize, sourceAddr, processingTime);
      recentBlocks := recentBlocks[blockId := stats];
      history := history + [stats];
      UpdateStats();
      if |history| > MaxHistorySize {
        history := history[1..];
      }
    }

    /** Counts the record and folds the newest history entry into the average. */
    method UpdateStats()
      modifies this
      ensures blocksReceived == old(blocksReceived) + 1
      ensures avgProcessingTime == if old(history) == [] then old(avgProcessingTime)
                                   else Smooth(old(avgProcessingTime), old(history)[|old(history)| - 1].processingTime)
      ensures recentBlocks == old(recentBlocks) && history == old(history)
    {
      blocksReceived := blocksReceived + 1;
      if history != [] {
        var last := history[|history| - 1];
        avgProcessingTime := Smooth(avgProcessingTime, last.processingTime);
      }
    }

    /** The `limit` newest history entries, newest first (none for a non-positive limit). */
    method GetRecentBlocksStats(limit: int) returns (result: seq<ReceptionStats>)
      ensures |result| == if limit <= 0 then 0 else if limit < |history| then limit else |history|
      ensures forall i :: 0 <= i < |result| ==> result[i] == history[|history| - 1 - i]
      ensures result == NewestFirst(history, limit)
    {
      result := [];
      var count := 0;
      var it := |history|;
      while it > 0 && count < limit
        invariant 0 <= it <= |history|
        invariant count == |history| - it == |result|
        invariant limit > 0 ==> count <= limit
        invariant limit <= 0 ==> count == 0
        invariant forall i :: 0 <= i < |result| ==> result[i] == history[|history| - 1 - i]
        decreases it
      {
        result := result + [history[it - 1]];
        it := it - 1;
        count := count + 1;
      }
      NewestFirstSpec(history, limit);
    }

    function GetBlockStats(blockId: BlockId): ReceptionStats
      reads this
    {
      Lookup(State(), blockId)
    }

    function GetAverageProcessingTime(): real
      reads this
    {
      avgProcessingTime
    }

    function GetBlocksReceivedCount(): nat
      reads this
    {
      blocksReceived
    }

    /** Erases, in one pass, every history entry received before `olderThan`
        together with the index key of its block id. */
    method ClearOldBlocks(olderThan: int)
      modifies this
      ensures State() == ClearOld(old(State()), olderThan)
    {
      ghost var h0 := history;
      ghost var k := 0;
      var hist := history;
      var index := recentBlocks;
      var i := 0;
      while i < |hist|
        invariant 0 <= i <= |hist|
        invariant 0 <= k <= |h0|
        invariant hist[..i] == Kept(h0[..k], olderThan)
        invariant hist[i..] == h0[k..]
        invariant index == old(recentBlocks) - EvictedIds(h0[..k], olderThan)
        invariant blocksReceived == old(blocksReceived) && avgProcessingTime == old(avgProcessingTime)
        decreases |hist| - i
      {
        ClearStep(hist, i, h0, k, olderThan);
        if hist[i].receivedAt < olderThan {
          index := index - {hist[i].blockId};
          hist := hist[..i] + hist[i + 1..];
        } else {
          i := i + 1;
        }
        k := k + 1;
      }
      assert |h0[k..]| == 0;
      assert h0[..k] == h0;
      assert hist[..i] == hist;
      history := hist;
      recentBlocks := index;
    }
  }
}
