/** The listener-head ListenerHeadManager declared in
    listener-head/listener-head-manager.hpp: three block counters, the set of
    monitored overlays and a BlockReceptionTracker it creates once and reads
    through.

    The reception time (td::Timestamp::now()) is an input; logging, the actor
    timer, ADNL peer registration and overlay subscription (which only log in
    this header) are not modelled. */
module HeadManager {
  import opened Common
  import opened ReceptionTracking

  /** Which of the three entry points a block came through. */
  datatype BlockKind = Block | Candidate | Shard

  datatype HeadState = HeadState(
    blocksReceived: nat,
    blockCandidatesReceived: nat,
    shardBlocksReceived: nat,
    monitoredOverlays: set<OverlayId>,
    tracker: TrackerState)

  const FreshHead: HeadState := HeadState(0, 0, 0, {}, EmptyTracker)

  /** The record each entry point hands the tracker: the default empty source
      address and a processing time of 0. */
  function RecordFor(id: BlockId, data: seq<byte>, sourceId: string, now: int): ReceptionStats
  {
    ReceptionStats(id, sourceId, now, |data|, "", 0.0)
  }

  /** process_block, process_block_candidate and process_shard_block: one
      tracker call, then the entry point's own counter. */
  function Process(st: HeadState, kind: BlockKind, id: BlockId, data: seq<byte>, sourceId: string, now: int): HeadState
  {
    var tracked := st.(tracker := Track(st.tracker, RecordFor(id, data, sourceId, now)));
    match kind
    case Block => tracked.(blocksReceived := st.blocksReceived + 1)
    case Candidate => tracked.(blockCandidatesReceived := st.blockCandidatesReceived + 1)
    case Shard => tracked.(shardBlocksReceived := st.shardBlocksReceived + 1)
  }

  /** add_overlay_to_listen: the new set, and whether start_listening_overlay ran. */
  function AddOverlay(st: HeadState, overlay: OverlayId): (HeadState, bool)
  {
    if overlay in st.monitoredOverlays then (st, false)
    else (st.(monitoredOverlays := st.monitoredOverlays + {overlay}), true)
  }

  /** Every block any entry point saw went through the tracker exactly once. */
  ghost predicate CountsAgree(st: HeadState)
  {
    st.tracker.blocksReceived == st.blocksReceived + st.blockCandidatesReceived + st.shardBlocksReceived
  }

  lemma FreshHeadAgrees()
    ensures CountsAgree(FreshHead) && FreshHead.monitoredOverlays == {}
  {
  }

  /** Each entry point raises its own counter by one and no other, keeps the
      overlays, makes exactly one tracker call (so the tracker's count rises by
      one and the record is what a lookup answers), and keeps CountsAgree. */
  lemma ProcessSpec(st: HeadState, kind: BlockKind, id: BlockId, data: seq<byte>, sourceId: string, now: int)
    ensures var st' := Process(st, kind, id, data, sourceId, now);
            st'.blocksReceived == st.blocksReceived + (if kind == Block then 1 else 0) &&
            st'.blockCandidatesReceived == st.blockCandidatesReceived + (if kind == Candidate then 1 else 0) &&
            st'.shardBlocksReceived == st.shardBlocksReceived + (if kind == Shard then 1 else 0) &&
            st'.monitoredOverlays == st.monitoredOverlays &&
            st'.tracker.blocksReceived == st.tracker.blocksReceived + 1 &&
            Lookup(st'.tracker, id) == RecordFor(id, data, sourceId, now)
    ensures CountsAgree(st) ==> CountsAgree(Process(st, kind, id, data, sourceId, now))
  {
    TrackStep(st.tracker, RecordFor(id, data, sourceId, now));
  }

  /** A run of process calls, oldest first. */
  function ProcessAll(st: HeadState, calls: seq<(BlockKind, BlockId, seq<byte>, string, int)>): HeadState
    decreases |calls|
  {
    if calls == [] then st
    else
      var c := calls[|calls| - 1];
      Process(ProcessAll(st, calls[..|calls| - 1]), c.0, c.1, c.2, c.3, c.4)
  }

  /** From a fresh manager, the tracker's count is the sum of the three
      counters after any run of calls. */
  lemma {:induction false} ProcessAllAgrees(calls: seq<(BlockKind, BlockId, seq<byte>, string, int)>)
    ensures CountsAgree(ProcessAll(FreshHead, calls))
    ensures ProcessAll(FreshHead, calls).tracker.blocksReceived == |calls|
    decreases |calls|
  {
    if calls != [] {
      ProcessAllAgrees(calls[..|calls| - 1]);
      var c := calls[|calls| - 1];
      ProcessSpec(ProcessAll(FreshHead, calls[..|calls| - 1]), c.0, c.1, c.2, c.3, c.4);
    }
  }

  /** The overlay is monitored afterwards; subscription starts exactly when it
      was new; adding again changes nothing and subscribes nothing. */
  lemma AddOverlaySpec(st: HeadState, overlay: OverlayId)
    ensures var (st', started) := AddOverlay(st, overlay);
            st'.monitoredOverlays == st.monitoredOverlays + {overlay} &&
            (started <==> overlay !in st.monitoredOverlays) &&
            st' == st.(monitoredOverlays := st'.monitoredOverlays)
    ensures var (st', _) := AddOverlay(st, overlay);
            AddOverlay(st', overlay) == (st', false)
  {
  }

  class ListenerHeadManager {
    /** Created once by the constructor; every getter reads through it. */
    const tracker: BlockReceptionTracker
    var blocksReceived: nat
    var blockCandidatesReceived: nat
    var shardBlocksReceived: nat
    var monitoredOverlays: set<OverlayId>

    function State(): HeadState
      reads this, tracker
    {
      HeadState(blocksReceived, blockCandidatesReceived, shardBlocksReceived, monitoredOverlays, tracker.State())
    }

    constructor ()
      ensures fresh(tracker)
      ensures State() == FreshHead
    {
      tracker := new BlockReceptionTracker();
      blocksReceived := 0;
      blockCandidatesReceived := 0;
      shardBlocksReceived := 0;
      monitoredOverlays := {};
    }

    method ProcessBlock(id: BlockId, data: seq<byte>, sourceId: string, now: int)
      modifies this, tracker
      ensures State() == Process(old(State()), Block, id, data, sourceId, now)
    {
      tracker.TrackBlockReceived(id, sourceId, now, |data|, "", 0.0);
      blocksReceived := blocksReceived + 1;
    }

    method ProcessBlockCandidate(id: BlockId, data: seq<byte>, sourceId: string, now: int)
      modifies this, tracker
      ensures State() == Process(old(State()), Candidate, id, data, sourceId, now)
    {
      tracker.TrackBlockReceived(id, sourceId, now, |data|, "", 0.0);
      blockCandidatesReceived := blockCandidatesReceived + 1;
    }

    method ProcessShardBlock(id: BlockId, data: seq<byte>, sourceId: string, now: int)
      modifies this, tracker
      ensures State() == Process(old(State()), Shard, id, data, sourceId, now)
    {
      tracker.TrackBlockReceived(id, sourceId, now, |data|, "", 0.0);
      shardBlocksReceived := shardBlocksReceived + 1;
    }

    /** Returns whether start_listening_overlay was called. */
    method AddOverlayToListen(overlay: OverlayId) returns (started: bool)
      modifies this
      ensures (State(), started) == AddOverlay(old(State()), overlay)
    {
      if overlay in monitoredOverlays {
        return false;
      }
      monitoredOverlays := monitoredOverlays + {overlay};
      started := true;
    }

    /** start_listening only warns; the result says whether it warns that no
        overlay is monitored yet. */
    method StartListening() returns (noOverlays: bool)
      ensures noOverlays <==> monitoredOverlays == {}
    {
      noOverlays := monitoredOverlays == {};
    }

    method GetRecentBlocksStats(limit: int) returns (result: seq<ReceptionStats>)
      ensures result == NewestFirst(tracker.history, limit)
      ensures |result| == if limit <= 0 then 0 else if limit < |tracker.history| then limit else |tracker.history|
    {
      result := tracker.GetRecentBlocksStats(limit);
    }

    function GetAverageProcessingTime(): (avg: real)
      reads this, tracker
      ensures avg == State().tracker.avgProcessingTime
    {
      tracker.GetAverageProcessingTime()
    }

    /** The tracker's count, which CountsAgree ties to the three counters. */
    function GetBlocksReceivedCount(): (n: nat)
      reads this, tracker
      ensures CountsAgree(State()) ==> n == blocksReceived + blockCandidatesReceived + shardBlocksReceived
    {
      tracker.GetBlocksReceivedCount()
    }
  }
}
