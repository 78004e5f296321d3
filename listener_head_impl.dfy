/** The overlay side of the listener head (listener-head-manager-impl.cpp):
    classifying decoded overlay messages into tracker calls, the idempotent
    set of monitored overlays, the default overlays subscribed at start-up and
    the five-minute "no new blocks" re-subscription.

    TL decoding, BlockQ parsing and compute_short_id are foreign: their
    outcomes are inputs (an Option for a decode, a BlockQOutcome for the block
    parse, a function for the short id).  The clock is an integer of seconds,
    the source node's hex rendering is an input string, and the processing
    time try_process_block measures is an input.  A subscription
    (start_listening_overlay, create_public_overlay) and an unsubscription
    (delete_overlay) are represented by the overlay ids they are issued for. */
module HeadImpl {
  import opened Common
  import opened ReceptionTracking

  /** Seconds without a new block before check_connection_status re-subscribes. */
  const StallSeconds: int := 300
  /** shardIdAll. */
  const ShardIdAll: nat := 0x8000_0000_0000_0000

  /** A decoded tonNode.blockBroadcast: its block id and its block data. */
  datatype BlockBroadcast = BlockBroadcast(id: BlockId, data: seq<byte>)

  /** A decoded overlay.Broadcast.  An overlay.broadcast carries its payload
      together with the payload's decodings as tonNode.blockBroadcast and as
      tonNode.blockUpdate (None where that decoding fails). */
  datatype OverlayMessage =
    | OverlayBroadcast(data: seq<byte>, asBlockBroadcast: Option<BlockBroadcast>, asBlockUpdate: Option<BlockId>)
    | OverlayBroadcastFec(broadcastHash: nat, data: seq<byte>, seqno: int)
    | OverlayBroadcastFecShort(broadcastHash: nat, data: seq<byte>, seqno: int)
    | OverlayBroadcastNotFound
    | OverlayUnicast(data: seq<byte>, asNodeData: bool)
    | OtherOverlayMessage

  /** What BlockQ::create and root_cell() give for a block's data. */
  datatype BlockQOutcome = CreateFailed | NullRootCell | Parsed

  /** try_process_block: one tracker call, with the block's size and the
      measured processing time, when the block parses and has a root cell. */
  function TryProcess(id: BlockId, data: seq<byte>, source: string, now: int, outcome: BlockQOutcome,
                      processingTime: real): seq<ReceptionStats>
  {
    if outcome == Parsed then [ReceptionStats(id, source, now, |data|, source, processingTime)] else []
  }

  /** process_block_broadcast: blockBroadcast is tried first (tracked, then
      try_process_block); otherwise a blockUpdate is tracked once; otherwise
      nothing. */
  function BlockBroadcastTracks(srcHex: string, now: int, msg: OverlayMessage, nowProcess: int,
                                outcome: BlockQOutcome, processingTime: real): seq<ReceptionStats>
    requires msg.OverlayBroadcast?
  {
    if msg.asBlockBroadcast.Some? then
      var b := msg.asBlockBroadcast.value;
      [ReceptionStats(b.id, srcHex, now, |msg.data|, srcHex, 0.0)] +
      TryProcess(b.id, b.data, srcHex, nowProcess, outcome, processingTime)
    else if msg.asBlockUpdate.Some? then
      [ReceptionStats(msg.asBlockUpdate.value, srcHex, now, |msg.data|, srcHex, 0.0)]
    else []
  }

  /** process_overlay_message: a failed overlay.Broadcast decode and every
      variant but overlay.broadcast produce no tracker call. */
  function OverlayMessageTracks(decoded: Option<OverlayMessage>, srcHex: string, now: int, nowProcess: int,
                                outcome: BlockQOutcome, processingTime: real): seq<ReceptionStats>
  {
    if decoded.Some? && decoded.value.OverlayBroadcast? then
      BlockBroadcastTracks(srcHex, now, decoded.value, nowProcess, outcome, processingTime)
    else []
  }

  /** process_broadcast_message: a direct tonNode.blockBroadcast is tracked with
      the source address "broadcast", then passed to try_process_block. */
  function BroadcastMessageTracks(srcHex: string, now: int, data: seq<byte>, decoded: Option<BlockBroadcast>,
                                  nowProcess: int, outcome: BlockQOutcome, processingTime: real): seq<ReceptionStats>
  {
    if decoded.None? then []
    else
      [ReceptionStats(decoded.value.id, srcHex, now, |data|, "broadcast", 0.0)] +
      TryProcess(decoded.value.id, decoded.value.data, srcHex, nowProcess, outcome, processingTime)
  }

  /** Only an overlay.broadcast can reach the tracker: a failed decode, FEC and
      FEC-short parts, NotFound, unicasts and other variants produce nothing. */
  lemma OnlyBroadcastsTrack(decoded: Option<OverlayMessage>, srcHex: string, now: int, nowProcess: int,
                            outcome: BlockQOutcome, processingTime: real)
    ensures OverlayMessageTracks(decoded, srcHex, now, nowProcess, outcome, processingTime) != [] ==>
              decoded.Some? && decoded.value.OverlayBroadcast? &&
              (decoded.value.asBlockBroadcast.Some? || decoded.value.asBlockUpdate.Some?)
    ensures decoded.Some? && decoded.value.OverlayBroadcast? ==>
              OverlayMessageTracks(decoded, srcHex, now, nowProcess, outcome, processingTime) ==
              BlockBroadcastTracks(srcHex, now, decoded.value, nowProcess, outcome, processingTime)
  {
  }

  /** A payload that decodes as blockBroadcast is handled as one whatever its
      blockUpdate decoding says; a blockUpdate alone is tracked exactly once,
      with the broadcast payload's size, and never processed further. */
  lemma BlockBroadcastFirst(srcHex: string, now: int, data: seq<byte>, b: BlockBroadcast, u1: Option<BlockId>,
                            u2: Option<BlockId>, nowProcess: int, outcome: BlockQOutcome, processingTime: real)
    ensures BlockBroadcastTracks(srcHex, now, OverlayBroadcast(data, Some(b), u1), nowProcess, outcome, processingTime) ==
            BlockBroadcastTracks(srcHex, now, OverlayBroadcast(data, Some(b), u2), nowProcess, outcome, processingTime)
    ensures u1.Some? ==>
              BlockBroadcastTracks(srcHex, now, OverlayBroadcast(data, None, u1), nowProcess, outcome, processingTime) ==
              [ReceptionStats(u1.value, srcHex, now, |data|, srcHex, 0.0)]
  {
  }

  /** At most two tracker calls per overlay message, both for the broadcast
      block's id; exactly two precisely when a blockBroadcast decodes and its
      block parses with a root cell. */
  lemma BroadcastTrackCount(srcHex: string, now: int, msg: OverlayMessage, nowProcess: int,
                            outcome: BlockQOutcome, processingTime: real)
    requires msg.OverlayBroadcast?
    ensures var t := BlockBroadcastTracks(srcHex, now, msg, nowProcess, outcome, processingTime);
            |t| <= 2 &&
            (|t| == 2 <==> msg.asBlockBroadcast.Some? && outcome == Parsed) &&
            (msg.asBlockBroadcast.Some? ==> forall i :: 0 <= i < |t| ==> t[i].blockId == msg.asBlockBroadcast.value.id)
    ensures var t := BlockBroadcastTracks(srcHex, now, msg, nowProcess, outcome, processingTime);
            msg.asBlockBroadcast.Some? && outcome == Parsed ==>
              t[0].messageSize == |msg.data| && t[1].messageSize == |msg.asBlockBroadcast.value.data| &&
              t[1].receivedAt == nowProcess && t[1].processingTime == processingTime
  {
  }

  /** A direct block broadcast is likewise tracked once, and once more only
      when its block parses with a root cell. */
  lemma BroadcastMessageCount(srcHex: string, now: int, data: seq<byte>, decoded: Option<BlockBroadcast>,
                              nowProcess: int, outcome: BlockQOutcome, processingTime: real)
    ensures var t := BroadcastMessageTracks(srcHex, now, data, decoded, nowProcess, outcome, processingTime);
            (decoded.None? <==> t == []) &&
            (|t| == 2 <==> decoded.Some? && outcome == Parsed) &&
            (decoded.Some? ==> t[0] == ReceptionStats(decoded.value.id, srcHex, now, |data|, "broadcast", 0.0))
  {
  }

  // ----- monitored overlays and the connection check

  datatype ImplState = ImplState(
    monitoredOverlays: set<OverlayId>,
    blocksReceived: nat,
    lastBlocksReceivedCount: nat,
    lastBlockReceivedAt: int,
    tracker: TrackerState)

  /** add_overlay_to_listen: the new set, and whether a subscription was issued. */
  function AddOverlay(st: ImplState, overlay: OverlayId): (ImplState, bool)
  {
    if overlay in st.monitoredOverlays then (st, false)
    else (st.(monitoredOverlays := st.monitoredOverlays + {overlay}), true)
  }

  lemma AddOverlaySpec(st: ImplState, overlay: OverlayId)
    ensures var (st', started) := AddOverlay(st, overlay);
            st'.monitoredOverlays == st.monitoredOverlays + {overlay} &&
            (started <==> overlay !in st.monitoredOverlays) &&
            st' == st.(monitoredOverlays := st'.monitoredOverlays)
    ensures var (st', _) := AddOverlay(st, overlay);
            AddOverlay(st', overlay) == (st', false)
  {
  }

  /** The two block ids start_listening builds its default overlays from. */
  const MasterchainBlocks: BlockId := BlockId(MasterchainId, ShardIdAll, 0, 0, 0)
  const BasechainBlocks: BlockId := BlockId(BasechainId, ShardIdAll, 0, 0, 0)

  /** start_listening: with no overlay monitored, subscribe to the two default
      overlays; both keys are taken from the masterchain id's root hash.
      The result lists the subscriptions issued, in order. */
  function StartListening(st: ImplState, shortIdOfKey: nat -> OverlayId): (ImplState, seq<OverlayId>)
  {
    if st.monitoredOverlays != {} then (st, [])
    else
      var masterchainOverlay := shortIdOfKey(MasterchainBlocks.rootHash);
      var basechainOverlay := shortIdOfKey(MasterchainBlocks.rootHash);
      var (s1, started1) := AddOverlay(st, masterchainOverlay);
      var (s2, started2) := AddOverlay(s1, basechainOverlay);
      (s2, (if started1 then [masterchainOverlay] else []) + (if started2 then [basechainOverlay] else []))
  }

  /** The two default ids coincide, so one overlay ends up monitored and one
      subscription is issued.  Taking the basechain key from the basechain id
      would change nothing: both root hashes are zero. */
  lemma DefaultOverlaysCoincide(st: ImplState, shortIdOfKey: nat -> OverlayId)
    ensures shortIdOfKey(BasechainBlocks.rootHash) == shortIdOfKey(MasterchainBlocks.rootHash)
    ensures st.monitoredOverlays == {} ==>
              StartListening(st, shortIdOfKey).0.monitoredOverlays == {shortIdOfKey(0)} &&
              StartListening(st, shortIdOfKey).1 == [shortIdOfKey(0)]
    ensures st.monitoredOverlays != {} ==> StartListening(st, shortIdOfKey) == (st, [])
  {
  }

  /** check_connection_status: the new state, and whether every monitored
      overlay is subscribed again. */
  function ConnectionCheck(st: ImplState, now: int): (ImplState, bool)
  {
    if st.blocksReceived == st.lastBlocksReceivedCount then
      if now - st.lastBlockReceivedAt > StallSeconds then (st.(lastBlockReceivedAt := now), true)
      else (st, false)
    else (st.(lastBlocksReceivedCount := st.blocksReceived, lastBlockReceivedAt := now), false)
  }

  /** Re-subscription happens exactly when the count has not moved for more
      than 300 s; afterwards the stored count equals the current one; the
      timestamp moves to now exactly when the count moved or a re-subscription
      happened; nothing else changes. */
  lemma ConnectionCheckSpec(st: ImplState, now: int)
    ensures var (st', resubscribe) := ConnectionCheck(st, now);
            (resubscribe <==> st.blocksReceived == st.lastBlocksReceivedCount && now - st.lastBlockReceivedAt > 300) &&
            st'.lastBlocksReceivedCount == st.blocksReceived &&
            st'.lastBlockReceivedAt == (if st.blocksReceived != st.lastBlocksReceivedCount || resubscribe then now
                                        else st.lastBlockReceivedAt) &&
            st' == st.(lastBlocksReceivedCount := st'.lastBlocksReceivedCount, lastBlockReceivedAt := st'.lastBlockReceivedAt)
  {
  }

  /** Two re-subscriptions are more than 300 s apart: a second check within
      300 s of one that re-subscribed (or saw new blocks) stays quiet as long as
      no new block is counted in between. */
  lemma QuietAfterCheck(st: ImplState, now: int, later: int)
    requires now <= later <= now + StallSeconds
    requires st.blocksReceived != st.lastBlocksReceivedCount || ConnectionCheck(st, now).1
    ensures !ConnectionCheck(ConnectionCheck(st, now).0, later).1
    ensures ConnectionCheck(ConnectionCheck(st, now).0, later).0 == ConnectionCheck(st, now).0
  {
  }

  class ListenerHeadManager {
    const tracker: BlockReceptionTracker
    var monitoredOverlays: set<OverlayId>
    var blocksReceived: nat
    var lastBlocksReceivedCount: nat
    var lastBlockReceivedAt: int

    function State(): ImplState
      reads this, tracker
    {
      ImplState(monitoredOverlays, blocksReceived, lastBlocksReceivedCount, lastBlockReceivedAt, tracker.State())
    }

    /** The fields this file uses beyond the header are declared elsewhere,
        so the manager starts from any values of them and a fresh tracker. */
    constructor (overlays: set<OverlayId>, received: nat, lastCount: nat, lastAt: int)
      ensures fresh(tracker)
      ensures State() == ImplState(overlays, received, lastCount, lastAt, EmptyTracker)
    {
      tracker := new BlockReceptionTracker();
      monitoredOverlays := overlays;
      blocksReceived := received;
      lastBlocksReceivedCount := lastCount;
      lastBlockReceivedAt := lastAt;
    }

    /** start_up runs start_listening; the result lists the subscriptions. */
    method StartUp(shortIdOfKey: nat -> OverlayId) returns (subscribed: seq<OverlayId>)
      modifies this
      ensures (State(), subscribed) == StartListening(old(State()), shortIdOfKey)
    {
      subscribed := [];
      if monitoredOverlays == {} {
        var masterchainOverlay := shortIdOfKey(MasterchainBlocks.rootHash);
        var basechainOverlay := shortIdOfKey(MasterchainBlocks.rootHash);
        ghost var s0 := State();
        var started1 := AddOverlayToListen(masterchainOverlay);
        ghost var s1 := State();
        var started2 := AddOverlayToListen(basechainOverlay);
        assert (s1, started1) == AddOverlay(s0, masterchainOverlay);
        assert (State(), started2) == AddOverlay(s1, basechainOverlay);
        subscribed := (if started1 then [masterchainOverlay] else []) + (if started2 then [basechainOverlay] else []);
      }
    }

    /** Returns whether start_listening_overlay was called. */
    method AddOverlayToListen(overlay: OverlayId) returns (started: bool)
      modifies this
      ensures (State(), started) == AddOverlay(old(State()), overlay)
    {
      if overlay in monitoredOverlays {
        return false;
      }
      monitoredOverlays := monitoredOverlays + {overlay};
      started := true;
    }

    /** The header's delegation to the tracker. */
    method TrackBlockReceived(id: BlockId, sourceId: string, receivedAt: int, messageSize: nat, sourceAddr: string,
                              processingTime: real)
      modifies tracker
      ensures State() == old(State()).(tracker := Track(old(tracker.State()),
                                         ReceptionStats(id, sourceId, receivedAt, messageSize, sourceAddr, processingTime)))
    {
      tracker.TrackBlockReceived(id, sourceId, receivedAt, messageSize, sourceAddr, processingTime);
    }

    method TryProcessBlock(id: BlockId, data: seq<byte>, source: string, now: int, outcome: BlockQOutcome,
                           processingTime: real)
      modifies tracker
      ensures State() == old(State()).(tracker := TrackAll(old(tracker.State()),
                                         TryProcess(id, data, source, now, outcome, processingTime)))
    {
      if outcome == CreateFailed {
        return;
      }
      if outcome == NullRootCell {
        return;
      }
      TrackBlockReceived(id, source, now, |data|, source, processingTime);
      TrackAllOne(old(tracker.State()), ReceptionStats(id, source, now, |data|, source, processingTime));
    }

    method ProcessBlockBroadcast(srcHex: string, now: int, msg: OverlayMessage, nowProcess: int,
                                 outcome: BlockQOutcome, processingTime: real)
      requires msg.OverlayBroadcast?
      modifies tracker
      ensures State() == old(State()).(tracker := TrackAll(old(tracker.State()),
                                         BlockBroadcastTracks(srcHex, now, msg, nowProcess, outcome, processingTime)))
    {
      if msg.asBlockBroadcast.None? {
        if msg.asBlockUpdate.None? {
          return;
        }
        TrackBlockReceived(msg.asBlockUpdate.value, srcHex, now, |msg.data|, srcHex, 0.0);
        TrackAllOne(old(tracker.State()), ReceptionStats(msg.asBlockUpdate.value, srcHex, now, |msg.data|, srcHex, 0.0));
        return;
      }
      var b := msg.asBlockBroadcast.value;
      var first := ReceptionStats(b.id, srcHex, now, |msg.data|, srcHex, 0.0);
      TrackBlockReceived(b.id, srcHex, now, |msg.data|, srcHex, 0.0);
      TrackAllOne(old(tracker.State()), first);
      ghost var mid := tracker.State();
      TryProcessBlock(b.id, b.data, srcHex, nowProcess, outcome, processingTime);
      TrackAllConcat(old(tracker.State()), [first], TryProcess(b.id, b.data, srcHex, nowProcess, outcome, processingTime));
    }

    method ProcessOverlayMessage(decoded: Option<OverlayMessage>, srcHex: string, now: int, nowProcess: int,
                                 outcome: BlockQOutcome, processingTime: real)
      modifies tracker
      ensures State() == old(State()).(tracker := TrackAll(old(tracker.State()),
                                         OverlayMessageTracks(decoded, srcHex, now, nowProcess, outcome, processingTime)))
    {
      if decoded.None? {
        return;
      }
      match decoded.value {
        case OverlayBroadcast(_, _, _) =>
          ProcessBlockBroadcast(srcHex, now, decoded.value, nowProcess, outcome, processingTime);
        case OverlayBroadcastFec(_, _, _) =>
        case OverlayBroadcastFecShort(_, _, _) =>
        case OverlayBroadcastNotFound =>
        case OverlayUnicast(_, _) =>
        case OtherOverlayMessage =>
      }
    }

    method ProcessBroadcastMessage(srcHex: string, now: int, data: seq<byte>, decoded: Option<BlockBroadcast>,
                                   nowProcess: int, outcome: BlockQOutcome, processingTime: real)
      modifies tracker
      ensures State() == old(State()).(tracker := TrackAll(old(tracker.State()),
                                         BroadcastMessageTracks(srcHex, now, data, decoded, nowProcess, outcome, processingTime)))
    {
      if decoded.None? {
        return;
      }
      var b := decoded.value;
      var first := ReceptionStats(b.id, srcHex, now, |data|, "broadcast", 0.0);
      TrackBlockReceived(b.id, srcHex, now, |data|, "broadcast", 0.0);
      TrackAllOne(old(tracker.State()), first);
      TryProcessBlock(b.id, b.data, srcHex, nowProcess, outcome, processingTime);
      TrackAllConcat(old(tracker.State()), [first], TryProcess(b.id, b.data, srcHex, nowProcess, outcome, processingTime));
    }

    /** alarm runs check_connection_status; the result lists the
        re-subscriptions, in the set's ascending order. */
    method CheckConnectionStatus(now: int) returns (resubscribed: seq<OverlayId>)
      modifies this
      ensures var (st, resubscribe) := ConnectionCheck(old(State()), now);
              State() == st && resubscribed == (if resubscribe then Ascending(old(monitoredOverlays)) else [])
    {
      resubscribed := [];
      if blocksReceived == lastBlocksReceivedCount {
        if now - lastBlockReceivedAt > StallSeconds {
          resubscribed := AscendingOf(monitoredOverlays);
          lastBlockReceivedAt := now;
        }
      } else {
        lastBlocksReceivedCount := blocksReceived;
        lastBlockReceivedAt := now;
      }
    }

    /** stop_listening: one delete_overlay per monitored overlay, in ascending order. */
    method StopListening() returns (deleted: seq<OverlayId>)
      ensures |deleted| == |monitoredOverlays|
      ensures forall o :: o in deleted <==> o in monitoredOverlays
      ensures StrictlyIncreasing(deleted)
    {
      deleted := AscendingOf(monitoredOverlays);
    }
  }

  lemma TrackAllOne(st: TrackerState, s: ReceptionStats)
    ensures TrackAll(st, [s]) == Track(st, s)
  {
    assert [s][..0] == [];
  }

  lemma {:induction false} TrackAllConcat(st: TrackerState, a: seq<ReceptionStats>, b: seq<ReceptionStats>)
    ensures TrackAll(st, a + b) == TrackAll(TrackAll(st, a), b)
    decreases |b|
  {
    if b == [] {
      assert a + b == a;
    } else {
      assert (a + b)[..|a + b| - 1] == a + b[..|b| - 1];
      TrackAllConcat(st, a, b[..|b| - 1]);
    }
  }
}
